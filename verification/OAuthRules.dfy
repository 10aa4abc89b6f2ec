/** What the token, authorization, revocation and introspection endpoints do to the store
    (pkg/oauth), as functions of the contents. The methods of OAuth are proved against these. */
module OAuthRules {
  import opened Identity
  import opened Database
  import opened AccountRules
  import opened Scope

  datatype ErrorCode =
    | InvalidRequest
    | InvalidClient
    | InvalidGrant
    | UnauthorizedClient
    | UnsupportedGrantType
    | UnsupportedResponseType
    | InvalidScope
    | AccessDenied
    | InvalidToken
    | ServerError

  datatype Reply<+T> = Reply(db: Db, result: Result<T, ErrorCode>)

  datatype TokenResponse = TokenResponse(accessToken: string, expiresIn: Duration, refreshToken: string, scope: string)

  /** The values drawn and the times read while tokens are issued. */
  datatype Draws = Draws(
    accessId: string, accessValue: string, accessAt: Time,
    refreshId: string, refreshValue: string, refreshAt: Time)

  // ---------- Parameters ----------

  type Form = map<string, seq<string>>

  /** Zero values read as the empty string, two or more are an error. */
  function Param(form: Form, name: string): Result<string, ErrorCode> {
    if name !in form || |form[name]| == 0 then Ok("")
    else if |form[name]| > 1 then Err(InvalidRequest)
    else Ok(form[name][0])
  }

  function RequiredParam(form: Form, name: string): Result<string, ErrorCode> {
    if Param(form, name) == Ok("") then Err(InvalidRequest) else Param(form, name)
  }

  function ResolveScopes(client: Client, scope: string): Result<seq<string>, ErrorCode> {
    if scope == "" then Ok(client.defaultScopes)
    else
      var scopes := ParsedScopes(scope);
      if !ValidateScopeSyntax(scopes) || !client.AllowsScopes(scopes) then Err(InvalidScope) else Ok(scopes)
  }

  // ---------- PKCE, RFC 7636 ----------

  const METHOD_PLAIN := "plain"
  const METHOD_S256 := "S256"

  predicate IsValidCodeVerifier(verifier: string) {
    && 43 <= |verifier| <= 128
    && forall c :: c in verifier ==>
         'A' <= c <= 'Z' || 'a' <= c <= 'z' || '0' <= c <= '9' || c == '-' || c == '.' || c == '_' || c == '~'
  }

  predicate VerifyCodeChallenge(env: Env, challenge: string, challengeMethod: string, verifier: string) {
    && IsValidCodeVerifier(verifier)
    && if challengeMethod == METHOD_S256 then env.s256(verifier) == challenge
       else (challengeMethod == METHOD_PLAIN || challengeMethod == "") && verifier == challenge
  }

  // ---------- Issuing tokens ----------

  function NewAccess(client: Client, userId: string, scopes: seq<string>, codeId: string, id: string, value: string,
      at: Time): AccessToken {
    AccessToken(id, HashToken(value), client.id, userId, scopes, codeId, at,
                at + OrDefault(client.accessTokenLifetime, DEFAULT_ACCESS_TOKEN_LIFETIME))
  }

  function NewRefresh(client: Client, access: AccessToken, id: string, value: string, at: Time): RefreshToken {
    var lifetime := OrDefault(client.refreshTokenLifetime, DEFAULT_REFRESH_TOKEN_LIFETIME);
    RefreshToken(id, HashToken(value), client.id, access.userId, access.id, access.codeId, access.scopes,
                 client.refreshExpiration, client.refreshUsage, lifetime, at, at, at + lifetime)
  }

  function RotatedExpiresAt(old_: RefreshToken, now: Time): Time {
    if old_.expiration == Absolute then old_.expiresAt else now + old_.lifetime
  }

  /** The successor of a one-time refresh token. */
  function Rotated(rt: RefreshToken, accessId: string, id: string, value: string, now: Time): RefreshToken {
    rt.(id := id, tokenHash := HashToken(value), accessTokenId := accessId,
        createdAt := now, updatedAt := now, expiresAt := RotatedExpiresAt(rt, now))
  }

  /** A reusable refresh token after a use. */
  function Reused(rt: RefreshToken, accessId: string, now: Time): RefreshToken {
    rt.(accessTokenId := accessId).Touched(now)
  }

  function Response(access: AccessToken, value: string, refreshValue: string): TokenResponse {
    TokenResponse(value, access.expiresAt - access.createdAt, refreshValue, FormatScope(access.scopes))
  }

  ghost function IssueTokens(db: Db, client: Client, userId: string, scopes: seq<string>, withRefresh: bool,
      codeId: string, d: Draws): Reply<TokenResponse> {
    var access := NewAccess(client, userId, scopes, codeId, d.accessId, d.accessValue, d.accessAt);
    var w := CreateAccessToken(db, access);
    if w.error.Some? then Reply(db, Err(ServerError))
    else if withRefresh && client.AllowsGrant(RefreshTokenGrantType) then
      var v := CreateRefreshToken(w.db, NewRefresh(client, access, d.refreshId, d.refreshValue, d.refreshAt));
      if v.error.Some? then Reply(w.db, Err(ServerError))
      else Reply(v.db, Ok(Response(access, d.accessValue, d.refreshValue)))
    else Reply(w.db, Ok(Response(access, d.accessValue, "")))
  }

  // ---------- The authorization code grant ----------

  datatype CodeVerdict = Rejected | Replayed | Exchangeable

  /** The checks on a stored code, in the order of the source. */
  function JudgeCode(env: Env, client: Client, code: AuthorizationCode, redirectUri: string, verifier: string,
      now: Time): CodeVerdict {
    if code.clientId != client.id then Rejected
    else if code.consumedAt.Some? then Replayed
    else if ExpiredAt(code.expiresAt, now) then Rejected
    else if code.redirectUri != "" && redirectUri != code.redirectUri then Rejected
    else if code.redirectUri == "" && redirectUri != "" && !client.AllowsRedirect(redirectUri) then Rejected
    else if code.codeChallenge != "" then
      if verifier == "" then Rejected
      else if VerifyCodeChallenge(env, code.codeChallenge, code.codeChallengeMethod, verifier) then Exchangeable
      else Rejected
    else if verifier != "" then Rejected
    else Exchangeable
  }

  /** The resource owner may still get tokens. */
  predicate OwnerActive(env: Env, db: Db, userId: string) {
    userId in db.users && CanSignIn(env, db.users[userId]).None?
  }

  ghost function ExchangeCode(env: Env, db: Db, client: Client, value: string, redirectUri: string, verifier: string,
      now: Time, d: Draws): Reply<TokenResponse> {
    match CodeByHash(db, HashToken(value))
    case None => Reply(db, Err(InvalidGrant))
    case Some(code) =>
      match JudgeCode(env, client, code, redirectUri, verifier, now)
      case Rejected => Reply(db, Err(InvalidGrant))
      case Replayed => Reply(RevokeTokens(db, CodeFilter(code.id)), Err(InvalidGrant))
      case Exchangeable =>
        var consumed := ConsumeCode(db, code.id, now).db;
        if !OwnerActive(env, consumed, code.userId) then Reply(consumed, Err(InvalidGrant))
        else IssueTokens(consumed, client, code.userId, code.scopes, true, code.id, d)
  }

  ghost function AuthorizationCodeGrant(env: Env, db: Db, client: Client, form: Form, now: Time,
      d: Draws): Reply<TokenResponse> {
    var value, redirectUri, verifier := RequiredParam(form, "code"), Param(form, "redirect_uri"),
      Param(form, "code_verifier");
    if value.Err? then Reply(db, Err(value.error))
    else if redirectUri.Err? then Reply(db, Err(redirectUri.error))
    else if verifier.Err? then Reply(db, Err(verifier.error))
    else ExchangeCode(env, db, client, value.value, redirectUri.value, verifier.value, now, d)
  }

  // ---------- The refresh token grant ----------

  /** The checks on a stored refresh token; the scopes of the new access token. */
  function JudgeRefresh(client: Client, rt: RefreshToken, scope: string, now: Time): Result<seq<string>, ErrorCode> {
    if rt.clientId != client.id then Err(InvalidGrant)
    else if ExpiredAt(rt.expiresAt, now) then Err(InvalidGrant)
    else
      var scopes := if scope == "" then rt.scopes else ParsedScopes(scope);
      if scope != "" && (!ValidateScopeSyntax(scopes) || !rt.AllowsScopes(scopes)) then Err(InvalidScope)
      else if !client.AllowsScopes(scopes) then Err(InvalidScope)
      else Ok(scopes)
  }

  /** Without the access token of that id; nothing happens when there is none. */
  function WithoutAccess(db: Db, id: string): Db {
    if id == "" then db else DeleteAccessToken(db, id).db
  }

  ghost function UseRefreshToken(db: Db, client: Client, rt: RefreshToken, scopes: seq<string>, now: Time,
      d: Draws): Reply<TokenResponse> {
    var access := NewAccess(client, rt.userId, scopes, rt.codeId, d.accessId, d.accessValue, d.accessAt);
    var dropped := WithoutAccess(db, rt.accessTokenId);
    var w := CreateAccessToken(dropped, access);
    if w.error.Some? then Reply(dropped, Err(ServerError))
    else if rt.usage == OneTime then
      var gone := DeleteRefreshToken(w.db, rt.id).db;
      var v := CreateRefreshToken(gone, Rotated(rt, access.id, d.refreshId, d.refreshValue, now));
      if v.error.Some? then Reply(gone, Err(ServerError))
      else Reply(v.db, Ok(Response(access, d.accessValue, d.refreshValue)))
    else
      Reply(UpdateRefreshToken(w.db, Reused(rt, access.id, now)).db, Ok(Response(access, d.accessValue, "")))
  }

  ghost function Refresh(env: Env, db: Db, client: Client, value: string, scope: string, now: Time,
      d: Draws): Reply<TokenResponse> {
    match RefreshByHash(db, HashToken(value))
    case None => Reply(db, Err(InvalidGrant))
    case Some(rt) =>
      match JudgeRefresh(client, rt, scope, now)
      case Err(e) => Reply(db, Err(e))
      case Ok(scopes) =>
        if rt.userId != "" && !OwnerActive(env, db, rt.userId) then Reply(db, Err(InvalidGrant))
        else UseRefreshToken(db, client, rt, scopes, now, d)
  }

  ghost function RefreshTokenGrant(env: Env, db: Db, client: Client, form: Form, now: Time,
      d: Draws): Reply<TokenResponse> {
    var value, scope := RequiredParam(form, "refresh_token"), Param(form, "scope");
    if value.Err? then Reply(db, Err(value.error))
    else if scope.Err? then Reply(db, Err(scope.error))
    else Refresh(env, db, client, value.value, scope.value, now, d)
  }

  // ---------- The password and client credentials grants ----------

  ghost function PasswordGrant(env: Env, db: Db, client: Client, form: Form, now: Time,
      d: Draws): Reply<TokenResponse> {
    var username, password, scope := RequiredParam(form, "username"), RequiredParam(form, "password"),
      Param(form, "scope");
    if username.Err? then Reply(db, Err(username.error))
    else if password.Err? then Reply(db, Err(password.error))
    else if scope.Err? then Reply(db, Err(scope.error))
    else match ResolveScopes(client, scope.value)
      case Err(e) => Reply(db, Err(e))
      case Ok(scopes) =>
        var signedIn := Authenticate(env, db, username.value, password.value, now);
        if signedIn.result.Err? then Reply(signedIn.db, Err(InvalidGrant))
        else IssueTokens(signedIn.db, client, signedIn.result.value.id, scopes, true, "", d)
  }

  ghost function ClientCredentialsGrant(db: Db, client: Client, form: Form, d: Draws): Reply<TokenResponse> {
    var scope := Param(form, "scope");
    if client.IsPublic() then Reply(db, Err(UnauthorizedClient))
    else if scope.Err? then Reply(db, Err(scope.error))
    else match ResolveScopes(client, scope.value)
      case Err(e) => Reply(db, Err(e))
      case Ok(scopes) => IssueTokens(db, client, "", scopes, false, "", d)
  }

  /** The token endpoint for the client whose credentials were presented: clientKey is its id.
      Comparing the secret itself is left to the caller. */
  ghost function TokenEndpoint(env: Env, db: Db, clientKey: string, grantType: GrantType, form: Form, now: Time,
      d: Draws): Reply<TokenResponse> {
    if clientKey !in db.clients || !db.clients[clientKey].enabled then Reply(db, Err(InvalidClient))
    else
      var client := db.clients[clientKey];
      if grantType.ImplicitGrantType? || grantType.OtherGrantType? then Reply(db, Err(UnsupportedGrantType))
      else if !client.AllowsGrant(grantType) then Reply(db, Err(UnauthorizedClient))
      else match grantType
        case AuthorizationCodeGrantType => AuthorizationCodeGrant(env, db, client, form, now, d)
        case RefreshTokenGrantType => RefreshTokenGrant(env, db, client, form, now, d)
        case PasswordGrantType => PasswordGrant(env, db, client, form, now, d)
        case _ => ClientCredentialsGrant(db, client, form, d)
  }

  /** The grant type that a request names. */
  function GrantTypeOf(text: string): GrantType {
    match text
    case "authorization_code" => AuthorizationCodeGrantType
    case "implicit" => ImplicitGrantType
    case "client_credentials" => ClientCredentialsGrantType
    case "password" => PasswordGrantType
    case "refresh_token" => RefreshTokenGrantType
    case _ => OtherGrantType(text)
  }

  /** A request to the token endpoint with the grant type as a parameter of its form. */
  ghost function TokenRequest(env: Env, db: Db, clientKey: string, form: Form, now: Time,
        d: Draws): Reply<TokenResponse> {
    if !ClientActive(db, clientKey) then Reply(db, Err(InvalidClient))
    else match RequiredParam(form, "grant_type")
      case Err(e) => Reply(db, Err(e))
      case Ok(text) => TokenEndpoint(env, db, clientKey, GrantTypeOf(text), form, now, d)
  }

  // ---------- The authorization endpoint ----------

  datatype ResponseType = CodeResponse | TokenResponseType

  datatype AuthorizeRequest = AuthorizeRequest(
    client: Client, redirectUri: string, redirectUriParam: string,
    responseType: ResponseType, scopes: seq<string>, codeChallenge: string, codeChallengeMethod: string)

  datatype Decision = Undecided | Unverified | Allowed | Denied

  datatype AuthorizeAnswer =
    | PageError(code: ErrorCode)
    | RedirectError(code: ErrorCode)
    | ShowLogin
    | AskConsent
    | CodeIssued(value: string)
    | TokenIssued(response: TokenResponse)

  datatype Authorized = Authorized(db: Db, answer: AuthorizeAnswer)

  /** The client and the registered redirection URI of the request. */
  ghost function ClientAndRedirect(db: Db, form: Form): Result<(Client, string, string), ErrorCode> {
    var clientId := RequiredParam(form, "client_id");
    if clientId.Err? then Err(clientId.error)
    else match ClientByClientId(db, clientId.value)
      case None => Err(InvalidClient)
      case Some(client) =>
        if !client.enabled then Err(InvalidClient)
        else
          var uri := Param(form, "redirect_uri");
          if uri.Err? then Err(uri.error)
          else if uri.value == "" then
            if |client.redirectUris| != 1 then Err(InvalidRequest) else Ok((client, client.redirectUris[0], ""))
          else if client.AllowsRedirect(uri.value) then Ok((client, uri.value, uri.value))
          else Err(InvalidRequest)
  }

  /** The challenge and method of a code request; public clients must send one. */
  function ChallengeOf(client: Client, form: Form): Result<(string, string), ErrorCode> {
    var challenge, challengeMethod := Param(form, "code_challenge"), Param(form, "code_challenge_method");
    if challenge.Err? then Err(challenge.error)
    else if challengeMethod.Err? then Err(challengeMethod.error)
    else if challenge.value == "" then
      if client.requirePkce || client.IsPublic() then Err(InvalidRequest) else Ok(("", ""))
    else
      var m := if challengeMethod.value == "" then METHOD_PLAIN else challengeMethod.value;
      if (m != METHOD_PLAIN && m != METHOD_S256) || !IsValidCodeVerifier(challenge.value) then Err(InvalidRequest)
      else Ok((challenge.value, m))
  }

  ghost function ReadAuthorizeRequest(client: Client, redirectUri: string, redirectUriParam: string,
      form: Form): Result<AuthorizeRequest, ErrorCode> {
    var state, responseType, scope := Param(form, "state"), Param(form, "response_type"), Param(form, "scope");
    if state.Err? then Err(state.error)
    else if responseType.Err? then Err(responseType.error)
    else if responseType.value == "" then Err(InvalidRequest)
    else if responseType.value != "code" && responseType.value != "token" then Err(UnsupportedResponseType)
    else if responseType.value == "code" && !client.AllowsGrant(AuthorizationCodeGrantType) then Err(UnauthorizedClient)
    else if responseType.value == "token" && !client.AllowsGrant(ImplicitGrantType) then Err(UnauthorizedClient)
    else if scope.Err? then Err(scope.error)
    else match ResolveScopes(client, scope.value)
      case Err(e) => Err(e)
      case Ok(scopes) =>
        if responseType.value == "token" then
          Ok(AuthorizeRequest(client, redirectUri, redirectUriParam, TokenResponseType, scopes, "", ""))
        else match ChallengeOf(client, form)
          case Err(e) => Err(e)
          case Ok(pkce) =>
            Ok(AuthorizeRequest(client, redirectUri, redirectUriParam, CodeResponse, scopes, pkce.0, pkce.1))
  }

  function NewCode(req: AuthorizeRequest, userId: string, id: string, value: string, now: Time): AuthorizationCode {
    AuthorizationCode(id, HashToken(value), req.client.id, userId, req.scopes, req.redirectUriParam,
                      req.codeChallenge, req.codeChallengeMethod, now,
                      now + OrDefault(req.client.codeLifetime, DEFAULT_AUTHORIZATION_CODE_LIFETIME), None)
  }

  /** The last step: an authorization code (drawn as d.refreshId, d.refreshValue) or an implicit token. */
  ghost function Grant(db: Db, req: AuthorizeRequest, userId: string, now: Time, d: Draws): Authorized {
    if req.responseType.CodeResponse? then
      var w := CreateCode(db, NewCode(req, userId, d.refreshId, d.refreshValue, now));
      Authorized(w.db, if w.error.Some? then RedirectError(ServerError) else CodeIssued(d.refreshValue))
    else
      var issued := IssueTokens(db, req.client, userId, req.scopes, false, "", d);
      Authorized(issued.db,
                 if issued.result.Err? then RedirectError(issued.result.error) else TokenIssued(issued.result.value))
  }

  lemma RequestNamesItsClient(client: Client, redirectUri: string, redirectUriParam: string, form: Form)
    ensures var r := ReadAuthorizeRequest(client, redirectUri, redirectUriParam, form);
            r.Ok? ==> r.value.client == client
  {
  }

  /** HandleAuthorize for a browser that presents a session (or none) and a consent decision. */
  ghost function Authorize(env: Env, db: Db, form: Form, session: Option<Session>, decision: Decision, now: Time,
      d: Draws): Authorized {
    match ClientAndRedirect(db, form)
    case Err(e) => Authorized(db, PageError(e))
    case Ok(target) =>
      match ReadAuthorizeRequest(target.0, target.1, target.2, form)
      case Err(e) => Authorized(db, RedirectError(e))
      case Ok(req) =>
        var user := if session.None? then None else CurrentUser(env, db, session.value, now);
        if user.None? then Authorized(db, ShowLogin)
        else if req.client.requireConsent && decision != Allowed then
          Authorized(db, if decision == Undecided then AskConsent
                         else if decision == Unverified then PageError(InvalidRequest)
                         else RedirectError(AccessDenied))
        else Grant(db, req, user.value.id, now, d)
  }

  // ---------- Revocation, RFC 7009 ----------

  const REFRESH_HINT := "refresh_token"

  datatype TokenKind = AccessKind | RefreshKind

  /** The order in which the two token tables are searched. */
  function SearchOrder(hint: string): (order: seq<TokenKind>)
    ensures |order| == 2
  {
    if hint == REFRESH_HINT then [RefreshKind, AccessKind] else [AccessKind, RefreshKind]
  }

  ghost predicate Holds(db: Db, kind: TokenKind, h: Digest) {
    match kind
    case AccessKind => AccessByHash(db, h).Some?
    case RefreshKind => RefreshByHash(db, h).Some?
  }

  ghost function RevokeKind(db: Db, client: Client, kind: TokenKind, h: Digest): Db
    requires Holds(db, kind, h)
  {
    match kind
    case AccessKind =>
      var t := AccessByHash(db, h).value;
      if t.clientId == client.id then DeleteAccessToken(db, t.id).db else db
    case RefreshKind =>
      var t := RefreshByHash(db, h).value;
      if t.clientId == client.id then WithoutAccess(DeleteRefreshToken(db, t.id).db, t.accessTokenId) else db
  }

  ghost function Revoke(db: Db, client: Client, value: string, hint: string): Db {
    var order, h := SearchOrder(hint), HashToken(value);
    if Holds(db, order[0], h) then RevokeKind(db, client, order[0], h)
    else if Holds(db, order[1], h) then RevokeKind(db, client, order[1], h)
    else db
  }

  // ---------- Introspection, RFC 7662, and bearer validation ----------

  datatype TokenType = Bearer | RefreshType

  datatype Introspection =
    | Inactive
    | Active(tokenType: TokenType, scope: string, clientId: string, username: string, subject: string,
             expiresAt: int, issuedAt: int)

  datatype Found = Found(tokenType: TokenType, clientId: string, userId: string, scopes: seq<string>,
                         createdAt: Time, expiresAt: Time)

  ghost function FoundKind(db: Db, kind: TokenKind, h: Digest): Option<Found> {
    match kind
    case AccessKind =>
      (match AccessByHash(db, h)
       case None => None
       case Some(t) => Some(Found(Bearer, t.clientId, t.userId, t.scopes, t.createdAt, t.expiresAt)))
    case RefreshKind =>
      match RefreshByHash(db, h)
      case None => None
      case Some(t) => Some(Found(RefreshType, t.clientId, t.userId, t.scopes, t.createdAt, t.expiresAt))
  }

  ghost function FindToken(db: Db, value: string, hint: string): Option<Found> {
    var order, h := SearchOrder(hint), HashToken(value);
    if FoundKind(db, order[0], h).Some? then FoundKind(db, order[0], h) else FoundKind(db, order[1], h)
  }

  predicate ClientActive(db: Db, id: string) {
    id in db.clients && db.clients[id].enabled
  }

  ghost function Introspect(env: Env, db: Db, value: string, hint: string, now: Time): Introspection {
    match FindToken(db, value, hint)
    case None => Inactive
    case Some(f) =>
      if ExpiredAt(f.expiresAt, now) || !ClientActive(db, f.clientId) then Inactive
      else if f.userId == "" then
        Active(f.tokenType, FormatScope(f.scopes), db.clients[f.clientId].clientId, "", "", f.expiresAt / SECOND,
               f.createdAt / SECOND)
      else if !OwnerActive(env, db, f.userId) then Inactive
      else
        var u := db.users[f.userId];
        Active(f.tokenType, FormatScope(f.scopes), db.clients[f.clientId].clientId, u.username, u.id,
               f.expiresAt / SECOND, f.createdAt / SECOND)
  }

  datatype TokenInfo = TokenInfo(token: AccessToken, client: Client, user: Option<User>)

  ghost function ValidateAccessToken(env: Env, db: Db, value: string, now: Time): Result<TokenInfo, ErrorCode> {
    match AccessByHash(db, HashToken(value))
    case None => Err(InvalidToken)
    case Some(t) =>
      if ExpiredAt(t.expiresAt, now) || !ClientActive(db, t.clientId) then Err(InvalidToken)
      else if t.userId == "" then Ok(TokenInfo(t, db.clients[t.clientId], None))
      else if !OwnerActive(env, db, t.userId) then Err(InvalidToken)
      else Ok(TokenInfo(t, db.clients[t.clientId], Some(db.users[t.userId])))
  }
}
