/** The OAuth 2.0 endpoints (pkg/oauth): the grants, revocation, introspection and bearer
    validation, as the multi-step store programs they are. Requests run one at a time here;
    Interleaving.dfy takes the same programs apart, one store call per step. */
module OAuth {
  import opened Identity
  import opened Database
  import opened AccountRules
  import opened OAuthRules
  import opened MemoryStore
  import opened Scope
  import Accounts

  class Server {
    const env: Env
    const store: Store
    const accounts: Accounts.Service

    constructor (accounts: Accounts.Service)
      ensures this.accounts == accounts && Wired()
    {
      this.env := accounts.env;
      this.store := accounts.store;
      this.accounts := accounts;
    }

    ghost predicate Wired() {
      accounts.store == store && accounts.env == env
    }

    // ---------- Issuing tokens ----------

    method CreateAccess(client: Client, userId: string, scopes: seq<string>, codeId: string, id: string,
        value: string, at: Time)
      returns (token: AccessToken, error: Option<StoreError>)
      requires store.Valid()
      modifies store`accessTokens
      ensures store.Valid() && token == NewAccess(client, userId, scopes, codeId, id, value, at)
      ensures Written(store.Contents(), error) == CreateAccessToken(old(store.Contents()), token)
    {
      var lifetime := client.accessTokenLifetime;
      if lifetime <= 0 {
        lifetime := DEFAULT_ACCESS_TOKEN_LIFETIME;
      }
      token := AccessToken(id, HashToken(value), client.id, userId, scopes, codeId, at, at + lifetime);
      error := store.CreateAccessToken(token);
    }

    method Issue(client: Client, userId: string, scopes: seq<string>, withRefresh: bool, codeId: string, d: Draws)
      returns (r: Result<TokenResponse, ErrorCode>)
      requires store.Valid()
      modifies store`accessTokens, store`refreshTokens
      ensures store.Valid()
      ensures Reply(store.Contents(), r) == IssueTokens(old(store.Contents()), client, userId, scopes, withRefresh,
                                                        codeId, d)
    {
      hide Indexed, NewAccess, NewRefresh;
      var access, error := CreateAccess(client, userId, scopes, codeId, d.accessId, d.accessValue, d.accessAt);
      if error.Some? {
        return Err(ServerError);
      }
      var response := Response(access, d.accessValue, "");
      if withRefresh && client.AllowsGrant(RefreshTokenGrantType) {
        var refresh := NewRefresh(client, access, d.refreshId, d.refreshValue, d.refreshAt);
        error := store.CreateRefreshToken(refresh);
        if error.Some? {
          return Err(ServerError);
        }
        response := response.(refreshToken := d.refreshValue);
      }
      return Ok(response);
    }

    /** Two filtered deletes: afterwards no row carries the code id. */
    method RevokeGrant(codeId: string)
      requires store.Valid()
      modifies store`accessTokens, store`refreshTokens
      ensures store.Valid() && store.Contents() == RevokeTokens(old(store.Contents()), CodeFilter(codeId))
    {
      var n := store.DeleteRefreshTokens(CodeFilter(codeId));
      n := store.DeleteAccessTokens(CodeFilter(codeId));
    }

    method LookupOwner(userId: string) returns (r: Result<User, ErrorCode>)
      requires store.Valid()
      ensures r == if OwnerActive(env, store.Contents(), userId) then Ok(store.users[userId]) else Err(InvalidGrant)
    {
      var user := store.GetUserById(userId);
      if user.Err? || CanSignIn(env, user.value).Some? {
        return Err(InvalidGrant);
      }
      return Ok(user.value);
    }

    // ---------- The grants ----------

    method ExchangeAuthorizationCode(client: Client, form: Form, now: Time,
        d: Draws) returns (r: Result<TokenResponse, ErrorCode>)
      requires store.Valid()
      modifies store`accessTokens, store`refreshTokens, store`codes
      ensures store.Valid()
      ensures Reply(store.Contents(), r) == AuthorizationCodeGrant(env, old(store.Contents()), client, form, now, d)
    {
      var value := RequiredParam(form, "code");
      if value.Err? { return Err(value.error); }
      var redirectUri := Param(form, "redirect_uri");
      if redirectUri.Err? { return Err(redirectUri.error); }
      var verifier := Param(form, "code_verifier");
      if verifier.Err? { return Err(verifier.error); }

      var found := store.GetAuthorizationCodeByHash(HashToken(value.value));
      if found.Err? {
        return Err(InvalidGrant);
      }
      var code := found.value;
      if code.clientId != client.id {
        return Err(InvalidGrant);
      }
      if code.consumedAt.Some? {
        RevokeGrant(code.id);
        return Err(InvalidGrant);
      }
      if ExpiredAt(code.expiresAt, now) {
        return Err(InvalidGrant);
      }
      if code.redirectUri != "" {
        if redirectUri.value != code.redirectUri { return Err(InvalidGrant); }
      } else if redirectUri.value != "" && !client.AllowsRedirect(redirectUri.value) {
        return Err(InvalidGrant);
      }
      if code.codeChallenge != "" {
        if verifier.value == "" { return Err(InvalidGrant); }
        if !VerifyCodeChallenge(env, code.codeChallenge, code.codeChallengeMethod, verifier.value) {
          return Err(InvalidGrant);
        }
      } else if verifier.value != "" {
        return Err(InvalidGrant);
      }
      assert JudgeCode(env, client, code, redirectUri.value, verifier.value, now) == Exchangeable;
      r := ConsumeAndIssue(client, code, now, d);
    }

    /** The second half of the exchange: the code is used up before anything else happens. */
    method ConsumeAndIssue(client: Client, code: AuthorizationCode, now: Time,
        d: Draws) returns (r: Result<TokenResponse, ErrorCode>)
      requires store.Valid() && code.id in store.codes && store.codes[code.id] == code && code.consumedAt.None?
      modifies store`accessTokens, store`refreshTokens, store`codes
      ensures store.Valid()
      ensures var consumed := ConsumeCode(old(store.Contents()), code.id, now).db;
              Reply(store.Contents(), r) ==
              if OwnerActive(env, consumed, code.userId) then
                IssueTokens(consumed, client, code.userId, code.scopes, true, code.id, d)
              else Reply(consumed, Err(InvalidGrant))
    {
      var error := store.ConsumeAuthorizationCode(code.id, now);
      if error.Some? {
        // Another request was faster, which cannot happen when requests run one at a time
        assert false;
      }
      var owner := LookupOwner(code.userId);
      if owner.Err? {
        return Err(owner.error);
      }
      r := Issue(client, owner.value.id, code.scopes, true, code.id, d);
    }

    method UsePassword(client: Client, form: Form, now: Time, d: Draws) returns (r: Result<TokenResponse, ErrorCode>)
      requires Wired() && store.Valid()
      modifies store`users, store`accessTokens, store`refreshTokens
      ensures store.Valid()
      ensures Reply(store.Contents(), r) == PasswordGrant(env, old(store.Contents()), client, form, now, d)
    {
      var username := RequiredParam(form, "username");
      if username.Err? { return Err(username.error); }
      var password := RequiredParam(form, "password");
      if password.Err? { return Err(password.error); }
      var scope := Param(form, "scope");
      if scope.Err? { return Err(scope.error); }
      var scopes := ResolveScopes(client, scope.value);
      if scopes.Err? { return Err(scopes.error); }
      var user := accounts.SignIn(username.value, password.value, now);
      if user.Err? {
        return Err(InvalidGrant);
      }
      r := Issue(client, user.value.id, scopes.value, true, "", d);
    }

    method UseClientCredentials(client: Client, form: Form, d: Draws) returns (r: Result<TokenResponse, ErrorCode>)
      requires store.Valid()
      modifies store`accessTokens, store`refreshTokens
      ensures store.Valid()
      ensures Reply(store.Contents(), r) == ClientCredentialsGrant(old(store.Contents()), client, form, d)
    {
      if client.IsPublic() {
        return Err(UnauthorizedClient);
      }
      var scope := Param(form, "scope");
      if scope.Err? { return Err(scope.error); }
      var scopes := ResolveScopes(client, scope.value);
      if scopes.Err? { return Err(scopes.error); }
      r := Issue(client, "", scopes.value, false, "", d);
    }

    method UseRefresh(client: Client, form: Form, now: Time, d: Draws) returns (r: Result<TokenResponse, ErrorCode>)
      requires store.Valid()
      modifies store`accessTokens, store`refreshTokens
      ensures store.Valid()
      ensures Reply(store.Contents(), r) == RefreshTokenGrant(env, old(store.Contents()), client, form, now, d)
    {
      var value := RequiredParam(form, "refresh_token");
      if value.Err? { return Err(value.error); }
      var scope := Param(form, "scope");
      if scope.Err? { return Err(scope.error); }

      var found := store.GetRefreshTokenByHash(HashToken(value.value));
      if found.Err? {
        return Err(InvalidGrant);
      }
      var rt := found.value;
      if rt.clientId != client.id {
        return Err(InvalidGrant);
      }
      if ExpiredAt(rt.expiresAt, now) {
        return Err(InvalidGrant);
      }
      var scopes := rt.scopes;
      if scope.value != "" {
        scopes := ParseScope(scope.value);
        if !ValidateScopeSyntax(scopes) { return Err(InvalidScope); }
        if !rt.AllowsScopes(scopes) { return Err(InvalidScope); }
      }
      if !client.AllowsScopes(scopes) {
        return Err(InvalidScope);
      }
      if rt.userId != "" {
        var owner := LookupOwner(rt.userId);
        if owner.Err? { return Err(owner.error); }
      }
      r := ReplaceAccessToken(client, rt, scopes, now, d);
    }

    /** What remains after the checks of a refresh: swap the access token, then rotate or touch. */
    method ReplaceAccessToken(client: Client, rt: RefreshToken, scopes: seq<string>, now: Time, d: Draws)
      returns (r: Result<TokenResponse, ErrorCode>)
      requires store.Valid() && rt.id in store.refreshTokens && store.refreshTokens[rt.id] == rt
      modifies store`accessTokens, store`refreshTokens
      ensures store.Valid()
      ensures Reply(store.Contents(), r) == UseRefreshToken(old(store.Contents()), client, rt, scopes, now, d)
    {
      if rt.accessTokenId != "" {
        var ignored := store.DeleteAccessToken(rt.accessTokenId);
      }
      var access, error := CreateAccess(client, rt.userId, scopes, rt.codeId, d.accessId, d.accessValue, d.accessAt);
      if error.Some? {
        return Err(ServerError);
      }
      if rt.usage == OneTime {
        error := store.DeleteRefreshToken(rt.id);
        if error.Some? {
          // Unreachable one at a time: the row was read above and nothing removed it since
          assert false;
        }
        error := store.CreateRefreshToken(Rotated(rt, access.id, d.refreshId, d.refreshValue, now));
        if error.Some? {
          return Err(ServerError);
        }
        return Ok(Response(access, d.accessValue, d.refreshValue));
      } else {
        var used := rt.(accessTokenId := access.id);
        used := used.Touched(now);
        error := store.UpdateRefreshToken(used);
        return Ok(Response(access, d.accessValue, ""));
      }
    }

    /** The whole endpoint: the caller passes the id that the client credentials belong to. */
    method HandleToken(clientKey: string, form: Form, now: Time, d: Draws) returns (r: Result<TokenResponse, ErrorCode>)
      requires Wired() && store.Valid()
      modifies store`users, store`accessTokens, store`refreshTokens, store`codes
      ensures store.Valid()
      ensures Reply(store.Contents(), r) == TokenRequest(env, old(store.Contents()), clientKey, form, now, d)
    {
      var found := store.GetClientById(clientKey);
      if found.Err? || !found.value.enabled {
        return Err(InvalidClient);
      }
      var grantType := RequiredParam(form, "grant_type");
      if grantType.Err? {
        return Err(grantType.error);
      }
      r := Token(clientKey, GrantTypeOf(grantType.value), form, now, d);
    }

    method Token(clientKey: string, grantType: GrantType, form: Form, now: Time,
        d: Draws) returns (r: Result<TokenResponse, ErrorCode>)
      requires Wired() && store.Valid()
      modifies store`users, store`accessTokens, store`refreshTokens, store`codes
      ensures store.Valid()
      ensures Reply(store.Contents(), r) == TokenEndpoint(env, old(store.Contents()), clientKey, grantType, form,
                                                          now, d)
    {
      var found := store.GetClientById(clientKey);
      if found.Err? || !found.value.enabled {
        return Err(InvalidClient);
      }
      var client := found.value;
      if grantType.ImplicitGrantType? || grantType.OtherGrantType? {
        return Err(UnsupportedGrantType);
      }
      if !client.AllowsGrant(grantType) {
        return Err(UnauthorizedClient);
      }
      if grantType == AuthorizationCodeGrantType {
        r := ExchangeAuthorizationCode(client, form, now, d);
      } else if grantType == RefreshTokenGrantType {
        r := UseRefresh(client, form, now, d);
      } else if grantType == PasswordGrantType {
        r := UsePassword(client, form, now, d);
      } else {
        r := UseClientCredentials(client, form, d);
      }
    }

    // ---------- The authorization endpoint ----------

    method ReadClientAndRedirect(form: Form) returns (r: Result<(Client, string, string), ErrorCode>)
      requires store.Valid()
      ensures r == ClientAndRedirect(store.Contents(), form)
    {
      var clientId := RequiredParam(form, "client_id");
      if clientId.Err? { return Err(clientId.error); }
      var found := store.GetClientByClientId(clientId.value);
      if found.Err? || !found.value.enabled {
        return Err(InvalidClient);
      }
      var client := found.value;
      var uri := Param(form, "redirect_uri");
      if uri.Err? { return Err(uri.error); }
      if uri.value == "" {
        if |client.redirectUris| != 1 {
          return Err(InvalidRequest);
        }
        return Ok((client, client.redirectUris[0], ""));
      }
      if client.AllowsRedirect(uri.value) {
        return Ok((client, uri.value, uri.value));
      }
      return Err(InvalidRequest);
    }

    /** UI.CurrentUser: the user of a session whose stamp is still current (pkg/ui/ui.go). */
    method BrowserUser(session: Session, now: Time) returns (r: Option<User>)
      ensures r == CurrentUser(env, store.Contents(), session, now)
    {
      if now / SECOND >= session.expiresAt {
        return None;
      }
      var user := store.GetUserById(session.userId);
      if user.Err? {
        return None;
      }
      if user.value.securityStamp != session.securityStamp || CanSignIn(env, user.value).Some? {
        return None;
      }
      return Some(user.value);
    }

    method HandleAuthorize(form: Form, session: Option<Session>, decision: Decision, now: Time,
        d: Draws) returns (answer: AuthorizeAnswer)
      requires store.Valid()
      modifies store`accessTokens, store`refreshTokens, store`codes
      ensures store.Valid()
      ensures Authorized(store.Contents(), answer)
              == Authorize(env, old(store.Contents()), form, session, decision, now, d)
    {
      hide Indexed, ClientAndRedirect, ReadAuthorizeRequest, CurrentUser, Grant;
      var target := ReadClientAndRedirect(form);
      if target.Err? {
        return PageError(target.error);
      }
      var (client, redirectUri, redirectUriParam) := target.value;
      var req := ReadRequest(client, redirectUri, redirectUriParam, form);
      RequestNamesItsClient(client, redirectUri, redirectUriParam, form);
      if req.Err? {
        return RedirectError(req.error);
      }
      var user := None;
      if session.Some? {
        user := BrowserUser(session.value, now);
      }
      if user.None? {
        return ShowLogin;
      }
      if client.requireConsent {
        if decision == Undecided { return AskConsent; }
        if decision == Unverified { return PageError(InvalidRequest); }
        if decision == Denied { return RedirectError(AccessDenied); }
      }
      answer := IssueToBrowser(req.value, user.value.id, now, d);
    }

    /** The last step of the endpoint, issueCode or issueImplicitToken by response type. */
    method IssueToBrowser(req: AuthorizeRequest, userId: string, now: Time, d: Draws) returns (answer: AuthorizeAnswer)
      requires store.Valid()
      modifies store`accessTokens, store`refreshTokens, store`codes
      ensures store.Valid()
      ensures Authorized(store.Contents(), answer) == Grant(old(store.Contents()), req, userId, now, d)
    {
      if req.responseType.CodeResponse? {
        var error := store.CreateAuthorizationCode(NewCode(req, userId, d.refreshId, d.refreshValue, now));
        return if error.Some? then RedirectError(ServerError) else CodeIssued(d.refreshValue);
      }
      var issued := Issue(req.client, userId, req.scopes, false, "", d);
      return if issued.Err? then RedirectError(issued.error) else TokenIssued(issued.value);
    }

    /** validateAuthorizeRequest: fills in the request field by field. */
    method ReadRequest(client: Client, redirectUri: string, redirectUriParam: string, form: Form)
      returns (r: Result<AuthorizeRequest, ErrorCode>)
      ensures r == ReadAuthorizeRequest(client, redirectUri, redirectUriParam, form)
    {
      var req := AuthorizeRequest(client, redirectUri, redirectUriParam, CodeResponse, [], "", "");
      var state := Param(form, "state");
      if state.Err? { return Err(state.error); }
      var responseType := Param(form, "response_type");
      if responseType.Err? { return Err(responseType.error); }
      if responseType.value == "" {
        return Err(InvalidRequest);
      } else if responseType.value == "code" {
        if !client.AllowsGrant(AuthorizationCodeGrantType) { return Err(UnauthorizedClient); }
      } else if responseType.value == "token" {
        if !client.AllowsGrant(ImplicitGrantType) { return Err(UnauthorizedClient); }
        req := req.(responseType := TokenResponseType);
      } else {
        return Err(UnsupportedResponseType);
      }
      var scope := Param(form, "scope");
      if scope.Err? { return Err(scope.error); }
      var scopes := ResolveScopes(client, scope.value);
      if scopes.Err? { return Err(scopes.error); }
      req := req.(scopes := scopes.value);
      if req.responseType == CodeResponse {
        var challenge := Param(form, "code_challenge");
        if challenge.Err? { return Err(challenge.error); }
        var challengeMethod := Param(form, "code_challenge_method");
        if challengeMethod.Err? { return Err(challengeMethod.error); }
        if challenge.value == "" {
          if client.requirePkce || client.IsPublic() { return Err(InvalidRequest); }
        } else {
          var m := if challengeMethod.value == "" then METHOD_PLAIN else challengeMethod.value;
          if m != METHOD_PLAIN && m != METHOD_S256 { return Err(InvalidRequest); }
          if !IsValidCodeVerifier(challenge.value) { return Err(InvalidRequest); }
          req := req.(codeChallenge := challenge.value, codeChallengeMethod := m);
        }
      }
      return Ok(req);
    }

    // ---------- Revocation and introspection ----------

    method RevokeToken(client: Client, value: string, hint: string)
      requires store.Valid()
      modifies store`accessTokens, store`refreshTokens
      ensures store.Valid() && store.Contents() == Revoke(old(store.Contents()), client, value, hint)
    {
      var h, order := HashToken(value), SearchOrder(hint);
      var i := 0;
      while i < |order|
        invariant 0 <= i <= 2 && store.Valid() && store.Contents() == old(store.Contents())
        invariant i > 0 ==> !Holds(store.Contents(), order[0], h)
        invariant i > 1 ==> !Holds(store.Contents(), order[1], h)
      {
        var found := RevokeFrom(client, order[i], h);
        if found {
          return;
        }
        i := i + 1;
      }
    }

    /** One of the lookups of revoke; tokens of other clients are left alone. */
    method RevokeFrom(client: Client, kind: TokenKind, h: Digest) returns (found: bool)
      requires store.Valid()
      modifies store`accessTokens, store`refreshTokens
      ensures store.Valid() && found == Holds(old(store.Contents()), kind, h)
      ensures store.Contents() ==
              if found then RevokeKind(old(store.Contents()), client, kind, h) else old(store.Contents())
    {
      if kind == AccessKind {
        var access := store.GetAccessTokenByHash(h);
        if access.Err? { return false; }
        if access.value.clientId == client.id {
          var ignored := store.DeleteAccessToken(access.value.id);
        }
      } else {
        var refresh := store.GetRefreshTokenByHash(h);
        if refresh.Err? { return false; }
        if refresh.value.clientId == client.id {
          var ignored := store.DeleteRefreshToken(refresh.value.id);
          if refresh.value.accessTokenId != "" {
            ignored := store.DeleteAccessToken(refresh.value.accessTokenId);
          }
        }
      }
      return true;
    }

    method IntrospectToken(value: string, hint: string, now: Time) returns (r: Introspection)
      requires store.Valid()
      ensures r == Introspect(env, store.Contents(), value, hint, now)
    {
      var h, order := HashToken(value), SearchOrder(hint);
      var f: Option<Found> := None;
      var i := 0;
      while i < |order| && f.None?
        invariant 0 <= i <= 2
        invariant i == 0 ==> f == None
        invariant i == 1 ==> f == FoundKind(store.Contents(), order[0], h)
        invariant i == 2 ==>
                    FoundKind(store.Contents(), order[0], h) == None && f == FoundKind(store.Contents(), order[1], h)
      {
        if order[i] == AccessKind {
          var access := store.GetAccessTokenByHash(h);
          if access.Ok? {
            var t := access.value;
            f := Some(Found(Bearer, t.clientId, t.userId, t.scopes, t.createdAt, t.expiresAt));
          }
        } else {
          var refresh := store.GetRefreshTokenByHash(h);
          if refresh.Ok? {
            var t := refresh.value;
            f := Some(Found(RefreshType, t.clientId, t.userId, t.scopes, t.createdAt, t.expiresAt));
          }
        }
        i := i + 1;
      }
      if f.None? || ExpiredAt(f.value.expiresAt, now) {
        return Inactive;
      }
      var token := f.value;
      var client := store.GetClientById(token.clientId);
      if client.Err? || !client.value.enabled {
        return Inactive;
      }
      r := Active(token.tokenType, FormatScope(token.scopes), client.value.clientId, "", "",
                  token.expiresAt / SECOND, token.createdAt / SECOND);
      if token.userId != "" {
        var user := store.GetUserById(token.userId);
        if user.Err? || CanSignIn(env, user.value).Some? {
          return Inactive;
        }
        r := r.(subject := user.value.id, username := user.value.username);
      }
    }

    method ValidateBearer(value: string, now: Time) returns (r: Result<TokenInfo, ErrorCode>)
      requires store.Valid()
      ensures r == ValidateAccessToken(env, store.Contents(), value, now)
    {
      var found := store.GetAccessTokenByHash(HashToken(value));
      if found.Err? {
        return Err(InvalidToken);
      }
      var token := found.value;
      if ExpiredAt(token.expiresAt, now) {
        return Err(InvalidToken);
      }
      var client := store.GetClientById(token.clientId);
      if client.Err? || !client.value.enabled {
        return Err(InvalidToken);
      }
      var info := TokenInfo(token, client.value, None);
      if token.userId != "" {
        var user := store.GetUserById(token.userId);
        if user.Err? || CanSignIn(env, user.value).Some? {
          return Err(InvalidToken);
        }
        info := info.(user := Some(user.value));
      }
      return Ok(info);
    }
  }
}
