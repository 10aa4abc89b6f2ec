/** What requests have to bring, and what rows carry, in plain terms: field by field, without any of
    the rules that decide requests. The answers of the requests are proved to meet these conditions. */
module Conditions {
  import opened Identity
  import opened AccountRules
  import opened OAuthRules
  import opened Scope

  // ---------- Parameters ----------

  /** The form carries the parameter at most once; a missing parameter reads as the empty string. */
  predicate Sent(form: Form, name: string, value: string) {
    (name in form && form[name] == [value]) || (value == "" && (name !in form || form[name] == []))
  }

  predicate Repeated(form: Form, name: string) {
    name in form && |form[name]| > 1
  }

  /** The value of a parameter that is not repeated. */
  function Value(form: Form, name: string): string {
    if name in form && |form[name]| == 1 then form[name][0] else ""
  }

  // ---------- People and clients ----------

  /** The user may sign in and get tokens. */
  predicate MayAct(env: Env, u: User) {
    u.enabled && (env.requireActivation ==> u.emailVerified)
  }

  /** The user that a token or code belongs to may still act; no user at all is fine for tokens. */
  predicate OwnerMayAct(env: Env, users: map<string, User>, id: string) {
    id in users && MayAct(env, users[id])
  }

  /** A session that is not over, of a user who may act and whose stamp it carries. */
  predicate CurrentSession(env: Env, users: map<string, User>, s: Session, now: Time) {
    && now / SECOND < s.expiresAt && s.userId in users && users[s.userId].securityStamp == s.securityStamp
    && MayAct(env, users[s.userId])
  }

  predicate EnabledClient(clients: map<string, Client>, id: string) {
    id in clients && clients[id].enabled
  }

  // ---------- Scopes and proof keys ----------

  /** The characters of a scope token, section 3.3 of RFC 6749. */
  predicate ScopeToken(s: string) {
    s != "" && forall c :: c in s ==> c == '!' || '#' <= c <= '[' || ']' <= c <= '~'
  }

  predicate ScopeTokens(scopes: seq<string>) { forall s :: s in scopes ==> ScopeToken(s) }

  predicate Includes(outer: seq<string>, inner: seq<string>) { forall s :: s in inner ==> s in outer }

  /** The scopes of a request that names a scope or none: it has to be allowed to the client. */
  predicate ScopeAllowed(client: Client, scope: string) {
    scope != "" ==> ScopeTokens(ParsedScopes(scope)) && Includes(client.allowedScopes, ParsedScopes(scope))
  }

  function ScopesOf(client: Client, scope: string): seq<string> {
    if scope == "" then client.defaultScopes else ParsedScopes(scope)
  }

  /** The alphabet and length of a code verifier, section 4.1 of RFC 7636. */
  predicate Verifier(v: string) {
    && 43 <= |v| <= 128
    && forall c :: c in v ==> '0' <= c <= '9' || 'A' <= c <= 'Z' || 'a' <= c <= 'z' || c in "-._~"
  }

  /** The verifier is the one that the challenge was made of. */
  predicate ProofKeyFits(env: Env, code: AuthorizationCode, verifier: string) {
    if code.codeChallenge == "" then verifier == ""
    else
      && Verifier(verifier)
      && (code.codeChallengeMethod == "S256" ==> env.s256(verifier) == code.codeChallenge)
      && (code.codeChallengeMethod != "S256" ==>
            (code.codeChallengeMethod == "plain" || code.codeChallengeMethod == "") && verifier == code.codeChallenge)
  }

  /** What has to be presented for a code: its client, its redirection URI and its proof key, in time. */
  predicate Entitled(env: Env, code: AuthorizationCode, client: Client, redirectUri: string, verifier: string,
        now: Time) {
    && client.id == code.clientId && now < code.expiresAt
    && (code.redirectUri != "" ==> redirectUri == code.redirectUri)
    && (code.redirectUri == "" && redirectUri != "" ==> redirectUri in client.redirectUris)
    && ProofKeyFits(env, code, verifier)
  }

  // ---------- Refreshes ----------

  /** The scopes that a refresh asks for: those of the token unless it names some. */
  function Wanted(rt: RefreshToken, scope: string): seq<string> {
    if scope == "" then rt.scopes else ParsedScopes(scope)
  }

  /** The token is of this client and has not expired. */
  predicate Usable(client: Client, rt: RefreshToken, now: Time) {
    rt.clientId == client.id && now < rt.expiresAt
  }

  /** A named scope must be well-formed and part of the grant, and the client must still be allowed all. */
  predicate WithinGrant(client: Client, rt: RefreshToken, scope: string) {
    && (scope != "" ==> ScopeTokens(ParsedScopes(scope)) && Includes(rt.scopes, ParsedScopes(scope)))
    && Includes(client.allowedScopes, Wanted(rt, scope))
  }

  // ---------- Rows ----------

  function Lifetime(chosen: Duration, otherwise: Duration): Duration {
    if chosen > 0 then chosen else otherwise
  }

  const ONE_HOUR: Duration := 3_600 * SECOND
  const FIVE_MINUTES: Duration := 300 * SECOND
  const THIRTY_DAYS: Duration := 2_592_000 * SECOND

  /** A new access token of the draws. */
  predicate AccessRow(t: AccessToken, d: Draws, client: Client, userId: string, scopes: seq<string>, codeId: string) {
    && t.id == d.accessId && t.tokenHash == HashToken(d.accessValue) && t.clientId == client.id && t.userId == userId
    && t.scopes == scopes && t.codeId == codeId && t.createdAt == d.accessAt
    && t.expiresAt == d.accessAt + Lifetime(client.accessTokenLifetime, ONE_HOUR)
  }

  /** The first refresh token of a family, linked to the access token of the draws. */
  predicate RefreshRow(t: RefreshToken, d: Draws, client: Client, userId: string, scopes: seq<string>, codeId: string) {
    && t.id == d.refreshId && t.tokenHash == HashToken(d.refreshValue) && t.clientId == client.id && t.userId == userId
    && t.accessTokenId == d.accessId && t.codeId == codeId && t.scopes == scopes
    && t.expiration == client.refreshExpiration && t.usage == client.refreshUsage
    && t.lifetime == Lifetime(client.refreshTokenLifetime, THIRTY_DAYS)
    && t.createdAt == t.updatedAt == d.refreshAt && t.expiresAt == d.refreshAt + t.lifetime
  }

  /** What a use of a refresh token leaves: the same grant, linked to the new access token. Only a
      sliding expiration starts again; a one-time token gets a new id, value and time of creation. */
  predicate SuccessorRow(t: RefreshToken, d: Draws, rt: RefreshToken, now: Time) {
    && t.clientId == rt.clientId && t.userId == rt.userId && t.codeId == rt.codeId && t.scopes == rt.scopes
    && t.expiration == rt.expiration && t.usage == rt.usage && t.lifetime == rt.lifetime
    && t.accessTokenId == d.accessId && t.updatedAt == now
    && (rt.usage == OneTime ==> t.id == d.refreshId && t.tokenHash == HashToken(d.refreshValue) && t.createdAt == now)
    && (rt.usage != OneTime ==> t.id == rt.id && t.tokenHash == rt.tokenHash && t.createdAt == rt.createdAt)
    && (rt.usage == OneTime ==>
          t.expiresAt == if rt.expiration == Absolute then rt.expiresAt else now + rt.lifetime)
    && (rt.usage != OneTime ==>
          t.expiresAt == if rt.expiration == Sliding then now + rt.lifetime else rt.expiresAt)
  }

  /** The response of the token endpoint. */
  predicate Tells(r: TokenResponse, value: string, refreshValue: string, scope: string, client: Client) {
    && r.accessToken == value && r.refreshToken == refreshValue && r.scope == scope
    && r.expiresIn == Lifetime(client.accessTokenLifetime, ONE_HOUR)
  }
}
