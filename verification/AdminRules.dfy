/** What the management API does to the store (pkg/api), and the rules for client registrations
    (pkg/identity/client.go). */
module AdminRules {
  import opened Identity
  import opened Database
  import opened AccountRules
  import opened Scope

  datatype AdminError = Missing | Conflicting | ValidationFailed | BadRequest

  datatype Answer<+T> = Answer(db: Db, result: Result<T, AdminError>)

  // ---------- Client registrations ----------

  function EnsureDefaults(c: Client): Client {
    c.(kind := if c.kind == OtherType("") then Confidential else c.kind,
       refreshUsage := if c.refreshUsage == OtherUsage("") then ReUse else c.refreshUsage,
       refreshExpiration := if c.refreshExpiration == OtherExpiration("") then Sliding else c.refreshExpiration,
       accessTokenLifetime := OrDefault(c.accessTokenLifetime, DEFAULT_ACCESS_TOKEN_LIFETIME),
       codeLifetime := OrDefault(c.codeLifetime, DEFAULT_AUTHORIZATION_CODE_LIFETIME),
       refreshTokenLifetime := OrDefault(c.refreshTokenLifetime, DEFAULT_REFRESH_TOKEN_LIFETIME))
  }

  predicate ValidClient(env: Env, c: Client) {
    && c.clientId != ""
    && (c.kind == Confidential || c.kind == Public)
    && (forall uri :: uri in c.redirectUris ==> env.absoluteUri(uri))
    && (forall s :: s in c.allowedScopes + c.defaultScopes ==> IsValidScopeToken(s))
    && (forall s :: s in c.defaultScopes ==> s in c.allowedScopes)
    && (forall g :: g in c.grantTypes ==>
          g != OtherGrantType("") && !(g == ClientCredentialsGrantType && c.kind == Public))
    && (c.refreshUsage == ReUse || c.refreshUsage == OneTime)
    && (c.refreshExpiration == Sliding || c.refreshExpiration == Absolute)
  }

  datatype ClientRequest = ClientRequest(
    clientId: string, kind: ClientType, redirectUris: seq<string>,
    allowedScopes: seq<string>, defaultScopes: seq<string>, grantTypes: seq<GrantType>,
    requireConsent: bool, requirePkce: bool, enabled: Option<bool>,
    accessTokenLifetime: Duration, codeLifetime: Duration, refreshTokenLifetime: Duration,
    refreshUsage: RefreshUsage, refreshExpiration: RefreshExpiration)

  function Requested(req: ClientRequest, c: Client): Client {
    EnsureDefaults(c.(
      clientId := req.clientId, kind := req.kind, redirectUris := req.redirectUris,
      allowedScopes := req.allowedScopes, defaultScopes := req.defaultScopes, grantTypes := req.grantTypes,
      requireConsent := req.requireConsent, requirePkce := req.requirePkce,
      enabled := if req.enabled.Some? then req.enabled.value else c.enabled,
      accessTokenLifetime := req.accessTokenLifetime, codeLifetime := req.codeLifetime,
      refreshTokenLifetime := req.refreshTokenLifetime,
      refreshUsage := req.refreshUsage, refreshExpiration := req.refreshExpiration))
  }

  predicate Acceptable(env: Env, c: Client) {
    c.codeLifetime <= 10 * MINUTE && ValidClient(env, c)
  }

  function BlankClient(id: string, now: Time): Client {
    Client(id, "", OtherType(""), "", [], [], [], [], false, false, true, 0, 0, OtherUsage(""), OtherExpiration(""),
           0, now, now)
  }

  ghost function AddClient(env: Env, db: Db, req: ClientRequest, id: string, secretHash: string,
      now: Time): Answer<Client> {
    var c := Requested(req, BlankClient(id, now));
    if !Acceptable(env, c) then Answer(db, Err(ValidationFailed))
    else
      var saved := if c.IsPublic() then c else c.(secretHash := secretHash);
      var w := CreateClient(db, saved);
      Answer(w.db, if w.error.Some? then Err(Conflicting) else Ok(saved))
  }

  ghost function ChangeClient(env: Env, db: Db, id: string, req: ClientRequest, now: Time): Answer<Client> {
    if id !in db.clients then Answer(db, Err(Missing))
    else
      var c := Requested(req, db.clients[id]);
      if !Acceptable(env, c) then Answer(db, Err(ValidationFailed))
      else
        var saved := c.(updatedAt := now, secretHash := if c.IsPublic() then "" else c.secretHash);
        var w := UpdateClient(db, saved);
        if w.error.Some? then Answer(db, Err(Conflicting))
        else if db.clients[id].enabled && !saved.enabled then Answer(RevokeTokens(w.db, ClientFilter(id)), Ok(saved))
        else Answer(w.db, Ok(saved))
  }

  function RemoveClient(db: Db, id: string): Answer<()> {
    var w := DeleteClient(db, id);
    if w.error.Some? then Answer(db, Err(Missing)) else Answer(RevokeTokens(w.db, ClientFilter(id)), Ok(()))
  }

  function RenewSecret(db: Db, id: string, secretHash: string, now: Time): Answer<()> {
    if id !in db.clients then Answer(db, Err(Missing))
    else if db.clients[id].IsPublic() then Answer(db, Err(BadRequest))
    else Answer(db.(clients := db.clients[id := db.clients[id].(secretHash := secretHash, updatedAt := now)]), Ok(()))
  }

  // ---------- Users ----------

  datatype UserRequest = UserRequest(username: string, email: string, emailVerified: bool, enabled: bool)

  function AdminErrorOf(e: AccountError): AdminError {
    match e
    case UserNotFound => Missing
    case UserExists => Conflicting
    case _ => ValidationFailed
  }

  ghost function Save(env: Env, db: Db, changed: User, stamp: string, now: Time): Answer<User> {
    var saved := SaveUser(env, db, changed, stamp, now);
    Answer(saved.db, if saved.result.Err? then Err(AdminErrorOf(saved.result.error)) else Ok(saved.result.value))
  }

  ghost function ChangeUser(env: Env, db: Db, id: string, req: UserRequest, stamp: string, now: Time): Answer<User> {
    if id !in db.users then Answer(db, Err(Missing))
    else Save(env, db, db.users[id].(username := req.username, email := req.email,
                                     emailVerified := req.emailVerified, enabled := req.enabled), stamp, now)
  }

  ghost function UnlockUser(env: Env, db: Db, id: string, stamp: string, now: Time): Answer<User> {
    if id !in db.users then Answer(db, Err(Missing))
    else Save(env, db, db.users[id].(lockoutEnd := None, failedLoginCount := 0), stamp, now)
  }

  function RevokeAllOfUser(db: Db, id: string): Answer<()> {
    if id !in db.users then Answer(db, Err(Missing)) else Answer(RevokeTokens(db, UserFilter(id)), Ok(()))
  }

  // ---------- Tokens ----------

  /** Revokes the refresh token together with its current access token. */
  function RemoveRefreshToken(db: Db, id: string): Answer<()> {
    if id !in db.refreshTokens then Answer(db, Err(Missing))
    else
      var linked := db.refreshTokens[id].accessTokenId;
      var gone := DeleteRefreshToken(db, id).db;
      Answer(if linked == "" then gone else DeleteAccessToken(gone, linked).db, Ok(()))
  }

  function RemoveAccessTokens(db: Db, f: TokenFilter): Answer<()> {
    if f.IsEmpty() then Answer(db, Err(BadRequest)) else Answer(DeleteAccessTokens(db, f), Ok(()))
  }

  function RemoveRefreshTokens(db: Db, f: TokenFilter): Answer<()> {
    if f.IsEmpty() then Answer(db, Err(BadRequest)) else Answer(DeleteRefreshTokens(db, f), Ok(()))
  }
}
