/** Requests read the clock to the millisecond, the cleanup reads it to the nanosecond
    (pkg/server/server.go). When all lifetimes are whole milliseconds, every row of every run expires
    at a whole millisecond, and the difference between the two clocks is never noticed. */
module WholeTimes {
  import opened Identity
  import opened Database
  import opened AccountRules
  import opened OAuthRules
  import opened AdminRules
  import opened Invariants
  import opened Minting
  import opened Evolution
  import opened Requests
  import opened Management
  import opened Introspection
  import opened Runs
  import opened Cleanup

  predicate Whole(t: Time) { t % MILLISECOND == 0 }

  lemma WholeSum(a: Time, b: Duration)
    requires Whole(a) && Whole(b)
    ensures Whole(a + b)
  {
  }

  lemma WholeOrDefault(lifetime: Duration)
    requires Whole(lifetime)
    ensures Whole(OrDefault(lifetime, DEFAULT_ACCESS_TOKEN_LIFETIME))
    ensures Whole(OrDefault(lifetime, DEFAULT_AUTHORIZATION_CODE_LIFETIME))
    ensures Whole(OrDefault(lifetime, DEFAULT_REFRESH_TOKEN_LIFETIME))
  {
  }

  // ---------- The invariant ----------

  predicate WholeClient(c: Client) {
    Whole(c.accessTokenLifetime) && Whole(c.codeLifetime) && Whole(c.refreshTokenLifetime)
  }

  /** A sliding refresh token is going to expire a lifetime after its next use. */
  predicate WholeRefresh(t: RefreshToken) { Whole(t.expiresAt) && Whole(t.lifetime) }

  ghost predicate WholeClients(m: map<string, Client>) { forall k :: k in m ==> WholeClient(m[k]) }

  ghost predicate WholeAccessTokens(m: map<string, AccessToken>) { forall k :: k in m ==> Whole(m[k].expiresAt) }

  ghost predicate WholeRefreshTokens(m: map<string, RefreshToken>) { forall k :: k in m ==> WholeRefresh(m[k]) }

  ghost predicate WholeCodes(m: map<string, AuthorizationCode>) { forall k :: k in m ==> Whole(m[k].expiresAt) }

  ghost predicate WholeUserTokens(m: map<string, UserToken>) { forall k :: k in m ==> Whole(m[k].expiresAt) }

  /** Every row expires at a whole millisecond. */
  ghost predicate WholeRows(db: Db) {
    && WholeAccessTokens(db.accessTokens) && WholeRefreshTokens(db.refreshTokens)
    && WholeCodes(db.codes) && WholeUserTokens(db.userTokens)
  }

  ghost predicate WholeDb(db: Db) { WholeClients(db.clients) && WholeRows(db) }

  /** The lifetimes of the account service. */
  predicate WholeEnv(env: Env) { Whole(env.activationLifetime) && Whole(env.resetLifetime) }

  predicate WholeDraws(d: Draws) { Whole(d.accessAt) && Whole(d.refreshAt) }

  predicate WholeRequest(req: ClientRequest) {
    Whole(req.accessTokenLifetime) && Whole(req.codeLifetime) && Whole(req.refreshTokenLifetime)
  }

  /** Requests read a truncated clock, and the API takes lifetimes in seconds; the cleanup reads any time. */
  predicate WholeStep(s: Step) {
    && (s.op.CleanupOp? || (Whole(s.now) && WholeDraws(s.d)))
    && (s.op.AddClientOp? || s.op.ChangeClientOp? ==> WholeRequest(s.op.clientRequest))
  }

  // ---------- Store calls ----------

  lemma FewerRows(a: Db, b: Db)
    requires WholeDb(a) && TokensShrink(a, b) && b.clients == a.clients
    ensures WholeDb(b)
  {
  }

  lemma FewerClientsToo(a: Db, b: Db)
    requires WholeDb(a) && TokensShrink(a, b) && Within(b.clients, a.clients)
    ensures WholeDb(b)
  {
  }

  /** The users do not matter. */
  lemma OtherUsers(a: Db, b: Db)
    requires WholeDb(a) && b == a.(users := b.users)
    ensures WholeDb(b)
  {
  }

  lemma WithClient(db: Db, c: Client)
    requires WholeDb(db) && WholeClient(c)
    ensures WholeDb(db.(clients := db.clients[c.id := c]))
  {
  }

  lemma WithAccess(db: Db, t: AccessToken)
    requires WholeDb(db) && Whole(t.expiresAt)
    ensures WholeDb(CreateAccessToken(db, t).db) && CreateAccessToken(db, t).db.clients == db.clients
  {
    hide AccessHashTaken;
  }

  lemma WithRefresh(db: Db, t: RefreshToken)
    requires WholeDb(db) && WholeRefresh(t)
    ensures WholeDb(CreateRefreshToken(db, t).db) && WholeDb(UpdateRefreshToken(db, t).db)
  {
    hide RefreshHashTaken;
  }

  lemma WithCode(db: Db, c: AuthorizationCode)
    requires WholeDb(db) && Whole(c.expiresAt)
    ensures WholeDb(CreateCode(db, c).db)
  {
    hide CodeHashTaken;
  }

  lemma WithUserToken(db: Db, t: UserToken)
    requires WholeDb(db) && Whole(t.expiresAt)
    ensures WholeDb(CreateUserToken(db, t).db)
  {
    hide UserTokenHashTaken;
  }

  lemma ConsumedCode(db: Db, id: string, at: Time)
    requires WholeDb(db)
    ensures WholeDb(ConsumeCode(db, id, at).db)
  {
  }

  // ---------- Tokens ----------

  lemma NewTokens(client: Client, userId: string, scopes: seq<string>, codeId: string, id: string, value: string,
      at: Time, refreshId: string, refreshValue: string, refreshAt: Time)
    requires WholeClient(client) && Whole(at) && Whole(refreshAt)
    ensures var access := NewAccess(client, userId, scopes, codeId, id, value, at);
            Whole(access.expiresAt) && WholeRefresh(NewRefresh(client, access, refreshId, refreshValue, refreshAt))
  {
    hide Whole, OrDefault;
    WholeOrDefault(client.accessTokenLifetime);
    WholeOrDefault(client.refreshTokenLifetime);
    WholeSum(at, OrDefault(client.accessTokenLifetime, DEFAULT_ACCESS_TOKEN_LIFETIME));
    WholeSum(refreshAt, OrDefault(client.refreshTokenLifetime, DEFAULT_REFRESH_TOKEN_LIFETIME));
  }

  lemma Successors(rt: RefreshToken, accessId: string, id: string, value: string, now: Time)
    requires WholeRefresh(rt) && Whole(now)
    ensures WholeRefresh(Rotated(rt, accessId, id, value, now)) && WholeRefresh(Reused(rt, accessId, now))
  {
    hide Whole;
    WholeSum(now, rt.lifetime);
  }

  lemma IssueIsWhole(db: Db, client: Client, userId: string, scopes: seq<string>, withRefresh: bool, codeId: string,
        d: Draws)
    requires WholeDb(db) && WholeClient(client) && WholeDraws(d)
    ensures WholeDb(IssueTokens(db, client, userId, scopes, withRefresh, codeId, d).db)
  {
    hide WholeDb, WholeClient, Whole, WholeRefresh, NewAccess, NewRefresh, CreateAccessToken, CreateRefreshToken,
      Response;
    var access := NewAccess(client, userId, scopes, codeId, d.accessId, d.accessValue, d.accessAt);
    var refresh := NewRefresh(client, access, d.refreshId, d.refreshValue, d.refreshAt);
    NewTokens(client, userId, scopes, codeId, d.accessId, d.accessValue, d.accessAt, d.refreshId, d.refreshValue,
              d.refreshAt);
    WithAccess(db, access);
    WithRefresh(CreateAccessToken(db, access).db, refresh);
  }

  lemma UseIsWhole(db: Db, client: Client, rt: RefreshToken, scopes: seq<string>, now: Time, d: Draws)
    requires WholeDb(db) && WholeClient(client) && WholeRefresh(rt) && Whole(now) && WholeDraws(d)
    ensures WholeDb(UseRefreshToken(db, client, rt, scopes, now, d).db)
  {
    hide WholeDb, WholeClient, Whole, WholeRefresh, NewAccess, CreateAccessToken, CreateRefreshToken,
      UpdateRefreshToken, DeleteRefreshToken, WithoutAccess, Rotated, Reused, Response, OnlyDeleted;
    var access := NewAccess(client, rt.userId, scopes, rt.codeId, d.accessId, d.accessValue, d.accessAt);
    var dropped := WithoutAccess(db, rt.accessTokenId);
    var minted := CreateAccessToken(dropped, access).db;
    DroppedIsWhole(db, rt.accessTokenId);
    NewTokens(client, rt.userId, scopes, rt.codeId, d.accessId, d.accessValue, d.accessAt, d.refreshId,
              d.refreshValue, d.refreshAt);
    WithAccess(dropped, access);
    Successors(rt, access.id, d.refreshId, d.refreshValue, now);
    WithRefresh(minted, Reused(rt, access.id, now));
    WithoutRefreshIsWhole(minted, rt.id);
    WithRefresh(DeleteRefreshToken(minted, rt.id).db, Rotated(rt, access.id, d.refreshId, d.refreshValue, now));
  }

  lemma DroppedIsWhole(db: Db, id: string)
    requires WholeDb(db)
    ensures WholeDb(WithoutAccess(db, id))
  {
    hide WholeDb;
    NothingDeleted(db);
    AccessDeletion(db, db, id);
    FewerRows(db, DeleteAccessToken(db, id).db);
  }

  lemma WithoutRefreshIsWhole(db: Db, id: string)
    requires WholeDb(db)
    ensures WholeDb(DeleteRefreshToken(db, id).db)
  {
    hide WholeDb;
    NothingDeleted(db);
    RefreshDeletion(db, db, id);
    FewerRows(db, DeleteRefreshToken(db, id).db);
  }

  // ---------- The endpoints ----------

  lemma ExchangeIsWhole(env: Env, db: Db, client: Client, value: string, redirectUri: string, verifier: string,
      now: Time, d: Draws)
    requires WholeDb(db) && WholeClient(client) && WholeDraws(d)
    ensures WholeDb(ExchangeCode(env, db, client, value, redirectUri, verifier, now, d).db)
  {
    hide WholeDb, WholeClient, WholeDraws, JudgeCode, ConsumeCode, OwnerActive, IssueTokens, RevokeTokens, TokensShrink;
    match CodeByHash(db, HashToken(value)) {
      case None =>
      case Some(code) =>
        var consumed := ConsumeCode(db, code.id, now).db;
        RevocationShrinks(db, CodeFilter(code.id));
        FewerRows(db, RevokeTokens(db, CodeFilter(code.id)));
        ConsumedCode(db, code.id, now);
        IssueIsWhole(consumed, client, code.userId, code.scopes, true, code.id, d);
    }
  }

  lemma RefreshIsWhole(env: Env, db: Db, client: Client, value: string, scope: string, now: Time, d: Draws)
    requires WholeDb(db) && WholeClient(client) && Whole(now) && WholeDraws(d)
    ensures WholeDb(Refresh(env, db, client, value, scope, now, d).db)
  {
    hide WholeClient, Whole, WholeDraws, JudgeRefresh, OwnerActive, UseRefreshToken, WholeRefresh;
    match RefreshByHash(db, HashToken(value)) {
      case None =>
      case Some(rt) =>
        assert WholeRefresh(rt);
        if JudgeRefresh(client, rt, scope, now).Ok? {
          UseIsWhole(db, client, rt, JudgeRefresh(client, rt, scope, now).value, now, d);
        }
    }
  }

  lemma LoginChangesUsers(env: Env, db: Db, login: string, password: string, now: Time)
    ensures var b := Authenticate(env, db, login, password, now).db; b == db.(users := b.users)
  {
    hide FindUser, PasswordMatches, CanSignIn, AfterFailure, AfterLogin;
    match FindUser(env, db, login) {
      case None =>
      case Some(u) => PutUserChangesUsers(db, u.id, AfterFailure(env, u, now), AfterLogin(u, now));
    }
  }

  lemma PutUserChangesUsers(db: Db, id: string, u: User, v: User)
    ensures var b := db.(users := db.users[id := u]); b == db.(users := b.users)
    ensures var b := db.(users := db.users[id := v]); b == db.(users := b.users)
  {
  }

  lemma PasswordIsWhole(env: Env, db: Db, client: Client, form: Form, now: Time, d: Draws)
    requires WholeDb(db) && WholeClient(client) && WholeDraws(d)
    ensures WholeDb(PasswordGrant(env, db, client, form, now, d).db)
  {
    hide WholeDb, WholeClient, WholeDraws, RequiredParam, Param, ResolveScopes, Authenticate, IssueTokens;
    var username, password, scope := RequiredParam(form, "username"), RequiredParam(form, "password"),
      Param(form, "scope");
    if username.Ok? && password.Ok? && scope.Ok? && ResolveScopes(client, scope.value).Ok? {
      var out := Authenticate(env, db, username.value, password.value, now);
      LoginChangesUsers(env, db, username.value, password.value, now);
      OtherUsers(db, out.db);
      if out.result.Ok? {
        IssueIsWhole(out.db, client, out.result.value.id, ResolveScopes(client, scope.value).value, true, "", d);
      }
    }
  }

  lemma CredentialsAreWhole(db: Db, client: Client, form: Form, d: Draws)
    requires WholeDb(db) && WholeClient(client) && WholeDraws(d)
    ensures WholeDb(ClientCredentialsGrant(db, client, form, d).db)
  {
    hide WholeDb, WholeClient, WholeDraws, Param, ResolveScopes, IssueTokens;
    var scope := Param(form, "scope");
    if scope.Ok? && ResolveScopes(client, scope.value).Ok? {
      IssueIsWhole(db, client, "", ResolveScopes(client, scope.value).value, false, "", d);
    }
  }

  lemma TokenEndpointIsWhole(env: Env, db: Db, clientKey: string, grantType: GrantType, form: Form, now: Time, d: Draws)
    requires WholeDb(db) && Whole(now) && WholeDraws(d)
    ensures WholeDb(TokenEndpoint(env, db, clientKey, grantType, form, now, d).db)
  {
    hide WholeRows, WholeClient, Whole, WholeDraws, ExchangeCode, Refresh, PasswordGrant, ClientCredentialsGrant, Param,
      RequiredParam;
    if clientKey in db.clients {
      var client := db.clients[clientKey];
      assert WholeClient(client);
      var value, redirectUri, verifier := RequiredParam(form, "code"), Param(form, "redirect_uri"),
        Param(form, "code_verifier");
      if value.Ok? && redirectUri.Ok? && verifier.Ok? {
        ExchangeIsWhole(env, db, client, value.value, redirectUri.value, verifier.value, now, d);
      }
      var refreshValue, scope := RequiredParam(form, "refresh_token"), Param(form, "scope");
      if refreshValue.Ok? && scope.Ok? {
        RefreshIsWhole(env, db, client, refreshValue.value, scope.value, now, d);
      }
      PasswordIsWhole(env, db, client, form, now, d);
      CredentialsAreWhole(db, client, form, d);
    }
  }

  lemma GrantIsWhole(db: Db, req: AuthorizeRequest, userId: string, now: Time, d: Draws)
    requires WholeDb(db) && WholeClient(req.client) && Whole(now) && WholeDraws(d)
    ensures WholeDb(Grant(db, req, userId, now, d).db)
  {
    var code := NewCode(req, userId, d.refreshId, d.refreshValue, now);
    assert Whole(code.expiresAt) by {
      WholeOrDefault(req.client.codeLifetime);
      WholeSum(now, OrDefault(req.client.codeLifetime, DEFAULT_AUTHORIZATION_CODE_LIFETIME));
    }
    hide WholeDb, WholeClient, WholeDraws, Whole, NewCode, CreateCode, IssueTokens;
    WithCode(db, code);
    IssueIsWhole(db, req.client, userId, req.scopes, false, "", d);
  }

  lemma AuthorizeIsWhole(env: Env, db: Db, form: Form, session: Option<Session>, decision: Decision, now: Time,
        d: Draws)
    requires WholeDb(db) && Whole(now) && WholeDraws(d)
    ensures WholeDb(Authorize(env, db, form, session, decision, now, d).db)
  {
    hide WholeRows, WholeClient, Whole, WholeDraws, ReadAuthorizeRequest, CurrentUser, Grant, Param, RequiredParam;
    var target := ClientAndRedirect(db, form);
    if target.Ok? {
      var (client, redirectUri, redirectUriParam) := target.value;
      assert WholeClient(client);
      RequestNamesItsClient(client, redirectUri, redirectUriParam, form);
      var req := ReadAuthorizeRequest(client, redirectUri, redirectUriParam, form);
      var user := if session.None? then None else CurrentUser(env, db, session.value, now);
      if req.Ok? && user.Some? {
        GrantIsWhole(db, req.value, user.value.id, now, d);
      }
    }
  }

  lemma OAuthStepIsWhole(env: Env, db: Db, op: Op, now: Time, d: Draws)
    requires WholeDb(db) && Whole(now) && WholeDraws(d) && IsOAuth(op)
    ensures WholeDb(AfterOAuth(env, db, op, now, d))
  {
    hide WholeDb, Whole, WholeDraws, Authorize, TokenEndpoint, Revoke, Authenticate, TokensShrink;
    match op {
      case AuthorizeOp(form, session, decision) => AuthorizeIsWhole(env, db, form, session, decision, now, d);
      case TokenOp(clientKey, grantType, form) => TokenEndpointIsWhole(env, db, clientKey, grantType, form, now, d);
      case RevokeOp(clientKey, value, hint) =>
        if ClientActive(db, clientKey) {
          RevokeShrinks(db, db.clients[clientKey], value, hint);
          FewerRows(db, Revoke(db, db.clients[clientKey], value, hint));
        }
      case LoginOp(login, password) =>
        LoginChangesUsers(env, db, login, password, now);
        OtherUsers(db, Authenticate(env, db, login, password, now).db);
    }
  }

  // ---------- Accounts ----------

  lemma UserTokenIsWhole(db: Db, userId: string, purpose: Purpose, lifetime: Duration, id: string, value: string,
        now: Time)
    requires WholeDb(db) && Whole(lifetime) && Whole(now)
    ensures WholeDb(IssueUserToken(db, userId, purpose, lifetime, id, value, now).db)
  {
    WholeSum(now, lifetime);
    hide WholeDb, Whole, CreateUserToken, DeleteUserTokens, TokensShrink;
    UserTokenDeletionShrinks(db, userId, purpose);
    FewerRows(db, DeleteUserTokens(db, userId, purpose));
    WithUserToken(DeleteUserTokens(db, userId, purpose),
                  UserToken(id, userId, purpose, HashToken(value), now, now + lifetime));
  }

  lemma CreateAccountIsWhole(env: Env, db: Db, input: NewUser, d: UserDraws, now: Time)
    requires WholeDb(db) && WholeEnv(env) && Whole(now)
    ensures WholeDb(CreateAccount(env, db, input, d, now).db)
  {
    hide WholeDb, Whole, NormalizedUser, UserTaken, IssueUserToken;
    var u := NormalizedUser(env, User(d.userId, input.username, "", input.email, "",
                                      if input.password != "" then d.hash else "",
                                      input.emailVerified, input.enabled, d.stamp, 0, None, None, now, now));
    var created := CreateUser(db, u).db;
    OtherUsers(db, created);
    UserTokenIsWhole(created, u.id, Activation, env.activationLifetime, d.tokenId, d.tokenValue, now);
  }

  /** The operations that do not issue anything: users change, and tokens are deleted. */
  ghost predicate NothingIssued(a: Db, b: Db) { TokensShrink(a, b) && b.clients == a.clients }

  lemma UsersThenDeletions(a: Db, m: Db, b: Db)
    requires m == a.(users := m.users) && TokensShrink(m, b) && b.clients == m.clients
    ensures NothingIssued(a, b)
  {
  }

  lemma SavingIssuesNothing(env: Env, db: Db, changed: User, stamp: string, now: Time)
    ensures NothingIssued(db, SaveUser(env, db, changed, stamp, now).db)
  {
    hide UpdatedRecord, UserTaken, RevokeTokens, TokensShrink, NothingIssued;
    NothingDeleted(db);
    UsersThenDeletions(db, db, db);
    if changed.id in db.users {
      var u := UpdatedRecord(env, db.users[changed.id], changed, stamp, now);
      var saved := db.(users := db.users[u.id := u]);
      NothingDeleted(saved);
      RevocationShrinks(saved, UserFilter(u.id));
      UsersThenDeletions(db, saved, saved);
      UsersThenDeletions(db, saved, RevokeTokens(saved, UserFilter(u.id)));
    }
  }

  lemma ChangeIssuesNothing(env: Env, db: Db, id: string, req: UserRequest, stamp: string, now: Time)
    ensures NothingIssued(db, ChangeUser(env, db, id, req, stamp, now).db)
    ensures NothingIssued(db, UnlockUser(env, db, id, stamp, now).db)
  {
    hide SaveUser, TokensShrink, NothingIssued;
    NothingDeleted(db);
    UsersThenDeletions(db, db, db);
    if id in db.users {
      SavingIssuesNothing(env, db, db.users[id].(username := req.username, email := req.email,
                                                 emailVerified := req.emailVerified, enabled := req.enabled),
                          stamp, now);
      SavingIssuesNothing(env, db, db.users[id].(lockoutEnd := None, failedLoginCount := 0), stamp, now);
    }
  }

  lemma RemovalIssuesNothing(db: Db, id: string)
    ensures NothingIssued(db, RemoveUser(db, id).db)
  {
    hide RevokeTokens, DeleteUserTokens, TokensShrink, NothingIssued;
    NothingDeleted(db);
    UsersThenDeletions(db, db, db);
    if id in db.users {
      var gone := db.(users := db.users - {id});
      var revoked := RevokeTokens(gone, UserFilter(id));
      var one := DeleteUserTokens(revoked, id, Activation);
      RevocationShrinks(gone, UserFilter(id));
      UserTokenDeletionShrinks(revoked, id, Activation);
      UserTokenDeletionShrinks(one, id, PasswordReset);
      ShrinksThrice(gone, revoked, one, DeleteUserTokens(one, id, PasswordReset));
      UsersThenDeletions(db, gone, DeleteUserTokens(one, id, PasswordReset));
    }
  }

  lemma PasswordIssuesNothing(env: Env, db: Db, u: User, password: string, d: UserDraws, now: Time)
    ensures var b := SavePassword(env, db, u, password, d, now).db;
            NothingIssued(db, b) && NothingIssued(db, DeleteUserTokens(b, u.id, PasswordReset))
  {
    hide RevokeTokens, DeleteUserTokens, WithPassword, TokensShrink, NothingIssued;
    NothingDeleted(db);
    UsersThenDeletions(db, db, db);
    UserTokenDeletionShrinks(db, u.id, PasswordReset);
    UsersThenDeletions(db, db, DeleteUserTokens(db, u.id, PasswordReset));
    var saved := db.(users := db.users[u.id := WithPassword(u, d.hash, d.stamp, now)]);
    var b := RevokeTokens(saved, UserFilter(u.id));
    RevocationShrinks(saved, UserFilter(u.id));
    UserTokenDeletionShrinks(b, u.id, PasswordReset);
    ShrinksTwice(saved, b, DeleteUserTokens(b, u.id, PasswordReset));
    UsersThenDeletions(db, saved, b);
    UsersThenDeletions(db, saved, DeleteUserTokens(b, u.id, PasswordReset));
  }

  lemma ActivationIssuesNothing(db: Db, value: string, now: Time, savedAt: Time)
    ensures NothingIssued(db, Activate(db, value, now, savedAt).db)
  {
    hide TokensShrink, NothingIssued;
    NothingDeleted(db);
    UsersThenDeletions(db, db, db);
    match FindUserToken(db, Activation, value, now) {
      case None =>
      case Some(t) =>
        var u := db.users[t.userId].(emailVerified := true, updatedAt := savedAt);
        var saved := db.(users := db.users[t.userId := u]);
        UserTokenGone(saved, t.id);
        UsersThenDeletions(db, saved, DeleteUserToken(saved, t.id).db);
    }
  }

  lemma ResetIssuesNothing(env: Env, db: Db, value: string, password: string, d: UserDraws, now: Time, savedAt: Time)
    ensures NothingIssued(db, ResetPassword(env, db, value, password, d, now, savedAt).db)
  {
    hide TokensShrink, NothingIssued, SavePassword, DeleteUserTokens;
    NothingDeleted(db);
    UsersThenDeletions(db, db, db);
    match FindUserToken(db, PasswordReset, value, now) {
      case None =>
      case Some(t) => PasswordIssuesNothing(env, db, db.users[t.userId].(emailVerified := true), password, d, savedAt);
    }
  }

  lemma NothingIssuedIsWhole(a: Db, b: Db)
    requires WholeDb(a) && NothingIssued(a, b)
    ensures WholeDb(b)
  {
    hide TokensShrink, WholeDb;
    FewerRows(a, b);
  }

  lemma MailedTokensAreWhole(env: Env, db: Db, email: string, d: UserDraws, now: Time)
    requires WholeDb(db) && WholeEnv(env) && Whole(now)
    ensures WholeDb(ResendActivation(env, db, email, d, now).db)
            && WholeDb(RequestPasswordReset(env, db, email, d, now).db)
  {
    hide WholeDb, Whole, IssueUserToken, Normalize;
    match UserByEmail(db, Normalize(env, email)) {
      case None =>
      case Some(u) =>
        UserTokenIsWhole(db, u.id, Activation, env.activationLifetime, d.tokenId, d.tokenValue, now);
        UserTokenIsWhole(db, u.id, PasswordReset, env.resetLifetime, d.tokenId, d.tokenValue, now);
    }
  }

  lemma AccountStepIsWhole(env: Env, db: Db, op: Op, now: Time, d: Draws)
    requires WholeDb(db) && WholeEnv(env) && Whole(now) && !IsOAuth(op) && !IsAdmin(op)
    ensures WholeDb(AfterAccount(env, db, op, now, d))
  {
    hide WholeDb, Whole, NothingIssued, CreateAccount, Activate, ResetPassword, ResendActivation, RequestPasswordReset,
      IssueUserToken, ChangeUser, UnlockUser, RemoveUser, SavePassword;
    match op {
      case CreateUserOp(input, hash) => CreateAccountIsWhole(env, db, input, UserDrawsOf(d, hash), now);
      case ActivateOp(value) =>
        ActivationIssuesNothing(db, value, now, d.accessAt);
        NothingIssuedIsWhole(db, Activate(db, value, now, d.accessAt).db);
      case ResetPasswordOp(value, password, hash) =>
        ResetIssuesNothing(env, db, value, password, UserDrawsOf(d, hash), now, d.accessAt);
        NothingIssuedIsWhole(db, ResetPassword(env, db, value, password, UserDrawsOf(d, hash), now, d.accessAt).db);
      case ResendActivationOp(email) => MailedTokensAreWhole(env, db, email, UserDrawsOf(d, ""), now);
      case RequestResetOp(email) => MailedTokensAreWhole(env, db, email, UserDrawsOf(d, ""), now);
      case SendActivationOp(id) =>
        UserTokenIsWhole(db, id, Activation, env.activationLifetime, d.refreshId, d.refreshValue, now);
      case ChangeUserOp(id, req) =>
        ChangeIssuesNothing(env, db, id, req, d.accessValue, now);
        NothingIssuedIsWhole(db, ChangeUser(env, db, id, req, d.accessValue, now).db);
      case UnlockUserOp(id) =>
        ChangeIssuesNothing(env, db, id, UserRequest("", "", false, false), d.accessValue, now);
        NothingIssuedIsWhole(db, UnlockUser(env, db, id, d.accessValue, now).db);
      case RemoveUserOp(id) =>
        RemovalIssuesNothing(db, id);
        NothingIssuedIsWhole(db, RemoveUser(db, id).db);
      case SetPasswordOp(id, password, hash) =>
        if id in db.users {
          PasswordIssuesNothing(env, db, db.users[id], password, UserDrawsOf(d, hash), now);
          NothingIssuedIsWhole(db, SavePassword(env, db, db.users[id], password, UserDrawsOf(d, hash), now).db);
        }
    }
  }

  // ---------- Administration ----------

  lemma RequestedIsWhole(req: ClientRequest, c: Client)
    requires WholeRequest(req)
    ensures WholeClient(Requested(req, c))
  {
    WholeOrDefault(req.accessTokenLifetime);
    WholeOrDefault(req.codeLifetime);
    WholeOrDefault(req.refreshTokenLifetime);
  }

  lemma AddedClientIsWhole(env: Env, db: Db, req: ClientRequest, id: string, secretHash: string, now: Time)
    requires WholeDb(db) && WholeRequest(req)
    ensures WholeDb(AddClient(env, db, req, id, secretHash, now).db)
  {
    hide WholeDb, WholeRequest, Requested, Acceptable, ClientIdTaken;
    var c := Requested(req, BlankClient(id, now));
    RequestedIsWhole(req, BlankClient(id, now));
    WithClient(db, c);
    WithClient(db, c.(secretHash := secretHash));
  }

  lemma ChangedClientIsWhole(env: Env, db: Db, id: string, req: ClientRequest, now: Time)
    requires WholeDb(db) && WholeRequest(req)
    ensures WholeDb(ChangeClient(env, db, id, req, now).db)
  {
    hide WholeDb, WholeRequest, Requested, Acceptable, ClientIdTaken, RevokeTokens, TokensShrink;
    if id in db.clients {
      var c := Requested(req, db.clients[id]);
      var saved := c.(updatedAt := now, secretHash := if c.IsPublic() then "" else c.secretHash);
      RequestedIsWhole(req, db.clients[id]);
      WithClient(db, saved);
      var b := db.(clients := db.clients[saved.id := saved]);
      RevocationShrinks(b, ClientFilter(id));
      FewerRows(b, RevokeTokens(b, ClientFilter(id)));
    }
  }

  lemma RemovedClientIsWhole(db: Db, id: string)
    requires WholeDb(db)
    ensures WholeDb(RemoveClient(db, id).db)
  {
    var gone := DeleteClient(db, id).db;
    assert WholeDb(gone) by {
      NothingDeleted(db);
      FewerClientsToo(db, gone);
    }
    hide WholeDb, RevokeTokens, TokensShrink, DeleteClient;
    RevocationShrinks(gone, ClientFilter(id));
    FewerRows(gone, RevokeTokens(gone, ClientFilter(id)));
  }

  lemma RenewedSecretIsWhole(db: Db, id: string, secretHash: string, now: Time)
    requires WholeDb(db)
    ensures WholeDb(RenewSecret(db, id, secretHash, now).db)
  {
  }

  lemma DeletionsAreWhole(a: Db, b: Db)
    requires WholeDb(a) && OnlyDeleted(a, b)
    ensures WholeDb(b)
  {
    hide TokensShrink, WholeDb;
    FewerRows(a, b);
  }

  lemma AdminStepIsWhole(env: Env, db: Db, op: Op, now: Time, d: Draws)
    requires WholeDb(db) && IsAdmin(op) && (op.AddClientOp? || op.ChangeClientOp? ==> WholeRequest(op.clientRequest))
    ensures WholeDb(AfterAdmin(env, db, op, now, d))
  {
    hide WholeDb, WholeRequest, AddClient, ChangeClient, RemoveClient, RenewSecret, RevokeAllOfUser, DeleteAccessToken,
      RemoveRefreshToken, RemoveAccessTokens, RemoveRefreshTokens, DeleteExpired, OnlyDeleted;
    match op {
      case AddClientOp(req, secretHash) => AddedClientIsWhole(env, db, req, d.accessId, secretHash, now);
      case ChangeClientOp(id, req) => ChangedClientIsWhole(env, db, id, req, now);
      case RemoveClientOp(id) => RemovedClientIsWhole(db, id);
      case RenewSecretOp(id, secretHash) => RenewedSecretIsWhole(db, id, secretHash, now);
      case RevokeUserOp(id) =>
        AdminDeletions(db, id, NO_FILTER, now);
        DeletionsAreWhole(db, RevokeAllOfUser(db, id).db);
      case RemoveAccessTokenOp(id) =>
        AdminDeletions(db, id, NO_FILTER, now);
        DeletionsAreWhole(db, DeleteAccessToken(db, id).db);
      case RemoveRefreshTokenOp(id) =>
        AdminDeletions(db, id, NO_FILTER, now);
        DeletionsAreWhole(db, RemoveRefreshToken(db, id).db);
      case RemoveAccessTokensOp(f) =>
        AdminDeletions(db, "", f, now);
        DeletionsAreWhole(db, RemoveAccessTokens(db, f).db);
      case RemoveRefreshTokensOp(f) =>
        AdminDeletions(db, "", f, now);
        DeletionsAreWhole(db, RemoveRefreshTokens(db, f).db);
      case CleanupOp =>
        AdminDeletions(db, "", NO_FILTER, now);
        DeletionsAreWhole(db, DeleteExpired(db, now));
    }
  }

  // ---------- Every run ----------

  lemma StepIsWhole(env: Env, db: Db, s: Step)
    requires WholeDb(db) && WholeEnv(env) && WholeStep(s)
    ensures WholeDb(After(env, db, s))
  {
    hide WholeDb, Whole, WholeDraws, AfterOAuth, AfterAdmin, AfterAccount;
    if IsOAuth(s.op) {
      OAuthStepIsWhole(env, db, s.op, s.now, s.d);
    } else if IsAdmin(s.op) {
      AdminStepIsWhole(env, db, s.op, s.now, s.d);
    } else {
      AccountStepIsWhole(env, db, s.op, s.now, s.d);
    }
  }

  /** Whole lifetimes and truncated clocks give whole expiry times in every run. */
  lemma {:induction false} RunsStayWhole(env: Env, ws: seq<World>, steps: seq<Step>, i: nat)
    requires Run(env, ws, steps) && i < |ws|
    requires WholeEnv(env) && WholeClients(ws[0].db.clients) && forall j :: 0 <= j < |steps| ==> WholeStep(steps[j])
    ensures WholeDb(ws[i].db)
  {
    hide After, WholeStep, BookAfter, StartedSessions, Presented, Enabled;
    if i == 0 {
    } else {
      RunsStayWhole(env, ws, steps, i - 1);
      hide WholeDb;
      StepIsWhole(env, ws[i - 1].db, steps[i - 1]);
    }
  }

  // ---------- The two clocks ----------

  lemma SameMillisecond(expiresAt: Time, t: Time)
    requires Whole(expiresAt)
    ensures ExpiredAt(expiresAt, t) <==> ExpiredAt(expiresAt, Truncated(t))
  {
    TruncatedClocksAgree(expiresAt);
  }

  lemma TruncationKeepsOrder(a: Time, b: Time)
    requires a <= b
    ensures Truncated(a) <= Truncated(b)
  {
  }

  lemma SameAccessDeletion(db: Db, now: Time)
    requires WholeAccessTokens(db.accessTokens)
    ensures DeleteAccessTokens(db, ExpiredFilter(now)) == DeleteAccessTokens(db, ExpiredFilter(Truncated(now)))
  {
    hide Truncated;
    forall k | k in db.accessTokens
      ensures MatchAccess(ExpiredFilter(now), db.accessTokens[k]) <==>
              MatchAccess(ExpiredFilter(Truncated(now)), db.accessTokens[k])
    {
      SameMillisecond(db.accessTokens[k].expiresAt, now);
    }
  }

  lemma SameRefreshDeletion(db: Db, now: Time)
    requires WholeRefreshTokens(db.refreshTokens)
    ensures DeleteRefreshTokens(db, ExpiredFilter(now)) == DeleteRefreshTokens(db, ExpiredFilter(Truncated(now)))
  {
    hide Truncated;
    forall k | k in db.refreshTokens
      ensures MatchRefresh(ExpiredFilter(now), db.refreshTokens[k]) <==>
              MatchRefresh(ExpiredFilter(Truncated(now)), db.refreshTokens[k])
    {
      SameMillisecond(db.refreshTokens[k].expiresAt, now);
    }
  }

  lemma SameCodeDeletion(db: Db, now: Time)
    requires WholeCodes(db.codes)
    ensures DeleteExpiredCodes(db, now) == DeleteExpiredCodes(db, Truncated(now))
  {
    hide Truncated;
    forall k | k in db.codes ensures db.codes[k].expiresAt > now <==> db.codes[k].expiresAt > Truncated(now) {
      SameMillisecond(db.codes[k].expiresAt, now);
    }
  }

  lemma SameUserTokenDeletion(db: Db, now: Time)
    requires WholeUserTokens(db.userTokens)
    ensures DeleteExpiredUserTokens(db, now) == DeleteExpiredUserTokens(db, Truncated(now))
  {
    hide Truncated;
    forall k | k in db.userTokens
      ensures db.userTokens[k].expiresAt > now <==> db.userTokens[k].expiresAt > Truncated(now)
    {
      SameMillisecond(db.userTokens[k].expiresAt, now);
    }
  }

  lemma DeletionsTouchOneTable(db: Db, f: TokenFilter, now: Time)
    ensures DeleteAccessTokens(db, f).refreshTokens == db.refreshTokens && DeleteAccessTokens(db, f).codes == db.codes
    ensures DeleteAccessTokens(db, f).userTokens == db.userTokens
    ensures DeleteRefreshTokens(db, f).codes == db.codes && DeleteRefreshTokens(db, f).userTokens == db.userTokens
    ensures DeleteExpiredCodes(db, now).userTokens == db.userTokens
  {
  }

  /** On whole rows a cleanup removes what a cleanup by the truncated clock would remove. */
  lemma CleanupByEitherClock(db: Db, now: Time)
    requires WholeRows(db)
    ensures DeleteExpired(db, now) == DeleteExpired(db, Truncated(now))
  {
    hide Truncated, DeleteAccessTokens, DeleteRefreshTokens, DeleteExpiredCodes, DeleteExpiredUserTokens, ExpiredFilter,
      WholeAccessTokens, WholeRefreshTokens, WholeCodes, WholeUserTokens;
    var one := DeleteAccessTokens(db, ExpiredFilter(now));
    var two := DeleteRefreshTokens(one, ExpiredFilter(now));
    var three := DeleteExpiredCodes(two, now);
    DeletionsTouchOneTable(db, ExpiredFilter(now), now);
    DeletionsTouchOneTable(one, ExpiredFilter(now), now);
    DeletionsTouchOneTable(two, ExpiredFilter(now), now);
    SameAccessDeletion(db, now);
    SameRefreshDeletion(one, now);
    SameCodeDeletion(two, now);
    SameUserTokenDeletion(three, now);
  }

  /** In every run with whole lifetimes: a cleanup at any nanosecond is not noticed by a request that
      comes later, even when the truncated clock of the request shows an earlier time. */
  lemma CleanupIsUnnoticedByTruncatedClocks(env: Env, ws: seq<World>, steps: seq<Step>, i: nat, cleanup: Time,
      request: Time, value: string, hint: string, client: Client, scope: string, redirectUri: string, verifier: string,
      d: Draws)
    requires Run(env, ws, steps) && i < |ws| && cleanup <= request && Fresh(d, ws[i].used)
    requires WholeEnv(env) && WholeClients(ws[0].db.clients) && forall j :: 0 <= j < |steps| ==> WholeStep(steps[j])
    ensures var a, b, t := ws[i].db, DeleteExpired(ws[i].db, cleanup), Truncated(request);
            && ValidateAccessToken(env, b, value, t) == ValidateAccessToken(env, a, value, t)
            && Introspect(env, b, value, hint, t) == Introspect(env, a, value, hint, t)
            && Refresh(env, b, client, value, scope, t, d).result == Refresh(env, a, client, value, scope, t, d).result
            && ExchangeCode(env, b, client, value, redirectUri, verifier, t, d).result
               == ExchangeCode(env, a, client, value, redirectUri, verifier, t, d).result
  {
    hide Run, Fresh, WholeRows, WholeClients, WholeStep, DeleteExpired, ValidateAccessToken, Introspect, Refresh,
      ExchangeCode, Truncated;
    RunsStayWhole(env, ws, steps, i);
    CleanupByEitherClock(ws[i].db, cleanup);
    TruncationKeepsOrder(cleanup, request);
    CleanupIsUnnoticed(env, ws, steps, i, Truncated(cleanup), Truncated(request), value, hint, client, scope,
                       redirectUri,
                       verifier, d);
  }
}
