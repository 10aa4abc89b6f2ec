/** Every request of the server keeps the global invariant and evolves the contents soundly. */
module Requests {
  import opened Identity
  import opened Database
  import opened AccountRules
  import opened OAuthRules
  import opened AdminRules
  import opened Invariants
  import opened Minting
  import opened Evolution

  // ---------- Common steps ----------

  lemma FoundUserIsStored(db: Db, u: User)
    requires Indexed(db) && exists k :: k in db.users && db.users[k] == u
    ensures u.id in db.users && db.users[u.id] == u && u.id != ""
  {
    hide ClientTable, AccessTable, RefreshTable, CodeTable, UserTokenTable;
  }

  lemma StoredUserFits(env: Env, db: Db, id: string, used: set<string>)
    requires Indexed(db) && PeopleOk(env, db, used) && id in db.users
    ensures db.users[id].id == id && id != "" && UserOk(env, db.users[id], used)
  {
    hide ClientTable, AccessTable, RefreshTable, CodeTable, UserTokenTable, UserOk, ValidClient;
  }

  lemma StoredClientFits(env: Env, db: Db, id: string, used: set<string>)
    requires Indexed(db) && PeopleOk(env, db, used) && id in db.clients
    ensures db.clients[id].id == id && id != "" && id in used && ValidClient(env, db.clients[id])
  {
    hide UserTable, AccessTable, RefreshTable, CodeTable, UserTokenTable, UserOk, ValidClient;
  }

  lemma RevocationShrinks(db: Db, f: TokenFilter)
    ensures var b := RevokeTokens(db, f); TokensShrink(db, b) && b.clients == db.clients && b.users == db.users
  {
  }

  lemma RowThenDeletions(a: Db, m: Db, b: Db)
    requires m.accessTokens == a.accessTokens && m.refreshTokens == a.refreshTokens && m.codes == a.codes
             && m.userTokens == a.userTokens
    requires TokensShrink(m, b) || b == m
    ensures TokensShrink(a, b)
  {
  }

  /** Preparing the contents, by a user row or a consumed code, and then doing nothing else. */
  lemma PreparedKept(env: Env, a: Db, m: Db, book: Book, used: set<string>, d: Draws)
    requires Good(env, a, book, used) && Good(env, m, book, used) && Fresh(d, used)
    requires m.accessTokens == a.accessTokens && m.refreshTokens == a.refreshTokens && m.userTokens == a.userTokens
    requires CodesEvolve(a, m, used) && UsersEvolve(a, m, used)
    ensures Kept(env, a, book, used, m, None, d)
  {
    hide Indexed, RefSafe, TokensOk, PeopleOk, BookOk, Fresh, CodesEvolve, UsersEvolve;
    TablesStay(a, m, book, used, d);
    DrawnKeepsGood(env, m, book, used, d);
  }

  lemma SameCodesEvolveTrivially(a: Db, b: Db, used: set<string>)
    requires b.codes == a.codes
    ensures CodesEvolve(a, b, used)
  {
  }

  lemma SameUsersEvolveTrivially(a: Db, b: Db, used: set<string>)
    requires b.users == a.users
    ensures UsersEvolve(a, b, used)
  {
  }

  // ---------- Signing in ----------

  /** The failed login count stays below the limit, or is zero when there is no limit. */
  lemma CountStaysBounded(env: Env, u: User, now: Time)
    requires CountOk(env, u)
    ensures CountOk(env, AfterFailure(env, u, now)) && CountOk(env, AfterLogin(u, now))
    ensures env.maxFailedAttempts > 0 ==> AfterFailure(env, u, now).failedLoginCount < env.maxFailedAttempts
  {
  }

  lemma SameNamesRow(env: Env, db: Db, u: User, book: Book, used: set<string>)
    requires Good(env, db, book, used) && SameNames(db, u) && u.id != "" && UserOk(env, u, used)
    requires u.securityStamp == db.users[u.id].securityStamp
    ensures Good(env, db.(users := db.users[u.id := u]), book, used)
            && UsersEvolve(db, db.(users := db.users[u.id := u]), used)
  {
    var b := db.(users := db.users[u.id := u]);
    assert StampEvolves(db, u, used);
    hide Indexed, RefSafe, BookOk, TokensOk, PeopleOk, TokensShrink, UserTaken, UserOk, NoTokensOfUser, SameNames,
      UsersEvolve, StampEvolves;
    UserRowEvolves(db, b, u, used);
    RowThenDeletions(db, b, b);
    SameNamesFit(env, db, b, u, used);
    UserRowKeepsGood(env, db, b, u, book, used);
  }

  lemma AuthenticateRow(env: Env, db: Db, login: string, password: string, now: Time, book: Book, used: set<string>)
    requires Good(env, db, book, used)
    ensures var out := Authenticate(env, db, login, password, now);
            && Good(env, out.db, book, used) && UsersEvolve(db, out.db, used)
            && out.db == db.(users := out.db.users)
            && (out.result.Ok? ==>
                  out.result.value.id in out.db.users && out.db.users[out.result.value.id] == out.result.value
                                   && CanSignIn(env, out.result.value).None?)
  {
    IndexedIfGood(env, db, book, used);
    hide *;
    SameUsersEvolveTrivially(db, db, used);
    SignInWrites(env, db, login, password, now);
    match FindUser(env, db, login) {
      case None =>
      case Some(u) =>
        FoundUserIsStored(db, u);
        EvaluatedRow(env, db, u, now, book, used);
        LoginKeepsTheRest(env, u, now);
    }
  }

  lemma LoginKeepsTheRest(env: Env, u: User, now: Time)
    ensures AfterLogin(u, now).id == u.id && CanSignIn(env, AfterLogin(u, now)) == CanSignIn(env, u)
  {
  }

  /** A sign-in writes the row of the user that it found, or nothing. */
  lemma SignInWrites(env: Env, db: Db, login: string, password: string, now: Time)
    ensures var out, found := Authenticate(env, db, login, password, now), FindUser(env, db, login);
            && out.db == db.(users := out.db.users)
            && match found
            case None => out.db == db && out.result.Err?
            case Some(u) =>
              && (out.db == db || out.db == db.(users := db.users[u.id := AfterFailure(env, u, now)])
                  || out.db == db.(users := db.users[u.id := AfterLogin(u, now)]))
              && (out.result.Ok? ==>
                    out.db == db.(users := db.users[u.id := AfterLogin(u, now)]) && CanSignIn(env, u).None?
                    && out.result.value == AfterLogin(u, now))
  {
    hide FindUser, PasswordMatches, CanSignIn, AfterFailure, AfterLogin;
  }

  lemma IndexedIfGood(env: Env, db: Db, book: Book, used: set<string>)
    requires Good(env, db, book, used)
    ensures Indexed(db)
  {
    hide Indexed, RefSafe, BookOk, TokensOk, PeopleOk;
  }

  /** Writing the counters of a stored user keeps the invariant, after a failure and after a sign-in. */
  lemma EvaluatedRow(env: Env, db: Db, u: User, now: Time, book: Book, used: set<string>)
    requires Good(env, db, book, used) && u.id in db.users && db.users[u.id] == u
    ensures var b := db.(users := db.users[u.id := AfterFailure(env, u, now)]);
            Good(env, b, book, used) && UsersEvolve(db, b, used)
    ensures var b := db.(users := db.users[u.id := AfterLogin(u, now)]);
            Good(env, b, book, used) && UsersEvolve(db, b, used)
  {
    hide Indexed, RefSafe, BookOk, TokensOk, PeopleOk, UsersEvolve;
    StoredUserFits(env, db, u.id, used);
    CountStaysBounded(env, u, now);
    SameNamesRow(env, db, AfterFailure(env, u, now), book, used);
    SameNamesRow(env, db, AfterLogin(u, now), book, used);
  }

  lemma LoginKept(env: Env, db: Db, login: string, password: string, now: Time, book: Book, used: set<string>, d: Draws)
    requires Good(env, db, book, used) && Fresh(d, used)
    ensures Kept(env, db, book, used, Authenticate(env, db, login, password, now).db, None, d)
  {
    hide Good, Authenticate, Kept, Fresh, CodesEvolve, UsersEvolve;
    AuthenticateRow(env, db, login, password, now, book, used);
    SameCodesEvolveTrivially(db, Authenticate(env, db, login, password, now).db, used);
    PreparedKept(env, db, Authenticate(env, db, login, password, now).db, book, used, d);
  }

  // ---------- The token endpoint ----------

  /** The client that authenticated at the token endpoint. */
  ghost predicate Caller(db: Db, client: Client) {
    client.id in db.clients && db.clients[client.id] == client && client.enabled
  }

  lemma CodeIsStored(db: Db, code: AuthorizationCode)
    requires Indexed(db) && exists k :: k in db.codes && db.codes[k] == code
    ensures code.id in db.codes && db.codes[code.id] == code
  {
    hide ClientTable, UserTable, AccessTable, RefreshTable, UserTokenTable;
  }

  lemma RefreshIsStored(db: Db, rt: RefreshToken)
    requires Indexed(db) && exists k :: k in db.refreshTokens && db.refreshTokens[k] == rt
    ensures rt.id in db.refreshTokens && db.refreshTokens[rt.id] == rt
  {
    hide ClientTable, UserTable, AccessTable, CodeTable, UserTokenTable;
  }

  lemma ConsumptionEvolves(db: Db, id: string, at: Time, used: set<string>)
    requires id in db.codes && db.codes[id].consumedAt.None?
    ensures CodesEvolve(db, ConsumeCode(db, id, at).db, used) && Live(db, id)
  {
  }

  lemma ExchangeKept(env: Env, db: Db, client: Client, value: string, redirectUri: string, verifier: string, now: Time,
                     book: Book, used: set<string>, d: Draws)
    requires Good(env, db, book, used) && Fresh(d, used) && Caller(db, client)
    ensures Kept(env, db, book, used, ExchangeCode(env, db, client, value, redirectUri, verifier, now, d).db, None, d)
  {
    hide Indexed, RefSafe, BookOk, TokensOk, PeopleOk, Fresh, Kept, CodesEvolve, UsersEvolve, Live, CodeReady,
      JudgeCode, IssueTokens, RevokeTokens, TokensShrink, CanSignIn;
    NothingKept(env, db, book, used, None, d);
    match CodeByHash(db, HashToken(value)) {
      case None =>
      case Some(code) =>
        CodeIsStored(db, code);
        RevocationShrinks(db, CodeFilter(code.id));
        ShrinkKept(env, db, RevokeTokens(db, CodeFilter(code.id)), book, used, None, d);
        if JudgeCode(env, client, code, redirectUri, verifier, now) == Exchangeable {
          UsableCodeIsUnused(env, client, code, redirectUri, verifier, now);
          var m := ConsumeCode(db, code.id, now).db;
          ConsumeKeepsGood(env, db, code.id, now, book, used);
          ConsumptionEvolves(db, code.id, now, used);
          SameUsersEvolveTrivially(db, m, used);
          PreparedKept(env, db, m, book, used, d);
          if OwnerActive(env, m, code.userId) {
            CallerIsAnchored(env, m, client, code.userId);
            IssueKept(env, db, m, client, code.userId, code.scopes, true, code.id, book, used, d);
          }
        }
    }
  }

  lemma UsableCodeIsUnused(env: Env, client: Client, code: AuthorizationCode, redirectUri: string, verifier: string,
      now: Time)
    requires JudgeCode(env, client, code, redirectUri, verifier, now) == Exchangeable
    ensures code.consumedAt.None? && code.clientId == client.id
  {
  }

  lemma CallerIsAnchored(env: Env, db: Db, client: Client, userId: string)
    requires Caller(db, client) && (userId == "" || OwnerActive(env, db, userId))
    ensures Anchored(db, client.id, userId)
  {
  }

  lemma RefreshRequestKept(env: Env, db: Db, client: Client, value: string, scope: string, now: Time, book: Book,
      used: set<string>, d: Draws)
    requires Good(env, db, book, used) && Fresh(d, used) && Caller(db, client)
    ensures Kept(env, db, book, used, Refresh(env, db, client, value, scope, now, d).db,
                 RefreshByHash(db, HashToken(value)), d)
  {
    hide Indexed, RefSafe, BookOk, TokensOk, PeopleOk, Fresh, Kept, JudgeRefresh, UseRefreshToken, OwnerActive;
    NothingKept(env, db, book, used, RefreshByHash(db, HashToken(value)), d);
    match RefreshByHash(db, HashToken(value)) {
      case None =>
      case Some(rt) =>
        if JudgeRefresh(client, rt, scope, now).Ok? {
          UsableTokenIsOwn(client, rt, scope, now);
          RefreshIsStored(db, rt);
          RefreshKept(env, db, client, rt, JudgeRefresh(client, rt, scope, now).value, now, book, used, d);
        }
    }
  }

  lemma UsableTokenIsOwn(client: Client, rt: RefreshToken, scope: string, now: Time)
    requires JudgeRefresh(client, rt, scope, now).Ok?
    ensures rt.clientId == client.id && now < rt.expiresAt
  {
  }

  lemma PasswordGrantKept(env: Env, db: Db, client: Client, form: Form, now: Time, book: Book, used: set<string>,
      d: Draws)
    requires Good(env, db, book, used) && Fresh(d, used) && Caller(db, client)
    ensures Kept(env, db, book, used, PasswordGrant(env, db, client, form, now, d).db, None, d)
  {
    hide Good, Fresh, Kept, CodesEvolve, UsersEvolve, CodeReady, Authenticate, IssueTokens, ResolveScopes, Param,
      CanSignIn;
    NothingKept(env, db, book, used, None, d);
    var username, password, scope := RequiredParam(form, "username"), RequiredParam(form, "password"),
      Param(form, "scope");
    if username.Ok? && password.Ok? && scope.Ok? && ResolveScopes(client, scope.value).Ok? {
      var out := Authenticate(env, db, username.value, password.value, now);
      LoginKept(env, db, username.value, password.value, now, book, used, d);
      AuthenticateRow(env, db, username.value, password.value, now, book, used);
      if out.result.Ok? {
        CallerIsAnchored(env, out.db, client, out.result.value.id);
        SameCodesEvolveTrivially(db, out.db, used);
        NoCodeIsReady(out.db, book, used);
        IssueKept(env, db, out.db, client, out.result.value.id, ResolveScopes(client, scope.value).value, true, "",
                  book, used, d);
      }
    }
  }

  lemma NoCodeIsReady(db: Db, book: Book, used: set<string>)
    ensures CodeReady(db, book, used, "")
  {
  }

  /** Issuing tokens for no code on unchanged contents. */
  lemma PlainIssueKept(env: Env, db: Db, client: Client, userId: string, scopes: seq<string>, withRefresh: bool,
      book: Book, used: set<string>, d: Draws)
    requires Good(env, db, book, used) && Fresh(d, used) && Caller(db, client)
             && (userId == "" || OwnerActive(env, db, userId))
    ensures Kept(env, db, book, used, IssueTokens(db, client, userId, scopes, withRefresh, "", d).db, None, d)
  {
    hide Good, Fresh, Kept, CodesEvolve, UsersEvolve, CodeReady, IssueTokens;
    CallerIsAnchored(env, db, client, userId);
    SameCodesEvolveTrivially(db, db, used);
    SameUsersEvolveTrivially(db, db, used);
    NoCodeIsReady(db, book, used);
    IssueKept(env, db, db, client, userId, scopes, withRefresh, "", book, used, d);
  }

  lemma ClientCredentialsKept(env: Env, db: Db, client: Client, form: Form, book: Book, used: set<string>, d: Draws)
    requires Good(env, db, book, used) && Fresh(d, used) && Caller(db, client)
    ensures Kept(env, db, book, used, ClientCredentialsGrant(db, client, form, d).db, None, d)
  {
    hide Good, Fresh, Kept, IssueTokens, ResolveScopes, Caller;
    NothingKept(env, db, book, used, None, d);
    var scope := Param(form, "scope");
    if scope.Ok? && ResolveScopes(client, scope.value).Ok? {
      PlainIssueKept(env, db, client, "", ResolveScopes(client, scope.value).value, false, book, used, d);
    }
  }

  /** The refresh token that a request to the token endpoint presents. */
  ghost function PresentedRefreshToken(db: Db, grantType: GrantType, form: Form): Option<RefreshToken> {
    if grantType == RefreshTokenGrantType && RequiredParam(form, "refresh_token").Ok?
    then RefreshByHash(db, HashToken(RequiredParam(form, "refresh_token").value)) else None
  }

  lemma TokenEndpointKept(env: Env, db: Db, clientKey: string, grantType: GrantType, form: Form, now: Time,
      book: Book, used: set<string>, d: Draws)
    requires Good(env, db, book, used) && Fresh(d, used)
    ensures Kept(env, db, book, used, TokenEndpoint(env, db, clientKey, grantType, form, now, d).db,
                 PresentedRefreshToken(db, grantType, form), d)
  {
    hide Indexed, RefSafe, BookOk, TokensOk, PeopleOk, Fresh, Kept, ExchangeCode, Refresh, PasswordGrant,
      ClientCredentialsGrant, Param;
    NothingKept(env, db, book, used, PresentedRefreshToken(db, grantType, form), d);
    if clientKey in db.clients && db.clients[clientKey].enabled {
      var client := db.clients[clientKey];
      StoredClientFits(env, db, clientKey, used);
      if grantType == AuthorizationCodeGrantType {
        var value, redirectUri, verifier := RequiredParam(form, "code"), Param(form, "redirect_uri"),
          Param(form, "code_verifier");
        if value.Ok? && redirectUri.Ok? && verifier.Ok? {
          ExchangeKept(env, db, client, value.value, redirectUri.value, verifier.value, now, book, used, d);
        }
      } else if grantType == RefreshTokenGrantType {
        var value, scope := RequiredParam(form, "refresh_token"), Param(form, "scope");
        if value.Ok? && scope.Ok? {
          RefreshRequestKept(env, db, client, value.value, scope.value, now, book, used, d);
        }
      } else {
        PasswordGrantKept(env, db, client, form, now, book, used, d);
        ClientCredentialsKept(env, db, client, form, book, used, d);
      }
    }
  }

  // ---------- The authorization endpoint ----------

  lemma ClientIsStored(db: Db, client: Client)
    requires Indexed(db) && exists k :: k in db.clients && db.clients[k] == client
    ensures client.id in db.clients && db.clients[client.id] == client
  {
    hide UserTable, AccessTable, RefreshTable, CodeTable, UserTokenTable;
  }

  lemma GrantKept(env: Env, db: Db, req: AuthorizeRequest, userId: string, now: Time, book: Book, used: set<string>,
      d: Draws)
    requires Good(env, db, book, used) && Fresh(d, used) && Caller(db, req.client) && OwnerActive(env, db, userId)
    ensures Kept(env, db, book, used, Grant(db, req, userId, now, d).db, None, d)
  {
    hide Good, Fresh, Kept, IssueTokens, Caller, NewCode, CreateCode, OwnerActive;
    NewCodeKept(env, db, req, userId, now, book, used, d);
    PlainIssueKept(env, db, req.client, userId, req.scopes, false, book, used, d);
  }

  lemma AuthorizeKept(env: Env, db: Db, form: Form, session: Option<Session>, decision: Decision, now: Time,
      book: Book, used: set<string>, d: Draws)
    requires Good(env, db, book, used) && Fresh(d, used)
    ensures Kept(env, db, book, used, Authorize(env, db, form, session, decision, now, d).db, None, d)
  {
    hide Indexed, RefSafe, BookOk, TokensOk, PeopleOk, Fresh, Kept, Grant, ResolveScopes, Param, ChallengeOf, CanSignIn;
    NothingKept(env, db, book, used, None, d);
    var target := ClientAndRedirect(db, form);
    if target.Ok? {
      ClientIsStored(db, target.value.0);
      var req := ReadAuthorizeRequest(target.value.0, target.value.1, target.value.2, form);
      var user := if session.None? then None else CurrentUser(env, db, session.value, now);
      if req.Ok? && user.Some? {
        assert req.value.client == target.value.0;
        StoredUserFits(env, db, session.value.userId, used);
        GrantKept(env, db, req.value, user.value.id, now, book, used, d);
      }
    }
  }

  // ---------- Revocation ----------

  /** Only tokens and codes were deleted. */
  ghost predicate OnlyDeleted(a: Db, b: Db) {
    TokensShrink(a, b) && b.clients == a.clients && b.users == a.users
  }

  lemma NothingDeleted(db: Db)
    ensures OnlyDeleted(db, db)
  {
  }

  lemma AccessDeletion(a: Db, b: Db, id: string)
    requires OnlyDeleted(a, b)
    ensures OnlyDeleted(a, DeleteAccessToken(b, id).db)
  {
  }

  lemma RefreshDeletion(a: Db, b: Db, id: string)
    requires OnlyDeleted(a, b)
    ensures OnlyDeleted(a, DeleteRefreshToken(b, id).db)
  {
  }

  lemma RevokeShrinks(db: Db, client: Client, value: string, hint: string)
    ensures OnlyDeleted(db, Revoke(db, client, value, hint))
  {
    hide OnlyDeleted, DeleteAccessToken, DeleteRefreshToken;
    var h := HashToken(value);
    NothingDeleted(db);
    if AccessByHash(db, h).Some? {
      AccessDeletion(db, db, AccessByHash(db, h).value.id);
    }
    if RefreshByHash(db, h).Some? {
      var t := RefreshByHash(db, h).value;
      RefreshDeletion(db, db, t.id);
      AccessDeletion(db, DeleteRefreshToken(db, t.id).db, t.accessTokenId);
    }
  }

  lemma DeletedKept(env: Env, db: Db, b: Db, book: Book, used: set<string>, d: Draws)
    requires Good(env, db, book, used) && Fresh(d, used) && OnlyDeleted(db, b)
    ensures Kept(env, db, book, used, b, None, d)
  {
    hide Good, Fresh, Kept, TokensShrink;
    ShrinkKept(env, db, b, book, used, None, d);
  }

  lemma RevokeKept(env: Env, db: Db, client: Client, value: string, hint: string, book: Book, used: set<string>,
      d: Draws)
    requires Good(env, db, book, used) && Fresh(d, used)
    ensures Kept(env, db, book, used, Revoke(db, client, value, hint), None, d)
  {
    hide Good, Fresh, Kept, Revoke, OnlyDeleted;
    RevokeShrinks(db, client, value, hint);
    DeletedKept(env, db, Revoke(db, client, value, hint), book, used, d);
  }
}
