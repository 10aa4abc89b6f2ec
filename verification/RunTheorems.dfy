/** What holds in every run when requests are served one at a time. */
module RunTheorems {
  import opened Identity
  import opened Database
  import opened AccountRules
  import opened OAuthRules
  import opened AdminRules
  import opened Invariants
  import opened Minting
  import opened Evolution
  import opened Requests
  import opened Management
  import opened Runs

  // ---------- Referential safety and unique indexes ----------

  /** In every reachable state each token names a stored, enabled client and, if it has a user, a
      stored, enabled user. */
  lemma TokensNameEnabledOwners(env: Env, ws: seq<World>, steps: seq<Step>, i: nat)
    requires Run(env, ws, steps) && i < |ws|
    ensures RefSafe(ws[i].db)
  {
    hide Indexed, RefSafe, BookOk, TokensOk, PeopleOk, Run;
    ReachableIsGood(env, ws, steps, i);
  }

  /** The unique indexes of the memory store hold in every reachable state: keys match ids, and token
      hashes, client_ids, usernames and email addresses are unique. */
  lemma StoreStaysIndexed(env: Env, ws: seq<World>, steps: seq<Step>, i: nat)
    requires Run(env, ws, steps) && i < |ws|
    ensures Indexed(ws[i].db)
  {
    hide Indexed, RefSafe, BookOk, TokensOk, PeopleOk, Run;
    ReachableIsGood(env, ws, steps, i);
  }

  /** In every reachable state at most one row answers a lookup by hash or by name, so a scan over an
      unordered map has one right answer. */
  lemma LookupsAreUnambiguous(env: Env, ws: seq<World>, steps: seq<Step>, i: nat, t: AccessToken, r: RefreshToken,
      c: Client, u: User)
    requires Run(env, ws, steps) && i < |ws|
    ensures var db := ws[i].db;
            && (t.id in db.accessTokens && db.accessTokens[t.id] == t ==> AccessByHash(db, t.tokenHash) == Some(t))
            && (r.id in db.refreshTokens && db.refreshTokens[r.id] == r ==> RefreshByHash(db, r.tokenHash) == Some(r))
            && (c.id in db.clients && db.clients[c.id] == c ==> ClientByClientId(db, c.clientId) == Some(c))
            && (u.id in db.users && db.users[u.id] == u ==> UserByUsername(db, u.normalizedUsername) == Some(u)
                                                            && UserByEmail(db, u.normalizedEmail) == Some(u))
  {
    ReachableIsGood(env, ws, steps, i);
    hide Run, RefSafe, BookOk, TokensOk, PeopleOk, CodeTable, UserTokenTable;
    AccessLookup(ws[i].db, t);
    RefreshLookup(ws[i].db, r);
    ClientLookup(ws[i].db, c);
    UserLookup(ws[i].db, u);
  }

  lemma AccessLookup(db: Db, t: AccessToken)
    requires AccessTable(db.accessTokens)
    ensures t.id in db.accessTokens && db.accessTokens[t.id] == t ==> AccessByHash(db, t.tokenHash) == Some(t)
  {
  }

  lemma RefreshLookup(db: Db, r: RefreshToken)
    requires RefreshTable(db.refreshTokens)
    ensures r.id in db.refreshTokens && db.refreshTokens[r.id] == r ==> RefreshByHash(db, r.tokenHash) == Some(r)
  {
  }

  lemma ClientLookup(db: Db, c: Client)
    requires ClientTable(db.clients)
    ensures c.id in db.clients && db.clients[c.id] == c ==> ClientByClientId(db, c.clientId) == Some(c)
  {
  }

  lemma UserLookup(db: Db, u: User)
    requires UserTable(db.users)
    ensures u.id in db.users && db.users[u.id] == u ==> UserByUsername(db, u.normalizedUsername) == Some(u)
                                                        && UserByEmail(db, u.normalizedEmail) == Some(u)
  {
  }

  // ---------- Replay is final ----------

  /** No token carries the code id, and none can be issued for it. */
  ghost predicate DeadCode(w: World, id: string) {
    id != "" && id in w.used && NoTokensOfCode(w.db, id) && (id in w.db.codes ==> w.db.codes[id].consumedAt.Some?)
  }

  lemma DeadCodesStayDead(a: World, b: World, id: string)
    requires DeadCode(a, id) && Evolves(a.db, b.db, a.used) && a.used <= b.used
    ensures DeadCode(b, id)
  {
    assert !Live(a.db, id);
    hide UsersEvolve, UserTokensEvolve, Live;
  }

  lemma {:induction false} DeadFromThenOn(env: Env, ws: seq<World>, steps: seq<Step>, i: nat, j: nat, id: string)
    requires Run(env, ws, steps) && i <= j < |ws| && DeadCode(ws[i], id)
    ensures DeadCode(ws[j], id)
    decreases j
  {
    hide Good, DeadCode, Evolves, Next, Enabled, Init;
    if i < j {
      DeadFromThenOn(env, ws, steps, i, j - 1, id);
      StepOfRun(env, ws, steps, j - 1);
      DeadCodesStayDead(ws[j - 1], ws[j], id);
    }
  }

  /** The request presents the consumed code, and the client that it was issued to sends it. */
  ghost predicate Replays(db: Db, op: Op, code: AuthorizationCode) {
    && op.TokenOp? && op.grantType == AuthorizationCodeGrantType && op.clientKey == code.clientId
    && ClientActive(db, op.clientKey) && db.clients[op.clientKey].AllowsGrant(AuthorizationCodeGrantType)
    && RequiredParam(op.form, "code").Ok? && Param(op.form, "redirect_uri").Ok? && Param(op.form, "code_verifier").Ok?
    && CodeByHash(db, HashToken(RequiredParam(op.form, "code").value)) == Some(code) && code.consumedAt.Some?
  }

  lemma ReplayRevokes(env: Env, db: Db, s: Step, code: AuthorizationCode)
    requires Replays(db, s.op, code) && db.clients[code.clientId].id == code.clientId
    ensures After(env, db, s) == RevokeTokens(db, CodeFilter(code.id))
  {
    hide Param, CodeByHash, RevokeTokens, ConsumeCode, IssueTokens, OwnerActive;
  }

  lemma StoredCodeIsKnown(env: Env, db: Db, book: Book, used: set<string>, code: AuthorizationCode)
    requires Good(env, db, book, used) && exists k :: k in db.codes && db.codes[k] == code
    ensures code.id in used && code.id != "" && code.id in db.codes && db.codes[code.id] == code
  {
    hide RefSafe, PeopleOk, AccessOk, RefreshOk, UserTokenOk, ClientTable, UserTable, AccessTable, RefreshTable,
      UserTokenTable;
  }

  lemma ReplayedCodeIsDead(env: Env, w: World, s: Step, code: AuthorizationCode)
    requires Good(env, w.db, w.book, w.used) && Replays(w.db, s.op, code)
    ensures DeadCode(Next(env, w, s), code.id)
  {
    hide Indexed, RefSafe, TokensOk, PeopleOk, BookOk, Param, RevokeTokens, NoTokensOfCode, After, Drawn, BookAfter,
      StartedSessions, ValidClient;
    StoredClientFits(env, w.db, code.clientId, w.used);
    StoredCodeIsKnown(env, w.db, w.book, w.used, code);
    ReplayRevokes(env, w.db, s, code);
    RevocationIsComplete(w.db, code.id);
    RevocationKeepsCodes(w.db, CodeFilter(code.id));
  }

  lemma RevocationKeepsCodes(db: Db, f: TokenFilter)
    ensures RevokeTokens(db, f).codes == db.codes
  {
  }

  /** Once the owning client has presented a consumed code, no token carries the id of that code,
      in this state and in all later ones, whatever happens, cleanup of the code included. */
  lemma ReplayIsFinal(env: Env, ws: seq<World>, steps: seq<Step>, i: nat, j: nat, code: AuthorizationCode)
    requires Run(env, ws, steps) && i < j < |ws| && Replays(ws[i].db, steps[i].op, code)
    ensures NoTokensOfCode(ws[j].db, code.id)
  {
    hide Good, Replays, Next, Enabled, Init, Evolves;
    StepOfRun(env, ws, steps, i);
    ReplayedCodeIsDead(env, ws[i], steps[i], code);
    DeadFromThenOn(env, ws, steps, i + 1, j, code.id);
  }

  // ---------- Families ----------

  /** While a refresh token is stored, the only access token of its family that can be stored is the
      one it links to, and it is the only refresh token of its family. */
  lemma OnlyTheLinkedAccessToken(env: Env, ws: seq<World>, steps: seq<Step>, i: nat, rt: RefreshToken)
    requires Run(env, ws, steps) && i < |ws| && rt.id in ws[i].db.refreshTokens && ws[i].db.refreshTokens[rt.id] == rt
    ensures var db, family := ws[i].db, ws[i].book.family;
            && rt.id in family
            && (forall k :: k in db.accessTokens && k != rt.accessTokenId ==> k in family && family[k] != family[rt.id])
            && (forall k :: k in db.refreshTokens && k != rt.id ==> k in family && family[k] != family[rt.id])
            && (forall k :: k in db.accessTokens && k != rt.accessTokenId && rt.codeId != "" ==>
                  db.accessTokens[k].codeId != rt.codeId)
  {
    hide Indexed, RefSafe, BookOk, TokensOk, PeopleOk, Run;
    ReachableIsGood(env, ws, steps, i);
    PairIsTheFamily(ws[i].db, ws[i].book, ws[i].used, rt);
    if rt.codeId != "" {
      CodesNameFamilies(ws[i].db, ws[i].book, ws[i].used, rt);
    }
  }

  /** One at a time, a family and a code have at most one stored access token, whatever the usage of
      their refresh tokens. */
  lemma OneAccessTokenPerFamily(env: Env, ws: seq<World>, steps: seq<Step>, i: nat, j: string, k: string)
    requires Run(env, ws, steps) && i < |ws| && j in ws[i].db.accessTokens && k in ws[i].db.accessTokens
    ensures j in ws[i].book.family && k in ws[i].book.family
    ensures ws[i].book.family[j] == ws[i].book.family[k] ==> j == k
    ensures ws[i].db.accessTokens[j].codeId == ws[i].db.accessTokens[k].codeId != "" ==> j == k
  {
    hide Run, Good;
    ReachableIsGood(env, ws, steps, i);
    NewestAccessOnly(env, ws[i].db, ws[i].book, ws[i].used, j, k);
  }

  lemma NewestAccessOnly(env: Env, db: Db, book: Book, used: set<string>, j: string, k: string)
    requires Good(env, db, book, used) && j in db.accessTokens && k in db.accessTokens
    ensures j in book.family && k in book.family && (book.family[j] == book.family[k] ==> j == k)
    ensures db.accessTokens[j].codeId == db.accessTokens[k].codeId != "" ==> j == k
  {
    hide RefSafe, PeopleOk, BookOk, ClientTable, UserTable, RefreshTable, CodeTable, UserTokenTable, RefreshOk,
      AuthCodeOk, UserTokenOk;
    assert AccessOk(db.accessTokens[j], book, used) && AccessOk(db.accessTokens[k], book, used);
    assert db.accessTokens[j].id == j && db.accessTokens[k].id == k;
  }

  lemma CodesNameFamilies(db: Db, book: Book, used: set<string>, rt: RefreshToken)
    requires TokensOk(db, book, used) && Indexed(db) && rt.id in db.refreshTokens && db.refreshTokens[rt.id] == rt
             && rt.codeId != ""
    ensures forall k :: k in db.accessTokens && k != rt.accessTokenId ==> db.accessTokens[k].codeId != rt.codeId
  {
    hide ClientTable, UserTable, RefreshTable, CodeTable, UserTokenTable, AuthCodeOk, UserTokenOk;
  }

  /** Revoking a refresh token removes it and the access token it links to, and nothing else; after
      that no token of the family is stored. This holds whatever the hint. */
  lemma RevocationEndsTheFamily(env: Env, ws: seq<World>, steps: seq<Step>, i: nat, rt: RefreshToken, client: Client,
      value: string, hint: string)
    requires Run(env, ws, steps) && i < |ws| && rt.id in ws[i].db.refreshTokens && ws[i].db.refreshTokens[rt.id] == rt
    requires rt.tokenHash == HashToken(value) && rt.clientId == client.id
    ensures rt.id in ws[i].book.family
    ensures Revoke(ws[i].db, client, value, hint) == WithoutPair(ws[i].db, rt)
    ensures NoTokensOfFamily(Revoke(ws[i].db, client, value, hint), ws[i].book, ws[i].book.family[rt.id])
  {
    hide Indexed, RefSafe, BookOk, TokensOk, PeopleOk, Run, NoTokensOfFamily, TokensShrink;
    ReachableIsGood(env, ws, steps, i);
    PairIsTheFamily(ws[i].db, ws[i].book, ws[i].used, rt);
    RevokeRemovesThePair(ws[i].db, ws[i].book, ws[i].used, rt, client, value, hint);
  }

  lemma RevokeRemovesThePair(db: Db, book: Book, used: set<string>, rt: RefreshToken, client: Client, value: string,
      hint: string)
    requires TokensOk(db, book, used) && Indexed(db) && BookOk(book, used) && rt.id in db.refreshTokens
             && db.refreshTokens[rt.id] == rt
    requires rt.tokenHash == HashToken(value) && rt.clientId == client.id
    ensures Revoke(db, client, value, hint) == WithoutPair(db, rt)
  {
    KindsDiffer(db, book, used, rt);
    assert RefreshByHash(db, HashToken(value)) == Some(rt) by {
      hide TokensOk, ClientTable, UserTable, AccessTable, CodeTable, UserTokenTable;
      RefreshLookup(db, rt);
    }
    hide TokensOk, Indexed, BookOk, AccessByHash, RefreshByHash, WithoutAccess, DeleteRefreshToken, WithoutPair;
    DeletingThePair(db, rt);
  }

  lemma DeletingThePair(db: Db, rt: RefreshToken)
    requires rt.id in db.refreshTokens && rt.accessTokenId != ""
    ensures WithoutAccess(DeleteRefreshToken(db, rt.id).db, rt.accessTokenId) == WithoutPair(db, rt)
  {
    if rt.accessTokenId !in db.accessTokens {
      assert db.accessTokens - {rt.accessTokenId} == db.accessTokens;
    }
  }

  lemma KindsDiffer(db: Db, book: Book, used: set<string>, rt: RefreshToken)
    requires TokensOk(db, book, used) && BookOk(book, used) && rt.id in db.refreshTokens
             && db.refreshTokens[rt.id] == rt
    ensures AccessByHash(db, rt.tokenHash).None? && rt.accessTokenId != ""
  {
    hide AuthCodeOk, UserTokenOk;
    assert RefreshOk(rt, book, used);
  }

  // ---------- Sessions ----------

  /** Sessions carry stamps that were drawn. */
  ghost predicate SessionsKnown(w: World) {
    forall s :: s in w.sessions ==> s.securityStamp in w.used
  }

  /** The stamp of the session has been replaced, or the user is gone. */
  ghost predicate DeadSession(w: World, s: Session) {
    s.securityStamp in w.used && (s.userId in w.db.users ==> w.db.users[s.userId].securityStamp != s.securityStamp)
  }

  lemma DeadSessionsStayDead(a: World, b: World, s: Session)
    requires DeadSession(a, s) && Evolves(a.db, b.db, a.used) && a.used <= b.used
    ensures DeadSession(b, s)
  {
    hide AccessEvolves, RefreshEvolves, CodesEvolve, UserTokensEvolve;
  }

  lemma {:induction false} DeadSessionFromThenOn(env: Env, ws: seq<World>, steps: seq<Step>, i: nat, j: nat, s: Session)
    requires Run(env, ws, steps) && i <= j < |ws| && DeadSession(ws[i], s)
    ensures DeadSession(ws[j], s)
    decreases j
  {
    hide Good, DeadSession, Evolves, Next, Enabled, Init;
    if i < j {
      DeadSessionFromThenOn(env, ws, steps, i, j - 1, s);
      StepOfRun(env, ws, steps, j - 1);
      DeadSessionsStayDead(ws[j - 1], ws[j], s);
    }
  }

  lemma StartedSessionIsKnown(env: Env, w: World, s: Step)
    requires Good(env, w.db, w.book, w.used) && SessionsKnown(w)
    ensures SessionsKnown(Next(env, w, s))
  {
    hide Good, After, BookAfter, Drawn, Authenticate;
    if s.op.LoginOp? && Authenticate(env, w.db, s.op.login, s.op.password, s.now).result.Ok? {
      AuthenticateRow(env, w.db, s.op.login, s.op.password, s.now, w.book, w.used);
      var out := Authenticate(env, w.db, s.op.login, s.op.password, s.now);
      GoodStamp(env, out.db, w.book, w.used, out.result.value.id);
    }
  }

  lemma GoodStamp(env: Env, db: Db, book: Book, used: set<string>, id: string)
    requires Good(env, db, book, used) && id in db.users
    ensures db.users[id].securityStamp in used
  {
    hide Indexed, RefSafe, TokensOk, BookOk, ValidClient;
  }

  lemma {:induction false} SessionsAreKnown(env: Env, ws: seq<World>, steps: seq<Step>, i: nat)
    requires Run(env, ws, steps) && i < |ws|
    ensures SessionsKnown(ws[i])
  {
    hide Good, Evolves, Next, Enabled;
    if i > 0 {
      SessionsAreKnown(env, ws, steps, i - 1);
      StepOfRun(env, ws, steps, i - 1);
      StartedSessionIsKnown(env, ws[i - 1], steps[i - 1]);
    }
  }

  ghost predicate SetsPassword(env: Env, s: Step, id: string) {
    s.op.SetPasswordOp? && s.op.id == id && env.passwordAllowed(s.op.password)
  }

  ghost predicate ResetsPassword(env: Env, db: Db, s: Step, id: string) {
    s.op.ResetPasswordOp? &&
    var r := ResetPassword(env, db, s.op.value, s.op.password, UserDrawsOf(s.d, s.op.hash), s.now, s.d.accessAt).result;
    r.Ok? && r.value.id == id
  }

  ghost predicate DisablesOrMoves(env: Env, db: Db, s: Step, id: string)
    requires id in db.users
  {
    s.op.ChangeUserOp? && s.op.id == id &&
    var r := ChangeUser(env, db, id, s.op.userRequest, s.d.accessValue, s.now).result;
    r.Ok? && ((db.users[id].enabled && !r.value.enabled) || r.value.normalizedEmail != db.users[id].normalizedEmail)
  }

  /** The request sets the password of the user, disables the account, changes its email address,
      or removes it. */
  ghost predicate EndsSessionsOf(env: Env, db: Db, s: Step, id: string) {
    && id in db.users
    && (SetsPassword(env, s, id) || ResetsPassword(env, db, s, id) || DisablesOrMoves(env, db, s, id)
        || (s.op.RemoveUserOp? && s.op.id == id))
  }

  lemma RevocationKeepsPeople(db: Db, f: TokenFilter, id: string, purpose: Purpose)
    ensures RevokeTokens(db, f).users == db.users && DeleteUserTokens(db, id, purpose).users == db.users
  {
  }

  lemma SavedPasswordHasNewStamp(env: Env, db: Db, u: User, password: string, d: UserDraws, now: Time)
    requires env.passwordAllowed(password)
    ensures var b := SavePassword(env, db, u, password, d, now).db;
            u.id in b.users && b.users[u.id].securityStamp == d.stamp
  {
    hide RevokeTokens;
    RevocationKeepsPeople(db.(users := db.users[u.id := WithPassword(u, d.hash, d.stamp, now)]), UserFilter(u.id),
                          u.id, Activation);
  }

  lemma ResetHasNewStamp(env: Env, db: Db, value: string, password: string, d: UserDraws, now: Time, savedAt: Time)
    requires ResetPassword(env, db, value, password, d, now, savedAt).result.Ok?
    requires forall k :: k in db.users ==> db.users[k].id == k
    ensures var r := ResetPassword(env, db, value, password, d, now, savedAt);
            r.result.value.id in r.db.users && r.db.users[r.result.value.id].securityStamp == d.stamp
  {
    hide FindUserToken, SavePassword, DeleteUserTokens;
    var u := db.users[FindUserToken(db, PasswordReset, value, now).value.userId].(emailVerified := true);
    var saved := SavePassword(env, db, u, password, d, savedAt).db;
    SavedPasswordHasNewStamp(env, db, u, password, d, savedAt);
    RevocationKeepsPeople(saved, NO_FILTER, u.id, PasswordReset);
  }

  /** A changed account gets the new stamp exactly when it was disabled or its normalized email
      address changed; a change of letter case alone keeps the stamp. */
  lemma StampFollowsTheChange(env: Env, db: Db, id: string, req: UserRequest, stamp: string, now: Time)
    requires id in db.users && db.users[id].id == id && db.users[id].securityStamp != ""
             && stamp != db.users[id].securityStamp
    requires ChangeUser(env, db, id, req, stamp, now).result.Ok?
    ensures var r, old_ := ChangeUser(env, db, id, req, stamp, now), db.users[id];
            && id in r.db.users && r.db.users[id] == r.result.value
            && r.db.users[id].securityStamp in {stamp, old_.securityStamp}
            && (r.db.users[id].securityStamp == stamp <==>
                (old_.enabled && !req.enabled) || Normalize(env, env.trim(req.email)) != old_.normalizedEmail)
  {
    hide RevokeTokens, UserTaken, Normalize;
    var u := UpdatedRecord(env, db.users[id], db.users[id].(username := req.username, email := req.email,
                                                            emailVerified := req.emailVerified,
                                                            enabled := req.enabled), stamp, now);
    RevocationKeepsPeople(db.(users := db.users[u.id := u]), UserFilter(u.id), u.id, Activation);
  }

  /** The user of that id, if still there, has the stamp that the step drew. */
  ghost predicate HasNewStamp(b: Db, s: Step, id: string) {
    id in b.users ==> b.users[id].securityStamp == s.d.accessValue
  }

  lemma SettingRenews(env: Env, db: Db, s: Step, id: string)
    requires SetsPassword(env, s, id) && id in db.users && db.users[id].id == id
    ensures HasNewStamp(After(env, db, s), s, id)
  {
    hide SavePassword;
    SavedPasswordHasNewStamp(env, db, db.users[id], s.op.password, UserDrawsOf(s.d, s.op.hash), s.now);
  }

  lemma ResettingRenews(env: Env, db: Db, s: Step, id: string)
    requires ResetsPassword(env, db, s, id) && forall k :: k in db.users ==> db.users[k].id == k
    ensures HasNewStamp(After(env, db, s), s, id)
  {
    hide ResetPassword;
    ResetHasNewStamp(env, db, s.op.value, s.op.password, UserDrawsOf(s.d, s.op.hash), s.now, s.d.accessAt);
  }

  lemma ChangingRenews(env: Env, db: Db, s: Step, id: string)
    requires id in db.users && db.users[id].id == id && db.users[id].securityStamp != ""
             && s.d.accessValue != db.users[id].securityStamp
    requires DisablesOrMoves(env, db, s, id)
    ensures HasNewStamp(After(env, db, s), s, id)
  {
    hide ChangeUser, Normalize;
    ChangedNames(env, db, id, s.op.userRequest, s.d.accessValue, s.now);
    StampFollowsTheChange(env, db, id, s.op.userRequest, s.d.accessValue, s.now);
  }

  lemma RemovingRenews(env: Env, db: Db, s: Step, id: string)
    requires s.op.RemoveUserOp? && s.op.id == id
    ensures HasNewStamp(After(env, db, s), s, id)
  {
    hide RemoveUser;
    RemovedUserIsGone(db, id);
  }

  lemma StampIsReplaced(env: Env, db: Db, book: Book, used: set<string>, s: Step, id: string)
    requires Good(env, db, book, used) && EndsSessionsOf(env, db, s, id) && Fresh(s.d, used)
    ensures HasNewStamp(After(env, db, s), s, id)
  {
    hide Good, SetsPassword, ResetsPassword, DisablesOrMoves, HasNewStamp, After;
    UsersAreKeyed(env, db, book, used, id);
    if SetsPassword(env, s, id) {
      SettingRenews(env, db, s, id);
    } else if ResetsPassword(env, db, s, id) {
      ResettingRenews(env, db, s, id);
    } else if DisablesOrMoves(env, db, s, id) {
      ChangingRenews(env, db, s, id);
    } else {
      RemovingRenews(env, db, s, id);
    }
  }

  lemma ChangedNames(env: Env, db: Db, id: string, req: UserRequest, stamp: string, now: Time)
    requires id in db.users && ChangeUser(env, db, id, req, stamp, now).result.Ok?
    ensures var u := ChangeUser(env, db, id, req, stamp, now).result.value;
            u.enabled == req.enabled && u.normalizedEmail == Normalize(env, env.trim(req.email))
  {
    hide RevokeTokens, UserTaken, Normalize;
  }

  lemma RemovedUserIsGone(db: Db, id: string)
    ensures id !in RemoveUser(db, id).db.users
  {
    hide RevokeTokens, DeleteUserTokens;
    var gone := db.(users := db.users - {id});
    RevocationKeepsPeople(gone, UserFilter(id), id, Activation);
    RevocationKeepsPeople(RevokeTokens(gone, UserFilter(id)), UserFilter(id), id, Activation);
    RevocationKeepsPeople(DeleteUserTokens(RevokeTokens(gone, UserFilter(id)), id, Activation), UserFilter(id), id,
                          PasswordReset);
  }

  lemma UsersAreKeyed(env: Env, db: Db, book: Book, used: set<string>, id: string)
    requires Good(env, db, book, used)
    ensures forall k :: k in db.users ==> db.users[k].id == k
    ensures id in db.users ==> db.users[id].securityStamp in used && db.users[id].securityStamp != ""
  {
    hide RefSafe, TokensOk, ClientTable, AccessTable, RefreshTable, CodeTable, UserTokenTable, ValidClient;
  }

  lemma EndedSessionIsDead(env: Env, w: World, s: Step, session: Session)
    requires Good(env, w.db, w.book, w.used) && SessionsKnown(w) && Fresh(s.d, w.used)
    requires session in w.sessions && EndsSessionsOf(env, w.db, s, session.userId)
    ensures DeadSession(Next(env, w, s), session)
  {
    hide Good, EndsSessionsOf, After, BookAfter, StartedSessions;
    StampIsReplaced(env, w.db, w.book, w.used, s, session.userId);
  }

  /** Once a user's password is set, the account is disabled, its email address changes or it is
      removed, no session that was started before is accepted again, not even after the account is
      enabled again. */
  lemma SessionsEndForGood(env: Env, ws: seq<World>, steps: seq<Step>, i: nat, j: nat, session: Session, t: Time)
    requires Run(env, ws, steps) && i < j < |ws|
    requires session in ws[i].sessions && EndsSessionsOf(env, ws[i].db, steps[i], session.userId)
    ensures CurrentUser(env, ws[j].db, session, t) == None
  {
    hide Good, Evolves, Next, Init, EndsSessionsOf, SessionsKnown, Fresh, CanSignIn;
    StepOfRun(env, ws, steps, i);
    SessionsAreKnown(env, ws, steps, i);
    EndedSessionIsDead(env, ws[i], steps[i], session);
    DeadSessionFromThenOn(env, ws, steps, i + 1, j, session);
  }

  /** A change of email that only differs in letter case or surrounding blanks leaves the sessions
      of an account that may still sign in as they are. */
  lemma RespelledEmailKeepsSessions(env: Env, db: Db, session: Session, req: UserRequest, stamp: string, now: Time,
      t: Time)
    requires session.userId in db.users && db.users[session.userId].id == session.userId
    requires CurrentUser(env, db, session, t).Some? && session.securityStamp != "" && stamp != session.securityStamp
    requires ChangeUser(env, db, session.userId, req, stamp, now).result.Ok?
    requires Normalize(env, env.trim(req.email)) == db.users[session.userId].normalizedEmail
    requires req.enabled && (env.requireActivation ==> req.emailVerified)
    ensures CurrentUser(env, ChangeUser(env, db, session.userId, req, stamp, now).db, session, t).Some?
  {
    hide Normalize, ChangeUser;
    StampFollowsTheChange(env, db, session.userId, req, stamp, now);
    ChangedFlags(env, db, session.userId, req, stamp, now);
  }

  lemma ChangedFlags(env: Env, db: Db, id: string, req: UserRequest, stamp: string, now: Time)
    requires id in db.users && ChangeUser(env, db, id, req, stamp, now).result.Ok?
    ensures var u := ChangeUser(env, db, id, req, stamp, now).result.value;
            u.enabled == req.enabled && u.emailVerified == req.emailVerified
  {
    hide RevokeTokens, UserTaken, Normalize;
  }

  function LowerAscii(s: string): string {
    seq(|s|, i requires 0 <= i < |s| => if 'A' <= s[i] <= 'Z' then s[i] - 'A' + 'a' else s[i])
  }

  const EXAMPLE_ENV := Env(false, 5, HOUR, HOUR, HOUR, HOUR, (s: string) => s, LowerAscii, (u, e) => true, p => true,
                           (h, p) => false, (v: string) => v, u => true)

  const ANN := User("1", "ann", "ann", "ann@x.io", "ann@x.io", "hash", true, true, "stamp", 0, None, None, 0, 0)

  /** For instance: the address ann@x.io is changed to ANN@x.io. The new address is
      stored, the stamp is the old one, and a session from before the change goes on. */
  lemma CaseChangeKeepsASession()
    ensures var after := ChangeUser(EXAMPLE_ENV, EMPTY.(users := map["1" := ANN]), "1",
                                    UserRequest("ann", "ANN@x.io", true, true), "new stamp", 5).db;
            && "1" in after.users && after.users["1"].email == "ANN@x.io"
            && CurrentUser(EXAMPLE_ENV, after, Session("1", "stamp", 100), 6) == Some(after.users["1"])
  {
    assert LowerAscii("ann") == "ann";
    assert LowerAscii("ANN@x.io") == "ann@x.io";
    hide LowerAscii;
  }

  // ---------- One-time user tokens ----------

  /** At most one token per user and purpose. */
  lemma OneUserTokenPerPurpose(env: Env, ws: seq<World>, steps: seq<Step>, i: nat, j: string, k: string)
    requires Run(env, ws, steps) && i < |ws| && j in ws[i].db.userTokens && k in ws[i].db.userTokens
    requires ws[i].db.userTokens[j].userId == ws[i].db.userTokens[k].userId
             && ws[i].db.userTokens[j].purpose == ws[i].db.userTokens[k].purpose
    ensures j == k
  {
    hide Run, Good;
    ReachableIsGood(env, ws, steps, i);
    NewestOnly(env, ws[i].db, ws[i].book, ws[i].used, j, k);
  }

  lemma NewestOnly(env: Env, db: Db, book: Book, used: set<string>, j: string, k: string)
    requires Good(env, db, book, used) && j in db.userTokens && k in db.userTokens
    requires db.userTokens[j].userId == db.userTokens[k].userId && db.userTokens[j].purpose == db.userTokens[k].purpose
    ensures j == k
  {
    hide RefSafe, PeopleOk, BookOk, ClientTable, UserTable, AccessTable, RefreshTable, CodeTable, AccessOk, RefreshOk,
      AuthCodeOk;
  }

  /** No other row will ever have the value of this token. */
  ghost predicate Tracked(w: World, t: UserToken) {
    && t.tokenHash.preimage in w.used
    && (forall k :: k in w.db.userTokens && w.db.userTokens[k].tokenHash == t.tokenHash ==> w.db.userTokens[k] == t)
  }

  /** No stored token has this value, and no new one will. */
  ghost predicate DeadValue(w: World, value: string) {
    value in w.used && UsedUp(w.db, value)
  }

  ghost predicate UsedUp(db: Db, value: string) {
    forall k :: k in db.userTokens ==> db.userTokens[k].tokenHash != HashToken(value)
  }

  lemma TrackingGoesOn(a: World, b: World, t: UserToken)
    requires Evolves(a.db, b.db, a.used) && a.used <= b.used
    ensures Tracked(a, t) ==> Tracked(b, t)
    ensures DeadValue(a, t.tokenHash.preimage) ==> DeadValue(b, t.tokenHash.preimage)
  {
    hide AccessEvolves, RefreshEvolves, CodesEvolve, UsersEvolve;
  }

  lemma {:induction false} TrackedFromThenOn(env: Env, ws: seq<World>, steps: seq<Step>, i: nat, j: nat, t: UserToken)
    requires Run(env, ws, steps) && i <= j < |ws|
    ensures Tracked(ws[i], t) ==> Tracked(ws[j], t)
    ensures DeadValue(ws[i], t.tokenHash.preimage) ==> DeadValue(ws[j], t.tokenHash.preimage)
    decreases j
  {
    hide Good, Tracked, DeadValue, Evolves, Next, Enabled, Init;
    if i < j {
      TrackedFromThenOn(env, ws, steps, i, j - 1, t);
      StepOfRun(env, ws, steps, j - 1);
      TrackingGoesOn(ws[j - 1], ws[j], t);
    }
  }

  lemma StoredTokenIsTracked(env: Env, w: World, t: UserToken)
    requires Good(env, w.db, w.book, w.used) && exists k :: k in w.db.userTokens && w.db.userTokens[k] == t
    ensures Tracked(w, t) && t.id in w.db.userTokens && w.db.userTokens[t.id] == t
  {
    hide RefSafe, PeopleOk, BookOk, ClientTable, UserTable, AccessTable, RefreshTable, CodeTable, AccessOk, RefreshOk,
      AuthCodeOk;
  }

  /** Only the newest token works: once another token for the same user and purpose was stored
      after this one, this one is never found again. */
  lemma OnlyTheNewestUserTokenWorks(env: Env, ws: seq<World>, steps: seq<Step>, h: nat, i: nat, j: nat,
                                    old_: UserToken, new_: UserToken, value: string, t: Time)
    requires Run(env, ws, steps) && h <= i <= j < |ws|
    requires old_.id in ws[h].db.userTokens && ws[h].db.userTokens[old_.id] == old_
             && old_.tokenHash == HashToken(value)
    requires new_.id in ws[i].db.userTokens && ws[i].db.userTokens[new_.id] == new_
    requires new_.userId == old_.userId && new_.purpose == old_.purpose && new_.id != old_.id
    ensures FindUserToken(ws[j].db, old_.purpose, value, t).None?
  {
    hide Good, Tracked, Next, Enabled, Init;
    ReachableIsGood(env, ws, steps, h);
    ReachableIsGood(env, ws, steps, i);
    StoredTokenIsTracked(env, ws[h], old_);
    TrackedFromThenOn(env, ws, steps, h, i, old_);
    SupersededIsDead(env, ws[i], old_, new_);
    TrackedFromThenOn(env, ws, steps, i, j, old_);
  }

  lemma SupersededIsDead(env: Env, w: World, old_: UserToken, new_: UserToken)
    requires Good(env, w.db, w.book, w.used) && Tracked(w, old_)
    requires new_.id in w.db.userTokens && w.db.userTokens[new_.id] == new_
    requires new_.userId == old_.userId && new_.purpose == old_.purpose && new_.id != old_.id
    ensures DeadValue(w, old_.tokenHash.preimage)
  {
    hide Good;
    forall k | k in w.db.userTokens ensures w.db.userTokens[k].tokenHash != old_.tokenHash {
      if w.db.userTokens[k] == old_ {
        NewestOnly(env, w.db, w.book, w.used, k, new_.id);
        assert false;
      }
    }
  }

  /** The request is an activation or a password reset with this value, and it succeeds. */
  ghost predicate Accepts(env: Env, db: Db, s: Step, purpose: Purpose, value: string) {
    match purpose
    case Activation => s.op.ActivateOp? && s.op.value == value && Activate(db, value, s.now, s.d.accessAt).result.Ok?
    case PasswordReset =>
      s.op.ResetPasswordOp? && s.op.value == value
      && ResetPassword(env, db, value, s.op.password, UserDrawsOf(s.d, s.op.hash), s.now, s.d.accessAt).result.Ok?
  }

  lemma ActivationUsesItUp(db: Db, value: string, now: Time, savedAt: Time)
    requires UserTokenTable(db.userTokens) && Activate(db, value, now, savedAt).result.Ok?
    ensures FindUserToken(db, Activation, value, now).Some?
    ensures UsedUp(Activate(db, value, now, savedAt).db, value)
  {
  }

  lemma ResetUsesItUp(env: Env, db: Db, value: string, password: string, d: UserDraws, now: Time, savedAt: Time)
    requires UserTokenTable(db.userTokens) && (forall k :: k in db.users ==> db.users[k].id == k)
    requires ResetPassword(env, db, value, password, d, now, savedAt).result.Ok?
    ensures FindUserToken(db, PasswordReset, value, now).Some?
    ensures UsedUp(ResetPassword(env, db, value, password, d, now, savedAt).db, value)
  {
    var t := FindUserToken(db, PasswordReset, value, now).value;
    var u := db.users[t.userId].(emailVerified := true);
    PasswordKeepsUserTokens(env, db, u, password, d, savedAt);
    hide SavePassword, FindUserToken, WithPassword;
    assert u.id == t.userId;
  }

  lemma PasswordKeepsUserTokens(env: Env, db: Db, u: User, password: string, d: UserDraws, now: Time)
    ensures SavePassword(env, db, u, password, d, now).db.userTokens == db.userTokens
  {
  }

  lemma AcceptanceUsesItUp(env: Env, db: Db, s: Step, purpose: Purpose, value: string)
    requires UserTokenTable(db.userTokens) && (forall k :: k in db.users ==> db.users[k].id == k)
             && Accepts(env, db, s, purpose, value)
    ensures FindUserToken(db, purpose, value, s.now).Some? && UsedUp(After(env, db, s), value)
  {
    hide UserTokenTable, Activate, ResetPassword, FindUserToken, UsedUp;
    if purpose == Activation {
      ActivationUsesItUp(db, value, s.now, s.d.accessAt);
    } else {
      ResetUsesItUp(env, db, value, s.op.password, UserDrawsOf(s.d, s.op.hash), s.now, s.d.accessAt);
    }
  }

  lemma AcceptedValueIsDead(env: Env, w: World, s: Step, purpose: Purpose, value: string)
    requires Good(env, w.db, w.book, w.used) && Accepts(env, w.db, s, purpose, value)
    ensures DeadValue(Next(env, w, s), value)
  {
    hide Good, UserTokenTable, Accepts, After, FindUserToken, BookAfter, StartedSessions, UsedUp;
    UsersAreKeyed(env, w.db, w.book, w.used, "");
    UserTokensAreKeyed(env, w.db, w.book, w.used);
    AcceptanceUsesItUp(env, w.db, s, purpose, value);
    StoredTokenIsTracked(env, w, FindUserToken(w.db, purpose, value, s.now).value);
  }

  lemma UserTokensAreKeyed(env: Env, db: Db, book: Book, used: set<string>)
    requires Good(env, db, book, used)
    ensures UserTokenTable(db.userTokens)
  {
    hide RefSafe, PeopleOk, BookOk, TokensOk, UserTokenTable, ClientTable, UserTable, AccessTable, RefreshTable,
      CodeTable;
  }

  /** A user token is accepted at most once in a run. */
  lemma UserTokensWorkOnce(env: Env, ws: seq<World>, steps: seq<Step>, i: nat, j: nat, purpose: Purpose, value: string)
    requires Run(env, ws, steps) && i < j < |steps| && Accepts(env, ws[i].db, steps[i], purpose, value)
    ensures !Accepts(env, ws[j].db, steps[j], purpose, value)
  {
    hide Good, Accepts, Next, Enabled, Init, Evolves, DeadValue;
    StepOfRun(env, ws, steps, i);
    AcceptedValueIsDead(env, ws[i], steps[i], purpose, value);
    TrackedFromThenOn(env, ws, steps, i + 1, j, UserToken("", "", purpose, HashToken(value), 0, 0));
    DeadValueIsRefused(env, ws[j], steps[j], purpose, value);
  }

  lemma DeadValueIsRefused(env: Env, w: World, s: Step, purpose: Purpose, value: string)
    requires DeadValue(w, value)
    ensures !Accepts(env, w.db, s, purpose, value)
  {
    assert FindUserToken(w.db, purpose, value, s.now).None?;
    hide FindUserToken, SavePassword, DeadValue;
  }
}
