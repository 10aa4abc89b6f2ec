/** What one request may do to the contents, whatever it is: the global invariant holds again
    afterwards, new tokens come from live grants, consumed codes stay consumed, deleted users and
    replaced security stamps never return, and new one-time tokens have new values. */
module Evolution {
  import opened Identity
  import opened Database
  import opened AccountRules
  import opened OAuthRules
  import opened AdminRules
  import opened Invariants
  import opened Minting

  // ---------- From one contents to the next ----------

  /** Tokens may still be issued for the code: it is unused, or a refresh token carries it. */
  ghost predicate Live(db: Db, codeId: string) {
    || (codeId in db.codes && db.codes[codeId].consumedAt.None?)
    || (exists k :: k in db.refreshTokens && db.refreshTokens[k].codeId == codeId)
  }

  ghost predicate AccessEvolves(a: Db, b: Db) {
    forall k :: k in b.accessTokens ==>
      || (k in a.accessTokens && a.accessTokens[k] == b.accessTokens[k])
      || b.accessTokens[k].codeId == "" || Live(a, b.accessTokens[k].codeId)
  }

  ghost predicate RefreshEvolves(a: Db, b: Db) {
    forall k :: k in b.refreshTokens ==>
      || (k in a.refreshTokens && a.refreshTokens[k].codeId == b.refreshTokens[k].codeId)
      || b.refreshTokens[k].codeId == "" || Live(a, b.refreshTokens[k].codeId)
  }

  ghost predicate CodesEvolve(a: Db, b: Db, used: set<string>) {
    forall k :: k in b.codes ==>
      || (k in a.codes && (a.codes[k].consumedAt.Some? ==> b.codes[k].consumedAt.Some?))
      || k !in used
  }

  ghost predicate UsersEvolve(a: Db, b: Db, used: set<string>) {
    forall k :: k in b.users ==>
      && (k in a.users || k !in used)
      && ((k in a.users && b.users[k].securityStamp == a.users[k].securityStamp) || b.users[k].securityStamp !in used)
  }

  ghost predicate UserTokensEvolve(a: Db, b: Db, used: set<string>) {
    forall k :: k in b.userTokens ==>
      || (k in a.userTokens && a.userTokens[k] == b.userTokens[k])
      || b.userTokens[k].tokenHash.preimage !in used
  }

  ghost predicate Evolves(a: Db, b: Db, used: set<string>) {
    && AccessEvolves(a, b) && RefreshEvolves(a, b) && CodesEvolve(a, b, used)
    && UsersEvolve(a, b, used) && UserTokensEvolve(a, b, used)
  }

  /** The books after a step that drew d; rt is the refresh token that was used, if any. */
  function BookAfter(book: Book, b: Db, rt: Option<RefreshToken>, d: Draws): Book {
    if d.accessId in b.accessTokens then
      if rt.Some? && rt.value.id in book.family then UseBook(book, rt.value, d)
      else IssueBook(book, b.accessTokens[d.accessId].codeId, d)
    else if d.refreshId in b.userTokens then
      UserTokenBook(book, b.userTokens[d.refreshId].userId, b.userTokens[d.refreshId].purpose, d.refreshId)
    else book
  }

  /** The invariant holds again, and nothing came from nowhere. */
  ghost predicate Kept(env: Env, a: Db, book: Book, used: set<string>, b: Db, rt: Option<RefreshToken>, d: Draws) {
    Good(env, b, BookAfter(book, b, rt, d), used + Drawn(d)) && Evolves(a, b, used)
  }

  // ---------- Steps that only delete tokens, and steps that change people ----------

  lemma NothingDrawnYet(db: Db, b: Db, book: Book, used: set<string>, rt: Option<RefreshToken>, d: Draws)
    requires TokensOk(db, book, used) && Indexed(db) && Fresh(d, used) && TokensShrink(db, b)
    ensures BookAfter(book, b, rt, d) == book
  {
    hide ClientTable, UserTable;
  }

  lemma ShrinkEvolves(a: Db, b: Db, used: set<string>)
    requires TokensShrink(a, b)
    ensures AccessEvolves(a, b) && RefreshEvolves(a, b) && CodesEvolve(a, b, used) && UserTokensEvolve(a, b, used)
  {
  }

  lemma DrawnKeepsGood(env: Env, db: Db, book: Book, used: set<string>, d: Draws)
    requires Good(env, db, book, used) && Fresh(d, used)
    ensures Good(env, db, book, used + Drawn(d))
  {
    hide Indexed, RefSafe, TokensOk, PeopleOk;
    MoreUsedKeepsGood(env, db, book, used, used + Drawn(d));
  }

  lemma ShrinkKept(env: Env, a: Db, b: Db, book: Book, used: set<string>, rt: Option<RefreshToken>, d: Draws)
    requires Good(env, a, book, used) && Fresh(d, used)
    requires TokensShrink(a, b) && b.clients == a.clients && b.users == a.users
    ensures Kept(env, a, book, used, b, rt, d)
  {
    assert UsersEvolve(a, b, used);
    hide Indexed, RefSafe, TokensOk, PeopleOk, BookOk, TokensShrink, UsersEvolve, BookAfter, Fresh;
    NothingDrawnYet(a, b, book, used, rt, d);
    ShrinkEvolves(a, b, used);
    ShrinkKeepsGood(env, a, b, book, used);
    DrawnKeepsGood(env, b, book, used, d);
  }

  lemma NothingKept(env: Env, a: Db, book: Book, used: set<string>, rt: Option<RefreshToken>, d: Draws)
    requires Good(env, a, book, used) && Fresh(d, used)
    ensures Kept(env, a, book, used, a, rt, d)
  {
    hide Indexed, RefSafe, TokensOk, PeopleOk, BookOk, Fresh, Kept;
    ShrinkKept(env, a, a, book, used, rt, d);
  }

  /** A user row that may be written: valid, not colliding, and disabled only if no tokens are left. */
  ghost predicate RowFits(env: Env, a: Db, b: Db, u: User, used: set<string>) {
    && u.id != "" && !UserTaken(a.users, u, u.id) && UserOk(env, u, used)
    && (u.enabled || NoTokensOfUser(b, u.id))
  }

  ghost predicate StampEvolves(a: Db, u: User, used: set<string>) {
    && (u.id in a.users || u.id !in used)
    && ((u.id in a.users && u.securityStamp == a.users[u.id].securityStamp) || u.securityStamp !in used)
  }

  lemma UserRowEvolves(a: Db, b: Db, u: User, used: set<string>)
    requires b.users == a.users[u.id := u] && StampEvolves(a, u, used)
    ensures UsersEvolve(a, b, used)
  {
  }

  lemma UserRowKept(env: Env, a: Db, b: Db, u: User, book: Book, used: set<string>, rt: Option<RefreshToken>, d: Draws)
    requires Good(env, a, book, used) && Fresh(d, used)
    requires TokensShrink(a, b) && b.clients == a.clients && b.users == a.users[u.id := u]
    requires RowFits(env, a, b, u, used + Drawn(d)) && StampEvolves(a, u, used)
    ensures Kept(env, a, book, used, b, rt, d)
  {
    hide Indexed, RefSafe, TokensOk, PeopleOk, BookOk, TokensShrink, UsersEvolve, BookAfter, Fresh, UserTaken, UserOk,
      NoTokensOfUser, StampEvolves;
    UserRowEvolves(a, b, u, used);
    NothingDrawnYet(a, b, book, used, rt, d);
    ShrinkEvolves(a, b, used);
    DrawnKeepsGood(env, a, book, used, d);
    UserRowKeepsGood(env, a, b, u, book, used + Drawn(d));
  }

  /** Changes of a stored user that keep its names and whether it is enabled. */
  ghost predicate SameNames(a: Db, u: User) {
    && u.id in a.users
    && u.normalizedUsername == a.users[u.id].normalizedUsername && u.normalizedEmail == a.users[u.id].normalizedEmail
    && u.enabled == a.users[u.id].enabled
  }

  lemma SameNamesFit(env: Env, a: Db, b: Db, u: User, used: set<string>)
    requires Indexed(a) && RefSafe(a) && TokensShrink(a, b) && SameNames(a, u) && UserOk(env, u, used)
    ensures RowFits(env, a, b, u, used)
  {
    hide ClientTable, AccessTable, RefreshTable, CodeTable, UserTokenTable, UserOk;
  }

  lemma SameNamesKept(env: Env, a: Db, b: Db, u: User, book: Book, used: set<string>, rt: Option<RefreshToken>,
      d: Draws)
    requires Good(env, a, book, used) && Fresh(d, used)
    requires TokensShrink(a, b) && b.clients == a.clients && b.users == a.users[u.id := u]
    requires SameNames(a, u) && UserOk(env, u, used + Drawn(d)) && StampEvolves(a, u, used)
    ensures Kept(env, a, book, used, b, rt, d)
  {
    hide Indexed, RefSafe, TokensOk, PeopleOk, BookOk, TokensShrink, Fresh, UserOk, StampEvolves, SameNames, RowFits,
      Kept;
    SameNamesFit(env, a, b, u, used + Drawn(d));
    UserRowKept(env, a, b, u, book, used, rt, d);
  }

  lemma UserRemovalKept(env: Env, a: Db, b: Db, id: string, book: Book, used: set<string>, rt: Option<RefreshToken>,
      d: Draws)
    requires Good(env, a, book, used) && Fresh(d, used)
    requires TokensShrink(a, b) && b.clients == a.clients && b.users == a.users - {id} && NoTokensOfUser(b, id)
    ensures Kept(env, a, book, used, b, rt, d)
  {
    assert UsersEvolve(a, b, used);
    hide Indexed, RefSafe, TokensOk, PeopleOk, BookOk, TokensShrink, UsersEvolve, BookAfter, Fresh, NoTokensOfUser;
    NothingDrawnYet(a, b, book, used, rt, d);
    ShrinkEvolves(a, b, used);
    UserRemovalKeepsGood(env, a, b, id, book, used);
    DrawnKeepsGood(env, b, book, used, d);
  }

  lemma ClientRowKept(env: Env, a: Db, b: Db, c: Client, book: Book, used: set<string>, rt: Option<RefreshToken>,
      d: Draws)
    requires Good(env, a, book, used) && Fresh(d, used)
    requires TokensShrink(a, b) && b.users == a.users && b.clients == a.clients[c.id := c]
    requires c.id in used + Drawn(d) && c.id != "" && !ClientIdTaken(a.clients, c.clientId, c.id) && ValidClient(env, c)
    requires c.enabled || NoTokensOfClient(b, c.id)
    ensures Kept(env, a, book, used, b, rt, d)
  {
    assert UsersEvolve(a, b, used);
    hide Indexed, RefSafe, TokensOk, PeopleOk, BookOk, TokensShrink, UsersEvolve, BookAfter, Fresh, ClientIdTaken,
      ValidClient, NoTokensOfClient, Drawn;
    NothingDrawnYet(a, b, book, used, rt, d);
    ShrinkEvolves(a, b, used);
    DrawnKeepsGood(env, a, book, used, d);
    ClientRowKeepsGood(env, a, b, c, book, used + Drawn(d));
  }

  lemma ClientRemovalKept(env: Env, a: Db, b: Db, id: string, book: Book, used: set<string>, rt: Option<RefreshToken>,
      d: Draws)
    requires Good(env, a, book, used) && Fresh(d, used)
    requires TokensShrink(a, b) && b.users == a.users && b.clients == a.clients - {id} && NoTokensOfClient(b, id)
    ensures Kept(env, a, book, used, b, rt, d)
  {
    assert UsersEvolve(a, b, used);
    hide Indexed, RefSafe, TokensOk, PeopleOk, BookOk, TokensShrink, UsersEvolve, BookAfter, Fresh, NoTokensOfClient;
    NothingDrawnYet(a, b, book, used, rt, d);
    ShrinkEvolves(a, b, used);
    ClientRemovalKeepsGood(env, a, b, id, book, used);
    DrawnKeepsGood(env, b, book, used, d);
  }

  // ---------- Steps that create tokens and codes ----------

  lemma IssuedEvolves(a: Db, m: Db, client: Client, userId: string, scopes: seq<string>, withRefresh: bool,
      codeId: string, used: set<string>, d: Draws)
    requires m.accessTokens == a.accessTokens && m.refreshTokens == a.refreshTokens && m.userTokens == a.userTokens
    requires CodesEvolve(a, m, used) && UsersEvolve(a, m, used) && (codeId == "" || Live(a, codeId))
    ensures Evolves(a, Issued(m, client, userId, scopes, withRefresh, codeId, d), used)
  {
    hide Live, CodesEvolve, UsersEvolve;
    var b := Issued(m, client, userId, scopes, withRefresh, codeId, d);
    assert CodesEvolve(a, b, used) by { SameCodesEvolve(a, m, b, used); }
    assert UsersEvolve(a, b, used) by { SameUsersEvolve(a, m, b, used); }
  }

  lemma SameCodesEvolve(a: Db, m: Db, b: Db, used: set<string>)
    requires CodesEvolve(a, m, used) && b.codes == m.codes
    ensures CodesEvolve(a, b, used)
  {
  }

  lemma SameUsersEvolve(a: Db, m: Db, b: Db, used: set<string>)
    requires UsersEvolve(a, m, used) && b.users == m.users
    ensures UsersEvolve(a, b, used)
  {
  }

  lemma IssuedStores(m: Db, client: Client, userId: string, scopes: seq<string>, withRefresh: bool, codeId: string,
      d: Draws)
    ensures var b := Issued(m, client, userId, scopes, withRefresh, codeId, d);
            d.accessId in b.accessTokens && b.accessTokens[d.accessId].codeId == codeId
  {
  }

  /** Issuing tokens after the contents were prepared: a user row was written, or a code consumed. */
  lemma IssueKept(env: Env, a: Db, m: Db, client: Client, userId: string, scopes: seq<string>, withRefresh: bool,
      codeId: string,
                  book: Book, used: set<string>, d: Draws)
    requires Good(env, m, book, used) && Fresh(d, used) && CodeReady(m, book, used, codeId)
             && Anchored(m, client.id, userId)
    requires m.accessTokens == a.accessTokens && m.refreshTokens == a.refreshTokens && m.userTokens == a.userTokens
    requires CodesEvolve(a, m, used) && UsersEvolve(a, m, used) && (codeId == "" || Live(a, codeId))
    ensures Kept(env, a, book, used, IssueTokens(m, client, userId, scopes, withRefresh, codeId, d).db, None, d)
    ensures IssueTokens(m, client, userId, scopes, withRefresh, codeId, d).result.Ok?
  {
    hide Indexed, RefSafe, TokensOk, PeopleOk, BookOk, Fresh, Live, CodesEvolve, UsersEvolve, CodeReady, Anchored,
      IssueBook, Issued, IssueTokens, Evolves, Drawn;
    IssuedStores(m, client, userId, scopes, withRefresh, codeId, d);
    IssueNeverCollides(m, book, used, client, userId, scopes, withRefresh, codeId, d);
    IssuedKeepsGood(env, m, book, used, client, userId, scopes, withRefresh, codeId, d);
    IssuedEvolves(a, m, client, userId, scopes, withRefresh, codeId, used, d);
  }

  lemma RefreshedEvolves(a: Db, client: Client, rt: RefreshToken, scopes: seq<string>, now: Time, used: set<string>,
      d: Draws)
    requires rt.id in a.refreshTokens && a.refreshTokens[rt.id] == rt
    ensures Evolves(a, Refreshed(a, client, rt, scopes, now, d), used)
  {
    assert Live(a, rt.codeId);
    SuccessorKeepsGrant(rt, now, d);
    hide Live, Successor, NewAccess;
    assert NewAccess(client, rt.userId, scopes, rt.codeId, d.accessId, d.accessValue, d.accessAt).codeId == rt.codeId;
  }

  lemma RefreshKept(env: Env, a: Db, client: Client, rt: RefreshToken, scopes: seq<string>, now: Time, book: Book,
      used: set<string>, d: Draws)
    requires Good(env, a, book, used) && Fresh(d, used)
    requires rt.id in a.refreshTokens && a.refreshTokens[rt.id] == rt && rt.clientId == client.id
    ensures Kept(env, a, book, used, UseRefreshToken(a, client, rt, scopes, now, d).db, Some(rt), d)
    ensures UseRefreshToken(a, client, rt, scopes, now, d).result.Ok?
    ensures UseRefreshToken(a, client, rt, scopes, now, d).db == Refreshed(a, client, rt, scopes, now, d)
  {
    hide Indexed, RefSafe, TokensOk, PeopleOk, BookOk, Fresh, UseBook, Refreshed, UseRefreshToken, Evolves, Drawn,
      RoomToRefresh, RefreshOk, Anchored;
    RoomInGood(env, a, book, used, rt, d);
    RefreshSteps(a, client, rt, scopes, now, d);
    RefreshedKeepsGood(env, a, book, used, client, rt, scopes, now, d);
    RefreshedEvolves(a, client, rt, scopes, now, used, d);
    RefreshedStores(a, client, rt, scopes, now, d);
  }

  lemma RefreshedStores(a: Db, client: Client, rt: RefreshToken, scopes: seq<string>, now: Time, d: Draws)
    ensures d.accessId in Refreshed(a, client, rt, scopes, now, d).accessTokens
  {
  }

  lemma NewCodeKept(env: Env, a: Db, req: AuthorizeRequest, userId: string, now: Time, book: Book, used: set<string>,
      d: Draws)
    requires Good(env, a, book, used) && Fresh(d, used)
    ensures var w := CreateCode(a, NewCode(req, userId, d.refreshId, d.refreshValue, now));
            w.error.None? && Kept(env, a, book, used, w.db, None, d)
  {
    var c := NewCode(req, userId, d.refreshId, d.refreshValue, now);
    assert c.id == d.refreshId && c.codeHash == HashToken(d.refreshValue);
    hide Indexed, RefSafe, TokensOk, PeopleOk, BookOk, Fresh, Evolves, Drawn, AuthCodeOk, CodeHashTaken, NewCode,
      TokensShrink;
    NewCodeOk(c, book, used, d);
    NewCodeEvolves(a, c, used);
    TablesStay(a, a.(codes := a.codes[c.id := c]), book, used, d);
    FreshCodeIsFree(a, book, used, d);
    DrawnKeepsGood(env, a, book, used, d);
    CodeRowKeepsGood(env, a, c, book, used + Drawn(d));
  }

  lemma NewCodeEvolves(a: Db, c: AuthorizationCode, used: set<string>)
    requires c.id !in used
    ensures Evolves(a, a.(codes := a.codes[c.id := c]), used)
  {
    hide Live;
  }

  /** Steps that leave access tokens and user tokens alone leave the books alone. */
  lemma TablesStay(a: Db, b: Db, book: Book, used: set<string>, d: Draws)
    requires Indexed(a) && TokensOk(a, book, used) && Fresh(d, used)
    requires b.accessTokens == a.accessTokens && b.userTokens == a.userTokens
    ensures BookAfter(book, b, None, d) == book
  {
    assert TokensShrink(a, a);
    hide Indexed, TokensOk, Fresh, TokensShrink;
    NothingDrawnYet(a, a, book, used, None, d);
  }

  lemma NewCodeOk(c: AuthorizationCode, book: Book, used: set<string>, d: Draws)
    requires BookOk(book, used) && Fresh(d, used) && c.id == d.refreshId && c.codeHash == HashToken(d.refreshValue)
    ensures AuthCodeOk(c, book, used + Drawn(d)) && c.id !in used
  {
  }

  lemma FreshCodeIsFree(db: Db, book: Book, used: set<string>, d: Draws)
    requires Indexed(db) && TokensOk(db, book, used) && Fresh(d, used)
    ensures !CodeHashTaken(db.codes, HashToken(d.refreshValue)) && d.refreshId !in db.codes
  {
    hide Indexed, TokensOk, CodeHashTaken;
    FreshHashesAreFree(db, book, used, d.refreshId);
    FreshHashesAreFree(db, book, used, d.refreshValue);
  }

  /** Issuing a one-time user token after the contents were prepared. */
  lemma UserTokenKept(env: Env, a: Db, m: Db, userId: string, purpose: Purpose, lifetime: Duration, now: Time,
                      book: Book, used: set<string>, used1: set<string>, d: Draws)
    requires Good(env, m, book, used1) && Fresh(d, used) && used <= used1 <= used + Drawn(d)
    requires d.refreshId !in used1 && d.refreshValue !in used1
    requires m.accessTokens == a.accessTokens && m.refreshTokens == a.refreshTokens && m.userTokens == a.userTokens
             && m.codes == a.codes
    requires UsersEvolve(a, m, used) && d.accessId !in a.accessTokens
    ensures var w := IssueUserToken(m, userId, purpose, lifetime, d.refreshId, d.refreshValue, now);
            w.error.None? && Kept(env, a, book, used, w.db, None, d)
  {
    hide Good, Evolves, UserTokenIssued, IssueUserToken, UsersEvolve;
    UserTokenIssuedEvolves(a, m, userId, purpose, lifetime, now, used, d);
    GoodHasNoEmptyId(env, m, book, used1);
    UserTokenIssueKeepsGood(env, m, userId, purpose, lifetime, d.refreshId, d.refreshValue, now, book, used1,
                            used + Drawn(d));
  }

  lemma GoodHasNoEmptyId(env: Env, db: Db, book: Book, used: set<string>)
    requires Good(env, db, book, used)
    ensures "" !in used
  {
    hide Indexed, RefSafe, TokensOk, PeopleOk;
  }

  lemma UserTokenIssuedEvolves(a: Db, m: Db, userId: string, purpose: Purpose, lifetime: Duration, now: Time,
      used: set<string>, d: Draws)
    requires m.accessTokens == a.accessTokens && m.refreshTokens == a.refreshTokens && m.userTokens == a.userTokens
             && m.codes == a.codes
    requires UsersEvolve(a, m, used) && d.refreshValue !in used && d.accessId !in a.accessTokens
    ensures var b := UserTokenIssued(m, userId, purpose, lifetime, d.refreshId, d.refreshValue, now);
            && Evolves(a, b, used) && d.accessId !in b.accessTokens && d.refreshId in b.userTokens
            && b.userTokens[d.refreshId].userId == userId && b.userTokens[d.refreshId].purpose == purpose
  {
    hide UsersEvolve, Live;
    SameUsersEvolve(a, m, UserTokenIssued(m, userId, purpose, lifetime, d.refreshId, d.refreshValue, now), used);
  }
}
