/** How issuing, refreshing and consuming keep the global invariant. */
module Minting {
  import opened Identity
  import opened Database
  import opened AccountRules
  import opened OAuthRules
  import opened AdminRules
  import opened Invariants

  // ---------- Adding single rows ----------

  lemma TokensOkWithAccess(db: Db, t: AccessToken, book: Book, used: set<string>)
    requires TokensOk(db, book, used) && AccessOk(t, book, used)
    ensures TokensOk(db.(accessTokens := db.accessTokens[t.id := t]), book, used)
  {
  }

  lemma SafeWithAccess(db: Db, t: AccessToken)
    requires RefSafe(db) && Anchored(db, t.clientId, t.userId)
    ensures RefSafe(db.(accessTokens := db.accessTokens[t.id := t]))
  {
  }

  lemma AccessRowKeepsGood(env: Env, db: Db, t: AccessToken, book: Book, used: set<string>)
    requires Good(env, db, book, used) && AccessOk(t, book, used) && Anchored(db, t.clientId, t.userId)
    requires !AccessHashTaken(db.accessTokens, t.tokenHash)
    ensures Good(env, db.(accessTokens := db.accessTokens[t.id := t]), book, used)
  {
    var b := db.(accessTokens := db.accessTokens[t.id := t]);
    assert Indexed(b) by {
      hide RefSafe, TokensOk, PeopleOk, BookOk, AccessOk, UserTable, ClientTable, RefreshTable, CodeTable,
        UserTokenTable;
      PutAccess(db.accessTokens, t);
    }
    hide Indexed, RefSafe, TokensOk, AccessOk, BookOk, Anchored, AccessHashTaken, UserOk, ValidClient;
    TokensOkWithAccess(db, t, book, used);
    SafeWithAccess(db, t);
  }

  lemma TokensOkWithRefresh(db: Db, t: RefreshToken, book: Book, used: set<string>)
    requires TokensOk(db, book, used) && RefreshOk(t, book, used)
    ensures TokensOk(db.(refreshTokens := db.refreshTokens[t.id := t]), book, used)
  {
  }

  lemma SafeWithRefresh(db: Db, t: RefreshToken)
    requires RefSafe(db) && Anchored(db, t.clientId, t.userId)
    ensures RefSafe(db.(refreshTokens := db.refreshTokens[t.id := t]))
  {
  }

  lemma RefreshRowKeepsGood(env: Env, db: Db, t: RefreshToken, book: Book, used: set<string>)
    requires Good(env, db, book, used) && RefreshOk(t, book, used) && Anchored(db, t.clientId, t.userId)
    requires !RefreshHashTaken(db.refreshTokens, t.tokenHash, None)
    ensures Good(env, db.(refreshTokens := db.refreshTokens[t.id := t]), book, used)
  {
    var b := db.(refreshTokens := db.refreshTokens[t.id := t]);
    assert Indexed(b) by {
      hide RefSafe, TokensOk, PeopleOk, BookOk, RefreshOk, UserTable, ClientTable, AccessTable, CodeTable,
        UserTokenTable;
      PutRefresh(db.refreshTokens, t);
    }
    hide Indexed, RefSafe, TokensOk, RefreshOk, BookOk, Anchored, RefreshHashTaken, UserOk, ValidClient;
    TokensOkWithRefresh(db, t, book, used);
    SafeWithRefresh(db, t);
  }

  // ---------- Fresh values ----------

  predicate DistinctDraws(d: Draws) {
    && d.accessId != "" && d.accessValue != "" && d.refreshId != "" && d.refreshValue != ""
    && d.accessId != d.accessValue && d.accessId != d.refreshId && d.accessId != d.refreshValue
    && d.accessValue != d.refreshId && d.accessValue != d.refreshValue && d.refreshId != d.refreshValue
  }

  function Drawn(d: Draws): set<string> {
    {d.accessId, d.accessValue, d.refreshId, d.refreshValue}
  }

  ghost predicate Fresh(d: Draws, used: set<string>) {
    DistinctDraws(d) && Drawn(d) !! used
  }

  lemma FreshHashesAreFree(db: Db, book: Book, used: set<string>, value: string)
    requires Indexed(db) && TokensOk(db, book, used) && value !in used
    ensures !AccessHashTaken(db.accessTokens, HashToken(value))
    ensures !RefreshHashTaken(db.refreshTokens, HashToken(value), None)
    ensures !CodeHashTaken(db.codes, HashToken(value))
    ensures !UserTokenHashTaken(db.userTokens, HashToken(value))
    ensures value !in db.accessTokens && value !in db.refreshTokens && value !in db.codes && value !in db.userTokens
  {
    hide ClientTable, UserTable;
  }

  // ---------- A new family ----------

  /** The books after tokens are issued for a new grant. */
  function IssueBook(book: Book, codeId: string, d: Draws): Book {
    var f := d.accessId;
    book.(family := book.family[d.accessId := f][d.refreshId := f],
          newestAccess := book.newestAccess[f := d.accessId],
          newestRefresh := book.newestRefresh[f := d.refreshId],
          codeFamily := if codeId == "" then book.codeFamily else book.codeFamily[codeId := f],
          kinds := book.kinds[d.accessValue := AccessKind][d.refreshValue := RefreshKind])
  }

  /** Tokens may be issued for this code id: none, or a code that was just used up. */
  ghost predicate CodeReady(db: Db, book: Book, used: set<string>, codeId: string) {
    codeId != "" ==>
      codeId in used && codeId !in book.codeFamily && (codeId in db.codes ==> db.codes[codeId].consumedAt.Some?)
  }

  lemma AccessInIssueBook(t: AccessToken, book: Book, used: set<string>, codeId: string, d: Draws)
    requires BookOk(book, used) && Fresh(d, used) && codeId !in book.codeFamily && AccessOk(t, book, used)
    ensures AccessOk(t, IssueBook(book, codeId, d), used + Drawn(d))
  {
  }

  lemma RefreshInIssueBook(t: RefreshToken, book: Book, used: set<string>, codeId: string, d: Draws)
    requires BookOk(book, used) && Fresh(d, used) && codeId !in book.codeFamily && RefreshOk(t, book, used)
    ensures RefreshOk(t, IssueBook(book, codeId, d), used + Drawn(d))
  {
  }

  lemma CodeInIssueBook(c: AuthorizationCode, book: Book, used: set<string>, codeId: string, d: Draws)
    requires AuthCodeOk(c, book, used) && (c.id == codeId && codeId != "" ==> c.consumedAt.Some?)
    ensures AuthCodeOk(c, IssueBook(book, codeId, d), used + Drawn(d))
  {
  }

  lemma TokensOkInIssueBook(db: Db, book: Book, used: set<string>, codeId: string, d: Draws)
    requires BookOk(book, used) && TokensOk(db, book, used) && (forall k :: k in db.codes ==> db.codes[k].id == k)
    requires Fresh(d, used) && CodeReady(db, book, used, codeId) && codeId !in book.codeFamily
    ensures TokensOk(db, IssueBook(book, codeId, d), used + Drawn(d))
  {
    assert IssueBook(book, codeId, d).newestUserToken == book.newestUserToken;
    hide AccessOk, RefreshOk, AuthCodeOk, UserTokenOk, BookOk, IssueBook, Fresh, Drawn;
    var book', used' := IssueBook(book, codeId, d), used + Drawn(d);
    forall k | k in db.accessTokens ensures AccessOk(db.accessTokens[k], book', used') {
      AccessInIssueBook(db.accessTokens[k], book, used, codeId, d);
    }
    forall k | k in db.refreshTokens ensures RefreshOk(db.refreshTokens[k], book', used') {
      RefreshInIssueBook(db.refreshTokens[k], book, used, codeId, d);
    }
    forall k | k in db.codes ensures AuthCodeOk(db.codes[k], book', used') {
      CodeInIssueBook(db.codes[k], book, used, codeId, d);
    }
    forall k | k in db.userTokens ensures UserTokenOk(db.userTokens[k], book', used') {
      UserTokenInBook(db.userTokens[k], book, used, book', used');
    }
  }

  lemma UserTokenInBook(t: UserToken, book: Book, used: set<string>, book': Book, used': set<string>)
    requires UserTokenOk(t, book, used) && book'.newestUserToken == book.newestUserToken && used <= used'
    ensures UserTokenOk(t, book', used')
  {
  }

  lemma IssueBookOk(book: Book, used: set<string>, codeId: string, d: Draws)
    requires BookOk(book, used) && Fresh(d, used) && (codeId != "" ==> codeId in used)
    ensures BookOk(IssueBook(book, codeId, d), used + Drawn(d))
  {
  }

  lemma IssueBookKeepsGood(env: Env, db: Db, book: Book, used: set<string>, codeId: string, d: Draws)
    requires Good(env, db, book, used) && Fresh(d, used) && CodeReady(db, book, used, codeId)
    ensures Good(env, db, IssueBook(book, codeId, d), used + Drawn(d))
  {
    assert forall k :: k in db.codes ==> db.codes[k].id == k by {
      hide RefSafe, TokensOk, PeopleOk, BookOk, ClientTable, UserTable;
    }
    hide Indexed, RefSafe, TokensOk, PeopleOk, Fresh, IssueBook;
    assert codeId !in book.codeFamily;
    IssueBookOk(book, used, codeId, d);
    TokensOkInIssueBook(db, book, used, codeId, d);
    PeopleOkGrows(env, db, used, used + Drawn(d));
  }

  /** What IssueTokens does when nothing collides. */
  function Issued(db: Db, client: Client, userId: string, scopes: seq<string>, withRefresh: bool, codeId: string,
      d: Draws): Db {
    var access := NewAccess(client, userId, scopes, codeId, d.accessId, d.accessValue, d.accessAt);
    var refresh := NewRefresh(client, access, d.refreshId, d.refreshValue, d.refreshAt);
    var one := db.(accessTokens := db.accessTokens[access.id := access]);
    if withRefresh && client.AllowsGrant(RefreshTokenGrantType)
    then one.(refreshTokens := one.refreshTokens[refresh.id := refresh]) else one
  }

  lemma IssueNeverCollides(db: Db, book: Book, used: set<string>, client: Client, userId: string, scopes: seq<string>,
      withRefresh: bool, codeId: string, d: Draws)
    requires Indexed(db) && TokensOk(db, book, used) && Fresh(d, used)
    ensures var r := IssueTokens(db, client, userId, scopes, withRefresh, codeId, d);
            r.db == Issued(db, client, userId, scopes, withRefresh, codeId, d) && r.result.Ok?
  {
    hide Indexed, TokensOk, AccessHashTaken, RefreshHashTaken, Fresh;
    FreshPairIsFree(db, book, used, d);
  }

  lemma NewRowsOk(book: Book, used: set<string>, client: Client, userId: string, scopes: seq<string>, codeId: string,
      d: Draws)
    requires Fresh(d, used)
    ensures var access := NewAccess(client, userId, scopes, codeId, d.accessId, d.accessValue, d.accessAt);
            AccessOk(access, IssueBook(book, codeId, d), used + Drawn(d))
            && RefreshOk(NewRefresh(client, access, d.refreshId, d.refreshValue, d.refreshAt),
                         IssueBook(book, codeId, d), used + Drawn(d))
  {
  }

  lemma IssuedKeepsGood(env: Env, db: Db, book: Book, used: set<string>, client: Client, userId: string,
      scopes: seq<string>, withRefresh: bool, codeId: string, d: Draws)
    requires Good(env, db, book, used) && Fresh(d, used) && CodeReady(db, book, used, codeId)
    requires Anchored(db, client.id, userId)
    ensures Good(env, Issued(db, client, userId, scopes, withRefresh, codeId, d), IssueBook(book, codeId, d),
                 used + Drawn(d))
  {
    hide Indexed, RefSafe, PeopleOk, TokensOk, BookOk, AccessOk, RefreshOk, AccessHashTaken, RefreshHashTaken,
      CodeReady, IssueBook,
      Anchored, ClientActive, UserEnabled, Drawn, OrDefault;
    var book', used' := IssueBook(book, codeId, d), used + Drawn(d);
    var access := NewAccess(client, userId, scopes, codeId, d.accessId, d.accessValue, d.accessAt);
    var refresh := NewRefresh(client, access, d.refreshId, d.refreshValue, d.refreshAt);
    var one := db.(accessTokens := db.accessTokens[access.id := access]);
    FreshPairIsFree(db, book, used, d);
    NewRowsOk(book, used, client, userId, scopes, codeId, d);
    IssueBookKeepsGood(env, db, book, used, codeId, d);
    AccessRowKeepsGood(env, db, access, book', used');
    AnchoredDependsOnPeople(db, one, client.id, userId);
    RefreshRowKeepsGood(env, one, refresh, book', used');
  }

  lemma AnchoredDependsOnPeople(a: Db, b: Db, clientId: string, userId: string)
    requires Anchored(a, clientId, userId) && a.clients == b.clients && a.users == b.users
    ensures Anchored(b, clientId, userId)
  {
  }

  lemma FreshPairIsFree(db: Db, book: Book, used: set<string>, d: Draws)
    requires Indexed(db) && TokensOk(db, book, used) && Fresh(d, used)
    ensures !AccessHashTaken(db.accessTokens, HashToken(d.accessValue))
    ensures !RefreshHashTaken(db.refreshTokens, HashToken(d.refreshValue), None)
    ensures d.accessId !in db.accessTokens && d.refreshId !in db.refreshTokens
  {
    hide Indexed, TokensOk, AccessHashTaken, RefreshHashTaken;
    FreshHashesAreFree(db, book, used, d.accessValue);
    FreshHashesAreFree(db, book, used, d.accessId);
    FreshHashesAreFree(db, book, used, d.refreshValue);
    FreshHashesAreFree(db, book, used, d.refreshId);
  }

  // ---------- Going on with a family ----------

  /** The books after a refresh token was used. */
  function UseBook(book: Book, rt: RefreshToken, d: Draws): Book
    requires rt.id in book.family
  {
    var f := book.family[rt.id];
    book.(family := book.family[d.accessId := f][d.refreshId := f],
          newestAccess := book.newestAccess[f := d.accessId],
          newestRefresh := if rt.usage == OneTime then book.newestRefresh[f := d.refreshId] else book.newestRefresh,
          kinds := book.kinds[d.accessValue := AccessKind][d.refreshValue := RefreshKind])
  }

  ghost predicate NoTokensOfFamily(db: Db, book: Book, f: string) {
    && (forall k :: k in db.accessTokens && k in book.family ==> book.family[k] != f)
    && (forall k :: k in db.refreshTokens && k in book.family ==> book.family[k] != f)
  }

  /** The contents without the refresh token and the access token it links to. */
  function WithoutPair(db: Db, rt: RefreshToken): Db {
    db.(accessTokens := db.accessTokens - {rt.accessTokenId}, refreshTokens := db.refreshTokens - {rt.id})
  }

  /** A stored refresh token and its access token are all there is of their family. */
  lemma PairIsTheFamily(db: Db, book: Book, used: set<string>, rt: RefreshToken)
    requires Indexed(db) && TokensOk(db, book, used) && rt.id in db.refreshTokens && db.refreshTokens[rt.id] == rt
    ensures rt.id in book.family && NoTokensOfFamily(WithoutPair(db, rt), book, book.family[rt.id])
    ensures TokensShrink(db, WithoutPair(db, rt))
    ensures forall k :: k in db.accessTokens && k != rt.accessTokenId ==>
              k in book.family && book.family[k] != book.family[rt.id]
    ensures forall k :: k in db.refreshTokens && k != rt.id ==> k in book.family && book.family[k] != book.family[rt.id]
  {
    hide ClientTable, UserTable, CodeTable, UserTokenTable;
  }

  lemma AccessInUseBook(t: AccessToken, book: Book, used: set<string>, rt: RefreshToken, d: Draws)
    requires BookOk(book, used) && Fresh(d, used) && AccessOk(t, book, used)
    requires rt.id in book.family && book.family[t.id] != book.family[rt.id]
    ensures AccessOk(t, UseBook(book, rt, d), used + Drawn(d))
  {
  }

  lemma RefreshInUseBook(t: RefreshToken, book: Book, used: set<string>, rt: RefreshToken, d: Draws)
    requires BookOk(book, used) && Fresh(d, used) && RefreshOk(t, book, used)
    requires rt.id in book.family && book.family[t.id] != book.family[rt.id]
    ensures RefreshOk(t, UseBook(book, rt, d), used + Drawn(d))
  {
  }

  lemma CodeInUseBook(c: AuthorizationCode, book: Book, used: set<string>, rt: RefreshToken, d: Draws)
    requires AuthCodeOk(c, book, used) && rt.id in book.family
    ensures AuthCodeOk(c, UseBook(book, rt, d), used + Drawn(d))
  {
  }

  lemma TokensOkInUseBook(db: Db, book: Book, used: set<string>, rt: RefreshToken, d: Draws)
    requires BookOk(book, used) && TokensOk(db, book, used) && Fresh(d, used)
    requires forall k :: k in db.accessTokens ==> db.accessTokens[k].id == k
    requires forall k :: k in db.refreshTokens ==> db.refreshTokens[k].id == k
    requires rt.id in book.family && NoTokensOfFamily(db, book, book.family[rt.id])
    ensures TokensOk(db, UseBook(book, rt, d), used + Drawn(d))
  {
    assert UseBook(book, rt, d).newestUserToken == book.newestUserToken;
    hide AuthCodeOk, UserTokenOk, BookOk, UseBook, Fresh, Drawn;
    var book', used' := UseBook(book, rt, d), used + Drawn(d);
    forall k | k in db.accessTokens ensures AccessOk(db.accessTokens[k], book', used') {
      AccessInUseBook(db.accessTokens[k], book, used, rt, d);
    }
    forall k | k in db.refreshTokens ensures RefreshOk(db.refreshTokens[k], book', used') {
      RefreshInUseBook(db.refreshTokens[k], book, used, rt, d);
    }
    forall k | k in db.codes ensures AuthCodeOk(db.codes[k], book', used') {
      CodeInUseBook(db.codes[k], book, used, rt, d);
    }
    forall k | k in db.userTokens ensures UserTokenOk(db.userTokens[k], book', used') {
      UserTokenInBook(db.userTokens[k], book, used, book', used');
    }
  }

  lemma UseBookOk(book: Book, used: set<string>, rt: RefreshToken, d: Draws)
    requires BookOk(book, used) && Fresh(d, used) && rt.id in book.family
    ensures BookOk(UseBook(book, rt, d), used + Drawn(d))
  {
  }

  lemma UseBookKeepsGood(env: Env, db: Db, book: Book, used: set<string>, rt: RefreshToken, d: Draws)
    requires Good(env, db, book, used) && Fresh(d, used)
    requires rt.id in book.family && NoTokensOfFamily(db, book, book.family[rt.id])
    ensures Good(env, db, UseBook(book, rt, d), used + Drawn(d))
  {
    assert (forall k :: k in db.accessTokens ==> db.accessTokens[k].id == k)
           && (forall k :: k in db.refreshTokens ==> db.refreshTokens[k].id == k) by {
      hide RefSafe, TokensOk, PeopleOk, BookOk, ClientTable, UserTable;
    }
    hide Indexed, RefSafe, TokensOk, PeopleOk, BookOk, Fresh, UseBook, NoTokensOfFamily;
    UseBookOk(book, used, rt, d);
    TokensOkInUseBook(db, book, used, rt, d);
    PeopleOkGrows(env, db, used, used + Drawn(d));
  }

  /** The refresh token after the use: rotated, or linked to the new access token. */
  function Successor(rt: RefreshToken, now: Time, d: Draws): RefreshToken {
    if rt.usage == OneTime then Rotated(rt, d.accessId, d.refreshId, d.refreshValue, now)
    else Reused(rt, d.accessId, now)
  }

  /** What UseRefreshToken does when nothing collides. */
  function Refreshed(db: Db, client: Client, rt: RefreshToken, scopes: seq<string>, now: Time, d: Draws): Db {
    var access := NewAccess(client, rt.userId, scopes, rt.codeId, d.accessId, d.accessValue, d.accessAt);
    var next := Successor(rt, now, d);
    var rest := WithoutPair(db, rt);
    rest.(accessTokens := rest.accessTokens[access.id := access], refreshTokens := rest.refreshTokens[next.id := next])
  }

  /** Nothing that a refresh writes is taken. */
  ghost predicate RoomToRefresh(db: Db, rt: RefreshToken, d: Draws) {
    && rt.id in db.refreshTokens && rt.accessTokenId != "" && rt.id != d.refreshId
    && !AccessHashTaken(db.accessTokens, HashToken(d.accessValue))
    && !RefreshHashTaken(db.refreshTokens, HashToken(d.refreshValue), None)
    && !RefreshHashTaken(db.refreshTokens, rt.tokenHash, Some(rt.id))
    && d.accessId !in db.accessTokens && d.refreshId !in db.refreshTokens
    && (forall k :: k in db.refreshTokens ==> db.refreshTokens[k].id == k)
  }

  lemma RefreshSteps(db: Db, client: Client, rt: RefreshToken, scopes: seq<string>, now: Time, d: Draws)
    requires RoomToRefresh(db, rt, d)
    ensures var r := UseRefreshToken(db, client, rt, scopes, now, d);
            r.db == Refreshed(db, client, rt, scopes, now, d) && r.result.Ok?
  {
    var access := NewAccess(client, rt.userId, scopes, rt.codeId, d.accessId, d.accessValue, d.accessAt);
    assert access.id == d.accessId && access.tokenHash == HashToken(d.accessValue);
    var minted := db.(accessTokens := (db.accessTokens - {rt.accessTokenId})[access.id := access]);
    MintSteps(db, access, rt, d);
    hide RoomToRefresh, WithoutAccess, CreateAccessToken, DeleteRefreshToken, CreateRefreshToken, UpdateRefreshToken,
      NewAccess, Rotated, Reused;
    if rt.usage == OneTime {
      RotateSteps(db, minted, rt, now, d);
    } else {
      ReuseSteps(db, minted, rt, now, d);
    }
  }

  lemma MintSteps(db: Db, access: AccessToken, rt: RefreshToken, d: Draws)
    requires RoomToRefresh(db, rt, d) && access.id == d.accessId && access.tokenHash == HashToken(d.accessValue)
    ensures CreateAccessToken(WithoutAccess(db, rt.accessTokenId), access)
         == Written(db.(accessTokens := (db.accessTokens - {rt.accessTokenId})[access.id := access]), None)
  {
    assert WithoutAccess(db, rt.accessTokenId).accessTokens == db.accessTokens - {rt.accessTokenId};
  }

  lemma RotateSteps(db: Db, minted: Db, rt: RefreshToken, now: Time, d: Draws)
    requires RoomToRefresh(db, rt, d) && minted.refreshTokens == db.refreshTokens
    ensures var next := Rotated(rt, d.accessId, d.refreshId, d.refreshValue, now);
            var gone := DeleteRefreshToken(minted, rt.id);
            && gone.error.None?
            && CreateRefreshToken(gone.db, next)
               == Written(minted.(refreshTokens := (db.refreshTokens - {rt.id})[next.id := next]), None)
  {
  }

  lemma ReuseSteps(db: Db, minted: Db, rt: RefreshToken, now: Time, d: Draws)
    requires RoomToRefresh(db, rt, d) && minted.refreshTokens == db.refreshTokens
    ensures var next := Reused(rt, d.accessId, now);
            UpdateRefreshToken(minted, next)
              == Written(minted.(refreshTokens := (db.refreshTokens - {rt.id})[next.id := next]), None)
  {
    var next := Reused(rt, d.accessId, now);
    assert next.id == rt.id && next.tokenHash == rt.tokenHash;
    assert db.refreshTokens[rt.id := next] == (db.refreshTokens - {rt.id})[rt.id := next];
  }

  lemma SuccessorOk(rt: RefreshToken, client: Client, scopes: seq<string>, book: Book, used: set<string>, now: Time,
      d: Draws)
    requires BookOk(book, used) && RefreshOk(rt, book, used) && Fresh(d, used)
    ensures RefreshOk(Successor(rt, now, d), UseBook(book, rt, d), used + Drawn(d))
    ensures AccessOk(NewAccess(client, rt.userId, scopes, rt.codeId, d.accessId, d.accessValue, d.accessAt),
                     UseBook(book, rt, d), used + Drawn(d))
  {
  }

  lemma HashIsItsOwn(m: map<string, RefreshToken>, rt: RefreshToken)
    requires RefreshTable(m) && rt.id in m && m[rt.id] == rt
    ensures !RefreshHashTaken(m, rt.tokenHash, Some(rt.id))
    ensures forall k :: k in m ==> m[k].id == k
  {
  }

  lemma StoredRowIsOk(env: Env, db: Db, book: Book, used: set<string>, rt: RefreshToken)
    requires Good(env, db, book, used) && rt.id in db.refreshTokens && db.refreshTokens[rt.id] == rt
    ensures RefreshOk(rt, book, used) && Anchored(db, rt.clientId, rt.userId) && RefreshTable(db.refreshTokens)
            && "" !in used
  {
    hide ClientTable, UserTable, AccessTable, RefreshTable, UserTokenTable, CodeTable, PeopleOk, RefreshOk, AccessOk,
      AuthCodeOk, UserTokenOk, Anchored;
  }

  lemma RoomInGood(env: Env, db: Db, book: Book, used: set<string>, rt: RefreshToken, d: Draws)
    requires Good(env, db, book, used) && Fresh(d, used) && rt.id in db.refreshTokens && db.refreshTokens[rt.id] == rt
    ensures RoomToRefresh(db, rt, d) && RefreshOk(rt, book, used) && Anchored(db, rt.clientId, rt.userId)
  {
    hide Indexed, ClientTable, UserTable, RefreshTable, TokensOk, RefSafe, PeopleOk, BookOk, AccessHashTaken,
      RefreshHashTaken, Anchored;
    StoredRowIsOk(env, db, book, used, rt);
    HashIsItsOwn(db.refreshTokens, rt);
    FreshPairIsFree(db, book, used, d);
  }

  lemma SuccessorKeepsGrant(rt: RefreshToken, now: Time, d: Draws)
    ensures var next := Successor(rt, now, d);
            next.clientId == rt.clientId && next.userId == rt.userId && next.codeId == rt.codeId
            && next.scopes == rt.scopes
  {
  }

  lemma FreeWithoutPair(db: Db, rt: RefreshToken, now: Time, d: Draws)
    requires RoomToRefresh(db, rt, d)
    ensures !AccessHashTaken(WithoutPair(db, rt).accessTokens, HashToken(d.accessValue))
    ensures !RefreshHashTaken(WithoutPair(db, rt).refreshTokens, Successor(rt, now, d).tokenHash, None)
  {
  }

  lemma RefreshedKeepsGood(env: Env, db: Db, book: Book, used: set<string>, client: Client, rt: RefreshToken,
      scopes: seq<string>, now: Time, d: Draws)
    requires Good(env, db, book, used) && Fresh(d, used)
    requires rt.id in db.refreshTokens && db.refreshTokens[rt.id] == rt && rt.clientId == client.id
    ensures rt.id in book.family
    ensures Good(env, Refreshed(db, client, rt, scopes, now, d), UseBook(book, rt, d), used + Drawn(d))
  {
    hide Indexed, RefSafe, TokensOk, PeopleOk, TokensShrink, RefreshOk, AccessOk, UseBook, Drawn, Fresh, Anchored,
      AccessHashTaken, RefreshHashTaken, RoomToRefresh, NoTokensOfFamily, Successor, OrDefault, BookOk;
    RoomInGood(env, db, book, used, rt, d);
    PairIsTheFamily(db, book, used, rt);
    SuccessorOk(rt, client, scopes, book, used, now, d);
    var access := NewAccess(client, rt.userId, scopes, rt.codeId, d.accessId, d.accessValue, d.accessAt);
    var next := Successor(rt, now, d);
    var rest, book', used' := WithoutPair(db, rt), UseBook(book, rt, d), used + Drawn(d);
    var one := rest.(accessTokens := rest.accessTokens[access.id := access]);
    FreeWithoutPair(db, rt, now, d);
    SuccessorKeepsGrant(rt, now, d);
    ShrinkKeepsGood(env, db, rest, book, used);
    UseBookKeepsGood(env, rest, book, used, rt, d);
    AnchoredDependsOnPeople(db, rest, rt.clientId, rt.userId);
    AccessRowKeepsGood(env, rest, access, book', used');
    AnchoredDependsOnPeople(db, one, rt.clientId, rt.userId);
    RefreshRowKeepsGood(env, one, next, book', used');
  }

  // ---------- Codes ----------

  lemma OtherTablesKeepPeople(env: Env, a: Db, b: Db, used: set<string>)
    requires RefSafe(a) && PeopleOk(env, a, used) && b.clients == a.clients && b.users == a.users
    requires b.accessTokens == a.accessTokens && b.refreshTokens == a.refreshTokens
    ensures RefSafe(b) && PeopleOk(env, b, used)
  {
  }

  lemma CodeRow(db: Db, c: AuthorizationCode, book: Book, used: set<string>)
    requires Indexed(db) && TokensOk(db, book, used) && AuthCodeOk(c, book, used)
    requires !CodeHashTaken(db.codes, c.codeHash) || (c.id in db.codes && db.codes[c.id].codeHash == c.codeHash)
    ensures Indexed(db.(codes := db.codes[c.id := c])) && TokensOk(db.(codes := db.codes[c.id := c]), book, used)
  {
    hide ClientTable, UserTable, AccessTable, RefreshTable, UserTokenTable, CodeTable, AccessOk, RefreshOk,
      AuthCodeOk, UserTokenOk, CodeHashTaken;
    PutCode(db.codes, c);
  }

  lemma CodeRowKeepsGood(env: Env, db: Db, c: AuthorizationCode, book: Book, used: set<string>)
    requires Good(env, db, book, used) && AuthCodeOk(c, book, used)
    requires !CodeHashTaken(db.codes, c.codeHash) || (c.id in db.codes && db.codes[c.id].codeHash == c.codeHash)
    ensures Good(env, db.(codes := db.codes[c.id := c]), book, used)
  {
    hide Indexed, RefSafe, TokensOk, PeopleOk, BookOk, AuthCodeOk, CodeHashTaken;
    CodeRow(db, c, book, used);
    OtherTablesKeepPeople(env, db, db.(codes := db.codes[c.id := c]), used);
  }

  /** A code can be consumed only once, and tokens may then be issued for it. */
  lemma ConsumeKeepsGood(env: Env, db: Db, id: string, at: Time, book: Book, used: set<string>)
    requires Good(env, db, book, used) && id in db.codes && db.codes[id].consumedAt.None?
    ensures Good(env, ConsumeCode(db, id, at).db, book, used) && CodeReady(ConsumeCode(db, id, at).db, book, used, id)
  {
    var c := db.codes[id].(consumedAt := Some(at));
    assert c.id == id by {
      hide RefSafe, TokensOk, PeopleOk, BookOk, UserTable, ClientTable;
    }
    assert AuthCodeOk(db.codes[id], book, used) by {
      hide Indexed, RefSafe, PeopleOk, BookOk, AuthCodeOk;
    }
    hide Indexed, RefSafe, TokensOk, PeopleOk, BookOk;
    CodeRowKeepsGood(env, db, c, book, used);
  }

  // ---------- One-time user tokens ----------

  /** The books after a user token was created. */
  function UserTokenBook(book: Book, userId: string, purpose: Purpose, id: string): Book {
    book.(newestUserToken := book.newestUserToken[(userId, purpose) := id])
  }

  lemma UserTokensOkInBook(db: Db, userId: string, purpose: Purpose, id: string, book: Book, used: set<string>)
    requires TokensOk(db, book, used)
    ensures TokensOk(DeleteUserTokens(db, userId, purpose), UserTokenBook(book, userId, purpose, id), used)
  {
  }

  lemma UserTokenRow(db: Db, t: UserToken, book: Book, used: set<string>)
    requires Indexed(db) && TokensOk(db, book, used) && UserTokenOk(t, book, used)
             && !UserTokenHashTaken(db.userTokens, t.tokenHash)
    ensures Indexed(db.(userTokens := db.userTokens[t.id := t]))
            && TokensOk(db.(userTokens := db.userTokens[t.id := t]), book, used)
  {
    hide ClientTable, UserTable, AccessTable, RefreshTable, UserTokenTable, CodeTable, AccessOk, RefreshOk,
      AuthCodeOk, UserTokenOk, UserTokenHashTaken;
    PutUserToken(db.userTokens, t);
  }

  lemma UserTokenRowKeepsGood(env: Env, db: Db, t: UserToken, book: Book, used: set<string>)
    requires Good(env, db, book, used) && UserTokenOk(t, book, used) && !UserTokenHashTaken(db.userTokens, t.tokenHash)
    ensures Good(env, db.(userTokens := db.userTokens[t.id := t]), book, used)
  {
    hide Indexed, RefSafe, TokensOk, PeopleOk, BookOk, UserTokenOk, UserTokenHashTaken;
    UserTokenRow(db, t, book, used);
    OtherTablesKeepPeople(env, db, db.(userTokens := db.userTokens[t.id := t]), used);
  }

  /** What IssueUserToken does when nothing collides. */
  function UserTokenIssued(db: Db, userId: string, purpose: Purpose, lifetime: Duration, id: string, value: string,
      now: Time): Db {
    var rest := DeleteUserTokens(db, userId, purpose);
    rest.(userTokens := rest.userTokens[id := UserToken(id, userId, purpose, HashToken(value), now, now + lifetime)])
  }

  lemma UserTokenIssueKeepsGood(env: Env, db: Db, userId: string, purpose: Purpose, lifetime: Duration, id: string,
      value: string, now: Time,
                                book: Book, used: set<string>, used': set<string>)
    requires Good(env, db, book, used) && id !in used && value !in used
    requires used <= used' && id in used' && value in used' && "" !in used'
    ensures IssueUserToken(db, userId, purpose, lifetime, id, value, now)
         == Written(UserTokenIssued(db, userId, purpose, lifetime, id, value, now), None)
    ensures Good(env, UserTokenIssued(db, userId, purpose, lifetime, id, value, now),
                 UserTokenBook(book, userId, purpose, id), used')
  {
    hide Indexed, RefSafe, TokensOk, PeopleOk, TokensShrink, UserTokenHashTaken, BookOk, DeleteUserTokens;
    var rest, book' := DeleteUserTokens(db, userId, purpose), UserTokenBook(book, userId, purpose, id);
    var t := UserToken(id, userId, purpose, HashToken(value), now, now + lifetime);
    UserTokenDeletionShrinks(db, userId, purpose);
    ShrinkKeepsGood(env, db, rest, book, used);
    UserTokensOkInBook(db, userId, purpose, id, book, used);
    FreshHashesAreFree(rest, book, used, id);
    FreshHashesAreFree(rest, book, used, value);
    UserTokenBookOk(book, userId, purpose, id, used);
    MoreUsedKeepsGood(env, rest, book', used, used');
    assert UserTokenOk(t, book', used');
    UserTokenRowKeepsGood(env, rest, t, book', used');
  }

  lemma UserTokenDeletionShrinks(db: Db, userId: string, purpose: Purpose)
    ensures var rest := DeleteUserTokens(db, userId, purpose);
            && TokensShrink(db, rest) && rest.clients == db.clients && rest.users == db.users
            && rest.accessTokens == db.accessTokens && rest.refreshTokens == db.refreshTokens && rest.codes == db.codes
  {
  }

  lemma UserTokenBookOk(book: Book, userId: string, purpose: Purpose, id: string, used: set<string>)
    requires BookOk(book, used)
    ensures BookOk(UserTokenBook(book, userId, purpose, id), used)
  {
  }
}
