/** The global invariant of the server when requests run one at a time, and the effect of each
    kind of store change on it. Runs.dfy puts these together for whole requests. */
module Invariants {
  import opened Identity
  import opened Database
  import opened AccountRules
  import opened OAuthRules
  import opened AdminRules

  /** Bookkeeping that the server itself does not do. A family is the set of tokens that descend
      from one grant, named by the id of its first access token. */
  datatype Book = Book(
    family: map<string, string>,               // token id -> family
    newestAccess: map<string, string>,         // family -> the access token minted last
    newestRefresh: map<string, string>,        // family -> the refresh token created last
    codeFamily: map<string, string>,           // used authorization code id -> family
    kinds: map<string, TokenKind>,             // token value -> kind
    newestUserToken: map<(string, Purpose), string>)

  const BLANK_BOOK := Book(map[], map[], map[], map[], map[], map[])

  // ---------- The parts of the invariant ----------

  ghost predicate UserEnabled(db: Db, id: string) {
    id in db.users && db.users[id].enabled
  }

  /** Referential safety: the token names an enabled client and, if any, an enabled user. */
  ghost predicate Anchored(db: Db, clientId: string, userId: string) {
    ClientActive(db, clientId) && (userId != "" ==> UserEnabled(db, userId))
  }

  ghost predicate RefSafe(db: Db) {
    && (forall k :: k in db.accessTokens ==> Anchored(db, db.accessTokens[k].clientId, db.accessTokens[k].userId))
    && (forall k :: k in db.refreshTokens ==> Anchored(db, db.refreshTokens[k].clientId, db.refreshTokens[k].userId))
  }

  ghost predicate CodeOk(book: Book, codeId: string, family: string) {
    codeId != "" ==> codeId in book.codeFamily && book.codeFamily[codeId] == family
  }

  ghost predicate AccessOk(t: AccessToken, book: Book, used: set<string>) {
    && t.id in used && t.tokenHash.preimage in used
    && t.tokenHash.preimage in book.kinds && book.kinds[t.tokenHash.preimage] == AccessKind
    && t.id in book.family
    && var f := book.family[t.id];
       f in book.newestAccess && book.newestAccess[f] == t.id && CodeOk(book, t.codeId, f)
  }

  ghost predicate RefreshOk(t: RefreshToken, book: Book, used: set<string>) {
    && t.id in used && t.tokenHash.preimage in used && t.accessTokenId in used
    && t.tokenHash.preimage in book.kinds && book.kinds[t.tokenHash.preimage] == RefreshKind
    && t.id in book.family
    && var f := book.family[t.id];
       && f in book.newestAccess && book.newestAccess[f] == t.accessTokenId
       && f in book.newestRefresh && book.newestRefresh[f] == t.id
       && CodeOk(book, t.codeId, f)
  }

  /** A code that has not been used yet has no family. */
  ghost predicate AuthCodeOk(c: AuthorizationCode, book: Book, used: set<string>) {
    c.id in used && c.codeHash.preimage in used && (c.consumedAt.None? ==> c.id !in book.codeFamily)
  }

  ghost predicate UserTokenOk(t: UserToken, book: Book, used: set<string>) {
    && t.id in used && t.tokenHash.preimage in used
    && (t.userId, t.purpose) in book.newestUserToken && book.newestUserToken[(t.userId, t.purpose)] == t.id
  }

  predicate CountOk(env: Env, u: User) {
    0 <= u.failedLoginCount && (u.failedLoginCount < env.maxFailedAttempts || u.failedLoginCount == 0)
  }

  ghost predicate UserOk(env: Env, u: User, used: set<string>) {
    u.id in used && u.securityStamp in used && CountOk(env, u)
  }

  ghost predicate BookOk(book: Book, used: set<string>) {
    && "" !in used
    && (forall k :: k in book.family ==> k in used && book.family[k] in used)
    && (forall k :: k in book.codeFamily ==> k in used)
    && (forall k :: k in book.kinds ==> k in used)
  }

  ghost predicate TokensOk(db: Db, book: Book, used: set<string>) {
    && (forall k :: k in db.accessTokens ==> AccessOk(db.accessTokens[k], book, used))
    && (forall k :: k in db.refreshTokens ==> RefreshOk(db.refreshTokens[k], book, used))
    && (forall k :: k in db.codes ==> AuthCodeOk(db.codes[k], book, used))
    && (forall k :: k in db.userTokens ==> UserTokenOk(db.userTokens[k], book, used))
  }

  ghost predicate PeopleOk(env: Env, db: Db, used: set<string>) {
    && (forall k :: k in db.users ==> UserOk(env, db.users[k], used))
    && (forall k :: k in db.clients ==> k in used && ValidClient(env, db.clients[k]))
  }

  ghost predicate Good(env: Env, db: Db, book: Book, used: set<string>) {
    Indexed(db) && RefSafe(db) && BookOk(book, used) && TokensOk(db, book, used) && PeopleOk(env, db, used)
  }

  // ---------- Changing people, and deleting tokens ----------

  lemma TokensStayOk(a: Db, b: Db, book: Book, used: set<string>)
    requires TokensOk(a, book, used) && TokensShrink(a, b)
    ensures TokensOk(b, book, used)
  {
  }

  /** Clients and users may change in any way that keeps their own rules and referential safety,
      while tokens and codes are only deleted. */
  lemma PeopleChangeKeepsGood(env: Env, a: Db, b: Db, book: Book, used: set<string>)
    requires Good(env, a, book, used) && TokensShrink(a, b)
    requires ClientTable(b.clients) && UserTable(b.users) && PeopleOk(env, b, used) && RefSafe(b)
    ensures Good(env, b, book, used)
  {
    hide Indexed, RefSafe, BookOk, TokensOk, PeopleOk, TokensShrink, ClientTable, UserTable;
    TokenDeletionsKeepIndexes(a, b);
    TokensStayOk(a, b, book, used);
  }

  lemma ShrinkKeepsRefSafe(a: Db, b: Db)
    requires RefSafe(a) && TokensShrink(a, b) && b.clients == a.clients && b.users == a.users
    ensures RefSafe(b)
  {
  }

  lemma PeopleUnchanged(env: Env, a: Db, b: Db, used: set<string>)
    requires Indexed(a) && PeopleOk(env, a, used) && b.clients == a.clients && b.users == a.users
    ensures ClientTable(b.clients) && UserTable(b.users) && PeopleOk(env, b, used)
  {
  }

  /** Deleting tokens and codes keeps everything. */
  lemma ShrinkKeepsGood(env: Env, a: Db, b: Db, book: Book, used: set<string>)
    requires Good(env, a, book, used) && TokensShrink(a, b) && b.clients == a.clients && b.users == a.users
    ensures Good(env, b, book, used)
  {
    hide Indexed, RefSafe, BookOk, TokensOk, PeopleOk, TokensShrink, ClientTable, UserTable;
    ShrinkKeepsRefSafe(a, b);
    PeopleUnchanged(env, a, b, used);
    PeopleChangeKeepsGood(env, a, b, book, used);
  }

  // ---------- Drawing values ----------

  lemma TokensOkGrows(db: Db, book: Book, used: set<string>, used': set<string>)
    requires TokensOk(db, book, used) && used <= used'
    ensures TokensOk(db, book, used')
  {
  }

  lemma PeopleOkGrows(env: Env, db: Db, used: set<string>, used': set<string>)
    requires PeopleOk(env, db, used) && used <= used'
    ensures PeopleOk(env, db, used')
  {
  }

  /** Drawing more values keeps everything. */
  lemma MoreUsedKeepsGood(env: Env, db: Db, book: Book, used: set<string>, used': set<string>)
    requires Good(env, db, book, used) && used <= used' && "" !in used'
    ensures Good(env, db, book, used')
  {
    hide Indexed, RefSafe, TokensOk, PeopleOk;
    TokensOkGrows(db, book, used, used');
    PeopleOkGrows(env, db, used, used');
  }

  // ---------- Users and clients ----------

  ghost predicate NoTokensOfUser(db: Db, id: string) {
    && (forall k :: k in db.accessTokens ==> db.accessTokens[k].userId != id)
    && (forall k :: k in db.refreshTokens ==> db.refreshTokens[k].userId != id)
  }

  ghost predicate NoTokensOfClient(db: Db, id: string) {
    && (forall k :: k in db.accessTokens ==> db.accessTokens[k].clientId != id)
    && (forall k :: k in db.refreshTokens ==> db.refreshTokens[k].clientId != id)
  }

  ghost predicate NoTokensOfCode(db: Db, id: string) {
    && (forall k :: k in db.accessTokens ==> db.accessTokens[k].codeId != id)
    && (forall k :: k in db.refreshTokens ==> db.refreshTokens[k].codeId != id)
  }

  /** A revocation removes exactly the tokens that match. */
  lemma RevocationIsComplete(db: Db, id: string)
    requires id != ""
    ensures NoTokensOfUser(RevokeTokens(db, UserFilter(id)), id)
    ensures NoTokensOfClient(RevokeTokens(db, ClientFilter(id)), id)
    ensures NoTokensOfCode(RevokeTokens(db, CodeFilter(id)), id)
    ensures TokensShrink(db, RevokeTokens(db, UserFilter(id)))
    ensures TokensShrink(db, RevokeTokens(db, ClientFilter(id)))
    ensures TokensShrink(db, RevokeTokens(db, CodeFilter(id)))
  {
  }

  lemma SafeAfterUserRow(a: Db, b: Db, u: User)
    requires RefSafe(a) && TokensShrink(a, b) && b.clients == a.clients && b.users == a.users[u.id := u]
    requires u.enabled || NoTokensOfUser(b, u.id)
    ensures RefSafe(b)
  {
  }

  lemma SafeAfterUserRemoval(a: Db, b: Db, id: string)
    requires RefSafe(a) && TokensShrink(a, b) && b.clients == a.clients && b.users == a.users - {id}
    requires NoTokensOfUser(b, id)
    ensures RefSafe(b)
  {
  }

  lemma SafeAfterClientRow(a: Db, b: Db, c: Client)
    requires RefSafe(a) && TokensShrink(a, b) && b.users == a.users && b.clients == a.clients[c.id := c]
    requires c.enabled || NoTokensOfClient(b, c.id)
    ensures RefSafe(b)
  {
  }

  lemma SafeAfterClientRemoval(a: Db, b: Db, id: string)
    requires RefSafe(a) && TokensShrink(a, b) && b.users == a.users && b.clients == a.clients - {id}
    requires NoTokensOfClient(b, id)
    ensures RefSafe(b)
  {
  }

  lemma PeopleAfterUserRow(env: Env, a: Db, b: Db, u: User, used: set<string>)
    requires Indexed(a) && PeopleOk(env, a, used) && b.clients == a.clients && b.users == a.users[u.id := u]
    requires u.id != "" && !UserTaken(a.users, u, u.id) && UserOk(env, u, used)
    ensures ClientTable(b.clients) && UserTable(b.users) && PeopleOk(env, b, used)
  {
    PutUser(a.users, u);
  }

  /** Writing one user row, together with deletions of tokens. */
  lemma UserRowKeepsGood(env: Env, a: Db, b: Db, u: User, book: Book, used: set<string>)
    requires Good(env, a, book, used) && TokensShrink(a, b) && b.clients == a.clients && b.users == a.users[u.id := u]
    requires u.id != "" && !UserTaken(a.users, u, u.id) && UserOk(env, u, used)
    requires u.enabled || NoTokensOfUser(b, u.id)
    ensures Good(env, b, book, used)
  {
    hide Indexed, RefSafe, BookOk, TokensOk, PeopleOk, TokensShrink, ClientTable, UserTable, UserTaken, UserOk,
      NoTokensOfUser;
    SafeAfterUserRow(a, b, u);
    PeopleAfterUserRow(env, a, b, u, used);
    PeopleChangeKeepsGood(env, a, b, book, used);
  }

  lemma PeopleAfterUserRemoval(env: Env, a: Db, b: Db, id: string, used: set<string>)
    requires Indexed(a) && PeopleOk(env, a, used) && b.clients == a.clients && b.users == a.users - {id}
    ensures ClientTable(b.clients) && UserTable(b.users) && PeopleOk(env, b, used)
  {
    FewerUsers(a.users, b.users);
  }

  lemma UserRemovalKeepsGood(env: Env, a: Db, b: Db, id: string, book: Book, used: set<string>)
    requires Good(env, a, book, used) && TokensShrink(a, b) && b.clients == a.clients && b.users == a.users - {id}
    requires NoTokensOfUser(b, id)
    ensures Good(env, b, book, used)
  {
    hide Indexed, RefSafe, BookOk, TokensOk, PeopleOk, TokensShrink, ClientTable, UserTable, NoTokensOfUser;
    SafeAfterUserRemoval(a, b, id);
    PeopleAfterUserRemoval(env, a, b, id, used);
    PeopleChangeKeepsGood(env, a, b, book, used);
  }

  lemma PeopleAfterClientRow(env: Env, a: Db, b: Db, c: Client, used: set<string>)
    requires Indexed(a) && PeopleOk(env, a, used) && b.users == a.users && b.clients == a.clients[c.id := c]
    requires c.id in used && c.id != "" && !ClientIdTaken(a.clients, c.clientId, c.id) && ValidClient(env, c)
    ensures ClientTable(b.clients) && UserTable(b.users) && PeopleOk(env, b, used)
  {
    hide ValidClient;
    PutClient(a.clients, c);
  }

  lemma ClientRowKeepsGood(env: Env, a: Db, b: Db, c: Client, book: Book, used: set<string>)
    requires Good(env, a, book, used) && TokensShrink(a, b) && b.users == a.users && b.clients == a.clients[c.id := c]
    requires c.id in used && c.id != "" && !ClientIdTaken(a.clients, c.clientId, c.id) && ValidClient(env, c)
    requires c.enabled || NoTokensOfClient(b, c.id)
    ensures Good(env, b, book, used)
  {
    hide Indexed, RefSafe, BookOk, TokensOk, PeopleOk, TokensShrink, ClientTable, UserTable, ClientIdTaken,
      ValidClient, NoTokensOfClient;
    SafeAfterClientRow(a, b, c);
    PeopleAfterClientRow(env, a, b, c, used);
    PeopleChangeKeepsGood(env, a, b, book, used);
  }

  lemma PeopleAfterClientRemoval(env: Env, a: Db, b: Db, id: string, used: set<string>)
    requires Indexed(a) && PeopleOk(env, a, used) && b.users == a.users && b.clients == a.clients - {id}
    ensures ClientTable(b.clients) && UserTable(b.users) && PeopleOk(env, b, used)
  {
    hide ValidClient;
    FewerClients(a.clients, b.clients);
  }

  lemma ClientRemovalKeepsGood(env: Env, a: Db, b: Db, id: string, book: Book, used: set<string>)
    requires Good(env, a, book, used) && TokensShrink(a, b) && b.users == a.users && b.clients == a.clients - {id}
    requires NoTokensOfClient(b, id)
    ensures Good(env, b, book, used)
  {
    hide Indexed, RefSafe, BookOk, TokensOk, PeopleOk, TokensShrink, ClientTable, UserTable, NoTokensOfClient;
    SafeAfterClientRemoval(a, b, id);
    PeopleAfterClientRemoval(env, a, b, id, used);
    PeopleChangeKeepsGood(env, a, b, book, used);
  }
}
