/** The contents of the store as a value, and what each store operation does to it
    (pkg/store/store.go, pkg/store/memory/memory.go). */
module Database {
  import opened Identity

  datatype StoreError = NotFound | Duplicate | Conflict

  datatype Db = Db(
    clients: map<string, Client>,
    users: map<string, User>,
    accessTokens: map<string, AccessToken>,
    refreshTokens: map<string, RefreshToken>,
    codes: map<string, AuthorizationCode>,
    userTokens: map<string, UserToken>)

  const EMPTY := Db(map[], map[], map[], map[], map[], map[])

  /** The contents after a write, and the error it reports. */
  datatype Written = Written(db: Db, error: Option<StoreError>)

  // ---------- Keys and unique indexes ----------

  ghost predicate ClientTable(m: map<string, Client>) {
    && (forall k :: k in m ==> k != "" && m[k].id == k)
    && (forall j, k :: j in m && k in m && m[j].clientId == m[k].clientId ==> j == k)
  }

  ghost predicate UserTable(m: map<string, User>) {
    && (forall k :: k in m ==> k != "" && m[k].id == k)
    && (forall j, k :: j in m && k in m && m[j].normalizedUsername == m[k].normalizedUsername ==> j == k)
    && (forall j, k :: j in m && k in m && m[j].normalizedEmail == m[k].normalizedEmail ==> j == k)
  }

  ghost predicate AccessTable(m: map<string, AccessToken>) {
    && (forall k :: k in m ==> m[k].id == k)
    && (forall j, k :: j in m && k in m && m[j].tokenHash == m[k].tokenHash ==> j == k)
  }

  ghost predicate RefreshTable(m: map<string, RefreshToken>) {
    && (forall k :: k in m ==> m[k].id == k)
    && (forall j, k :: j in m && k in m && m[j].tokenHash == m[k].tokenHash ==> j == k)
  }

  ghost predicate CodeTable(m: map<string, AuthorizationCode>) {
    && (forall k :: k in m ==> m[k].id == k)
    && (forall j, k :: j in m && k in m && m[j].codeHash == m[k].codeHash ==> j == k)
  }

  ghost predicate UserTokenTable(m: map<string, UserToken>) {
    && (forall k :: k in m ==> m[k].id == k)
    && (forall j, k :: j in m && k in m && m[j].tokenHash == m[k].tokenHash ==> j == k)
  }

  /** Keys match ids, and the unique indexes hold. */
  ghost predicate Indexed(db: Db) {
    && ClientTable(db.clients) && UserTable(db.users) && AccessTable(db.accessTokens)
    && RefreshTable(db.refreshTokens) && CodeTable(db.codes) && UserTokenTable(db.userTokens)
  }

  // ---------- Lookups ----------

  ghost function ClientByClientId(db: Db, clientId: string): (r: Option<Client>)
    ensures r.Some? ==> r.value.clientId == clientId && exists k :: k in db.clients && db.clients[k] == r.value
    ensures r.None? ==> forall k :: k in db.clients ==> db.clients[k].clientId != clientId
  {
    if k :| k in db.clients && db.clients[k].clientId == clientId then Some(db.clients[k]) else None
  }

  ghost function UserByUsername(db: Db, name: string): (r: Option<User>)
    ensures r.Some? ==> r.value.normalizedUsername == name && exists k :: k in db.users && db.users[k] == r.value
    ensures r.None? ==> forall k :: k in db.users ==> db.users[k].normalizedUsername != name
  {
    if k :| k in db.users && db.users[k].normalizedUsername == name then Some(db.users[k]) else None
  }

  ghost function UserByEmail(db: Db, email: string): (r: Option<User>)
    ensures r.Some? ==> r.value.normalizedEmail == email && exists k :: k in db.users && db.users[k] == r.value
    ensures r.None? ==> forall k :: k in db.users ==> db.users[k].normalizedEmail != email
  {
    if k :| k in db.users && db.users[k].normalizedEmail == email then Some(db.users[k]) else None
  }

  ghost function AccessByHash(db: Db, h: Digest): (r: Option<AccessToken>)
    ensures r.Some? ==> r.value.tokenHash == h && exists k :: k in db.accessTokens && db.accessTokens[k] == r.value
    ensures r.None? ==> forall k :: k in db.accessTokens ==> db.accessTokens[k].tokenHash != h
  {
    if k :| k in db.accessTokens && db.accessTokens[k].tokenHash == h then Some(db.accessTokens[k]) else None
  }

  ghost function RefreshByHash(db: Db, h: Digest): (r: Option<RefreshToken>)
    ensures r.Some? ==> r.value.tokenHash == h && exists k :: k in db.refreshTokens && db.refreshTokens[k] == r.value
    ensures r.None? ==> forall k :: k in db.refreshTokens ==> db.refreshTokens[k].tokenHash != h
  {
    if k :| k in db.refreshTokens && db.refreshTokens[k].tokenHash == h then Some(db.refreshTokens[k]) else None
  }

  ghost function CodeByHash(db: Db, h: Digest): (r: Option<AuthorizationCode>)
    ensures r.Some? ==> r.value.codeHash == h && exists k :: k in db.codes && db.codes[k] == r.value
    ensures r.None? ==> forall k :: k in db.codes ==> db.codes[k].codeHash != h
  {
    if k :| k in db.codes && db.codes[k].codeHash == h then Some(db.codes[k]) else None
  }

  ghost function UserTokenByHash(db: Db, purpose: Purpose, h: Digest): (r: Option<UserToken>)
    ensures r.Some? ==> r.value.purpose == purpose && r.value.tokenHash == h
                        && exists k :: k in db.userTokens && db.userTokens[k] == r.value
    ensures r.None? ==> forall k :: k in db.userTokens && db.userTokens[k].tokenHash == h ==>
              db.userTokens[k].purpose != purpose
  {
    if k :| k in db.userTokens && db.userTokens[k].purpose == purpose && db.userTokens[k].tokenHash == h
    then Some(db.userTokens[k]) else None
  }

  // ---------- Clients ----------

  ghost predicate ClientIdTaken(m: map<string, Client>, clientId: string, exceptId: string) {
    exists k :: k in m && m[k].clientId == clientId && m[k].id != exceptId
  }

  ghost function CreateClient(db: Db, c: Client): Written {
    if c.id in db.clients || ClientIdTaken(db.clients, c.clientId, "") then Written(db, Some(Duplicate))
    else Written(db.(clients := db.clients[c.id := c]), None)
  }

  ghost function UpdateClient(db: Db, c: Client): Written {
    if c.id !in db.clients then Written(db, Some(NotFound))
    else if ClientIdTaken(db.clients, c.clientId, c.id) then Written(db, Some(Duplicate))
    else Written(db.(clients := db.clients[c.id := c]), None)
  }

  function DeleteClient(db: Db, id: string): Written {
    if id !in db.clients then Written(db, Some(NotFound))
    else Written(db.(clients := db.clients - {id}), None)
  }

  // ---------- Users ----------

  ghost predicate UserTaken(m: map<string, User>, u: User, exceptId: string) {
    exists k :: k in m && m[k].id != exceptId
                && (m[k].normalizedUsername == u.normalizedUsername || m[k].normalizedEmail == u.normalizedEmail)
  }

  ghost function CreateUser(db: Db, u: User): Written {
    if u.id in db.users || UserTaken(db.users, u, "") then Written(db, Some(Duplicate))
    else Written(db.(users := db.users[u.id := u]), None)
  }

  ghost function UpdateUser(db: Db, u: User): Written {
    if u.id !in db.users then Written(db, Some(NotFound))
    else if UserTaken(db.users, u, u.id) then Written(db, Some(Duplicate))
    else Written(db.(users := db.users[u.id := u]), None)
  }

  function DeleteUser(db: Db, id: string): Written {
    if id !in db.users then Written(db, Some(NotFound))
    else Written(db.(users := db.users - {id}), None)
  }

  // ---------- Access tokens ----------

  ghost predicate AccessHashTaken(m: map<string, AccessToken>, h: Digest) {
    exists k :: k in m && m[k].tokenHash == h
  }

  ghost function CreateAccessToken(db: Db, t: AccessToken): Written {
    if t.id in db.accessTokens || AccessHashTaken(db.accessTokens, t.tokenHash) then Written(db, Some(Duplicate))
    else Written(db.(accessTokens := db.accessTokens[t.id := t]), None)
  }

  function DeleteAccessToken(db: Db, id: string): Written {
    if id !in db.accessTokens then Written(db, Some(NotFound))
    else Written(db.(accessTokens := db.accessTokens - {id}), None)
  }

  function DeleteAccessTokens(db: Db, f: TokenFilter): Db {
    db.(accessTokens := map k | k in db.accessTokens && !MatchAccess(f, db.accessTokens[k]) :: db.accessTokens[k])
  }

  // ---------- Refresh tokens ----------

  ghost predicate RefreshHashTaken(m: map<string, RefreshToken>, h: Digest, exceptId: Option<string>) {
    exists k :: k in m && m[k].tokenHash == h && Some(m[k].id) != exceptId
  }

  ghost function CreateRefreshToken(db: Db, t: RefreshToken): Written {
    if t.id in db.refreshTokens || RefreshHashTaken(db.refreshTokens, t.tokenHash, None)
    then Written(db, Some(Duplicate))
    else Written(db.(refreshTokens := db.refreshTokens[t.id := t]), None)
  }

  ghost function UpdateRefreshToken(db: Db, t: RefreshToken): Written {
    if t.id !in db.refreshTokens then Written(db, Some(NotFound))
    else if RefreshHashTaken(db.refreshTokens, t.tokenHash, Some(t.id)) then Written(db, Some(Duplicate))
    else Written(db.(refreshTokens := db.refreshTokens[t.id := t]), None)
  }

  function DeleteRefreshToken(db: Db, id: string): Written {
    if id !in db.refreshTokens then Written(db, Some(NotFound))
    else Written(db.(refreshTokens := db.refreshTokens - {id}), None)
  }

  function DeleteRefreshTokens(db: Db, f: TokenFilter): Db {
    db.(refreshTokens := map k | k in db.refreshTokens && !MatchRefresh(f, db.refreshTokens[k]) :: db.refreshTokens[k])
  }

  /** Refresh tokens first, then access tokens: the order of every revocation in the source. */
  function RevokeTokens(db: Db, f: TokenFilter): Db {
    DeleteAccessTokens(DeleteRefreshTokens(db, f), f)
  }

  // ---------- Authorization codes ----------

  ghost predicate CodeHashTaken(m: map<string, AuthorizationCode>, h: Digest) {
    exists k :: k in m && m[k].codeHash == h
  }

  ghost function CreateCode(db: Db, c: AuthorizationCode): Written {
    if c.id in db.codes || CodeHashTaken(db.codes, c.codeHash) then Written(db, Some(Duplicate))
    else Written(db.(codes := db.codes[c.id := c]), None)
  }

  function ConsumeCode(db: Db, id: string, at: Time): Written {
    if id !in db.codes then Written(db, Some(NotFound))
    else if db.codes[id].consumedAt.Some? then Written(db, Some(Conflict))
    else Written(db.(codes := db.codes[id := db.codes[id].(consumedAt := Some(at))]), None)
  }

  function DeleteExpiredCodes(db: Db, before: Time): Db {
    db.(codes := map k | k in db.codes && db.codes[k].expiresAt > before :: db.codes[k])
  }

  // ---------- User tokens ----------

  ghost predicate UserTokenHashTaken(m: map<string, UserToken>, h: Digest) {
    exists k :: k in m && m[k].tokenHash == h
  }

  ghost function CreateUserToken(db: Db, t: UserToken): Written {
    if t.id in db.userTokens || UserTokenHashTaken(db.userTokens, t.tokenHash) then Written(db, Some(Duplicate))
    else Written(db.(userTokens := db.userTokens[t.id := t]), None)
  }

  function DeleteUserToken(db: Db, id: string): Written {
    if id !in db.userTokens then Written(db, Some(NotFound))
    else Written(db.(userTokens := db.userTokens - {id}), None)
  }

  function DeleteUserTokens(db: Db, userId: string, purpose: Purpose): Db {
    db.(userTokens := map k | k in db.userTokens && !MatchUserToken(userId, purpose, db.userTokens[k]) ::
                        db.userTokens[k])
  }

  function DeleteExpiredUserTokens(db: Db, before: Time): Db {
    db.(userTokens := map k | k in db.userTokens && db.userTokens[k].expiresAt > before :: db.userTokens[k])
  }

  /** store.DeleteExpired: all four tables. */
  function DeleteExpired(db: Db, now: Time): Db {
    DeleteExpiredUserTokens(
      DeleteExpiredCodes(
        DeleteRefreshTokens(DeleteAccessTokens(db, ExpiredFilter(now)), ExpiredFilter(now)), now), now)
  }

  // ---------- Every write keeps the indexes ----------

  lemma PutClient(m: map<string, Client>, c: Client)
    requires ClientTable(m) && c.id != "" && !ClientIdTaken(m, c.clientId, c.id)
    ensures ClientTable(m[c.id := c])
  {
  }

  lemma PutUser(m: map<string, User>, u: User)
    requires UserTable(m) && u.id != "" && !UserTaken(m, u, u.id)
    ensures UserTable(m[u.id := u])
  {
  }

  lemma PutAccess(m: map<string, AccessToken>, t: AccessToken)
    requires AccessTable(m) && !AccessHashTaken(m, t.tokenHash)
    ensures AccessTable(m[t.id := t])
  {
  }

  lemma PutRefresh(m: map<string, RefreshToken>, t: RefreshToken)
    requires RefreshTable(m) && !RefreshHashTaken(m, t.tokenHash, Some(t.id))
    ensures RefreshTable(m[t.id := t])
  {
  }

  lemma PutCode(m: map<string, AuthorizationCode>, c: AuthorizationCode)
    requires CodeTable(m)
    requires !CodeHashTaken(m, c.codeHash) || (c.id in m && m[c.id].codeHash == c.codeHash)
    ensures CodeTable(m[c.id := c])
  {
  }

  lemma PutUserToken(m: map<string, UserToken>, t: UserToken)
    requires UserTokenTable(m) && !UserTokenHashTaken(m, t.tokenHash)
    ensures UserTokenTable(m[t.id := t])
  {
  }

  /** Every row of a is a row of b. */
  ghost predicate Within<V>(a: map<string, V>, b: map<string, V>) {
    forall k :: k in a ==> k in b && a[k] == b[k]
  }

  /** Only deletions of tokens and codes lead from a to b. */
  ghost predicate TokensShrink(a: Db, b: Db) {
    && Within(b.accessTokens, a.accessTokens)
    && Within(b.refreshTokens, a.refreshTokens)
    && Within(b.codes, a.codes)
    && Within(b.userTokens, a.userTokens)
  }

  lemma FewerClients(m: map<string, Client>, n: map<string, Client>)
    requires ClientTable(m) && Within(n, m)
    ensures ClientTable(n)
  {
  }

  lemma FewerUsers(m: map<string, User>, n: map<string, User>)
    requires UserTable(m) && Within(n, m)
    ensures UserTable(n)
  {
  }

  lemma FewerAccess(m: map<string, AccessToken>, n: map<string, AccessToken>)
    requires AccessTable(m) && Within(n, m)
    ensures AccessTable(n)
  {
  }

  lemma FewerRefresh(m: map<string, RefreshToken>, n: map<string, RefreshToken>)
    requires RefreshTable(m) && Within(n, m)
    ensures RefreshTable(n)
  {
  }

  lemma FewerCodes(m: map<string, AuthorizationCode>, n: map<string, AuthorizationCode>)
    requires CodeTable(m) && Within(n, m)
    ensures CodeTable(n)
  {
  }

  lemma FewerUserTokens(m: map<string, UserToken>, n: map<string, UserToken>)
    requires UserTokenTable(m) && Within(n, m)
    ensures UserTokenTable(n)
  {
  }

  lemma TokenDeletionsKeepIndexes(a: Db, b: Db)
    requires Indexed(a) && TokensShrink(a, b) && ClientTable(b.clients) && UserTable(b.users)
    ensures Indexed(b)
  {
    FewerAccess(a.accessTokens, b.accessTokens);
    FewerRefresh(a.refreshTokens, b.refreshTokens);
    FewerCodes(a.codes, b.codes);
    FewerUserTokens(a.userTokens, b.userTokens);
  }

  /** Why ids must not be empty: a row with an empty id is skipped by the uniqueness test, so
      two clients end up with the same client_id. */
  lemma EmptyIdDefeatsUniqueness(c: Client)
    requires c.id == ""
    ensures var db := CreateClient(EMPTY, c).db;
            var twice := CreateClient(db, c.(id := "other"));
            twice.error.None? && twice.db.clients[""].clientId == twice.db.clients["other"].clientId
  {
    var db := CreateClient(EMPTY, c).db;
    assert db.clients == map["" := c];
    assert !ClientIdTaken(db.clients, c.clientId, "");
    assert "other" !in db.clients;
  }
}
