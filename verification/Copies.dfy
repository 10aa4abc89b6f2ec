/** The six tables of the memory store, seen as tables of row objects: what their slices and
    pointers are, and that the operations of Aliasing.Table do to the values what Database says the
    store does. MemoryStore.Store holds these values; here they are held in memory of their own. */
module Copies {
  import opened Identity
  import opened Database
  import opened AccountRules
  import opened OAuthRules
  import opened Aliasing

  // ---------- Rows as values ----------

  function Part<H>(image: Image<H>, i: nat): Option<Content> {
    if i < |image.contents| then image.contents[i] else None
  }

  /** A nil slice reads as an empty one. */
  function StringsIn(c: Option<Content>): seq<string> {
    if c.Some? && c.value.Strings? then c.value.strings else []
  }

  function GrantsIn(c: Option<Content>): seq<GrantType> {
    if c.Some? && c.value.Grants? then c.value.grants else []
  }

  function TimeIn(c: Option<Content>): Option<Time> {
    if c.Some? && c.value.At? then Some(c.value.time) else None
  }

  /** cloneClient copies four slices. */
  function ClientOf(image: Image<Client>): Client {
    image.head.(redirectUris := StringsIn(Part(image, 0)), allowedScopes := StringsIn(Part(image, 1)),
                defaultScopes := StringsIn(Part(image, 2)), grantTypes := GrantsIn(Part(image, 3)))
  }

  /** cloneUser copies two times. */
  function UserOf(image: Image<User>): User {
    image.head.(lockoutEnd := TimeIn(Part(image, 0)), lastLoginAt := TimeIn(Part(image, 1)))
  }

  function AccessOf(image: Image<AccessToken>): AccessToken { image.head.(scopes := StringsIn(Part(image, 0))) }

  function RefreshOf(image: Image<RefreshToken>): RefreshToken { image.head.(scopes := StringsIn(Part(image, 0))) }

  /** cloneAuthorizationCode copies a slice and a time. */
  function CodeOf(image: Image<AuthorizationCode>): AuthorizationCode {
    image.head.(scopes := StringsIn(Part(image, 0)), consumedAt := TimeIn(Part(image, 1)))
  }

  function UserTokenOf(image: Image<UserToken>): UserToken { image.head }

  // ---------- Tables as values ----------

  function Viewed<H>(m: map<string, Image<H>>, view: Image<H> -> H): map<string, H> { map k | k in m :: view(m[k]) }

  function Clients(m: map<string, Image<Client>>): map<string, Client> { Viewed(m, ClientOf) }

  function Users(m: map<string, Image<User>>): map<string, User> { Viewed(m, UserOf) }

  function AccessTokens(m: map<string, Image<AccessToken>>): map<string, AccessToken> { Viewed(m, AccessOf) }

  function RefreshTokens(m: map<string, Image<RefreshToken>>): map<string, RefreshToken> { Viewed(m, RefreshOf) }

  function Codes(m: map<string, Image<AuthorizationCode>>): map<string, AuthorizationCode> { Viewed(m, CodeOf) }

  function UserTokens(m: map<string, Image<UserToken>>): map<string, UserToken> { Viewed(m, UserTokenOf) }

  // ---------- Ids and unique fields ----------

  function RefreshId(t: RefreshToken): string { t.id }

  function UserId(u: User): string { u.id }

  predicate SameClientId(a: Client, b: Client) { a.clientId == b.clientId }

  predicate SameName(a: User, b: User) {
    a.normalizedUsername == b.normalizedUsername || a.normalizedEmail == b.normalizedEmail
  }

  predicate SameAccessHash(a: AccessToken, b: AccessToken) { a.tokenHash == b.tokenHash }

  predicate SameRefreshHash(a: RefreshToken, b: RefreshToken) { a.tokenHash == b.tokenHash }

  predicate SameCodeHash(a: AuthorizationCode, b: AuthorizationCode) { a.codeHash == b.codeHash }

  predicate SameUserTokenHash(a: UserToken, b: UserToken) { a.tokenHash == b.tokenHash }

  // ---------- The operations are those of the store ----------

  /** Another row of the table agrees with v in a unique field. */
  ghost predicate RowClashes<H>(rows: map<string, H>, v: H, clash: (H, H) -> bool, except: Option<string>) {
    exists k :: k in rows && Some(k) != except && clash(rows[k], v)
  }

  /** Unique fields are plain fields. */
  ghost predicate ReadsHeads<H(!new)>(view: Image<H> -> H, clash: (H, H) -> bool) {
    forall a, b :: clash(view(a), view(b)) <==> clash(a.head, b.head)
  }

  lemma ViewedRows<H>(m: map<string, Image<H>>, view: Image<H> -> H)
    ensures Viewed(m, view).Keys == m.Keys && forall k :: k in m ==> Viewed(m, view)[k] == view(m[k])
  {
  }

  lemma ViewedWith<H>(m: map<string, Image<H>>, view: Image<H> -> H, id: string, image: Image<H>)
    ensures Viewed(m[id := image], view) == Viewed(m, view)[id := view(image)]
  {
  }

  lemma ClashesAgree<H(!new)>(m: map<string, Image<H>>, view: Image<H> -> H, image: Image<H>, clash: (H, H) -> bool,
      except: Option<string>)
    requires ReadsHeads(view, clash)
    ensures Clashes(m, image.head, clash, except) <==> RowClashes(Viewed(m, view), view(image), clash, except)
  {
    hide Viewed;
    ViewedRows(m, view);
    forall k | k in m ensures clash(view(m[k]), view(image)) <==> clash(m[k].head, image.head) {
    }
  }

  /** For every kind of row: what Created and Updated do to the images is what a table of plain values does. */
  lemma OperationsAgree<H(!new)>(m: map<string, Image<H>>, view: Image<H> -> H, id: string, image: Image<H>,
      clash: (H, H) -> bool)
    requires ReadsHeads(view, clash)
    ensures var rows, v := Viewed(m, view), view(image);
            var created, updated := Created(m, id, image, clash), Updated(m, id, image, clash);
            && created.1 == (if id in rows || RowClashes(rows, v, clash, None) then Some(Duplicate) else None)
            && updated.1 == (if id !in rows then Some(NotFound)
                             else if RowClashes(rows, v, clash, Some(id)) then Some(Duplicate) else None)
            && Viewed(created.0, view) == (if created.1.Some? then rows else rows[id := v])
            && Viewed(updated.0, view) == (if updated.1.Some? then rows else rows[id := v])
  {
    hide Viewed, Clashes, RowClashes, ReadsHeads;
    ViewedRows(m, view);
    ViewedWith(m, view, id, image);
    ClashesAgree(m, view, image, clash, None);
    ClashesAgree(m, view, image, clash, Some(id));
  }

  /** Creating and updating a client row in memory does to the values what the store does. */
  lemma ClientsAreTheStores(db: Db, m: map<string, Image<Client>>, image: Image<Client>)
    requires "" !in m && forall k :: k in m ==> m[k].head.id == k
    ensures var c := Created(m, image.head.id, image, SameClientId);
            CreateClient(db.(clients := Clients(m)), ClientOf(image)) == Written(db.(clients := Clients(c.0)), c.1)
    ensures var c := Updated(m, image.head.id, image, SameClientId);
            UpdateClient(db.(clients := Clients(m)), ClientOf(image)) == Written(db.(clients := Clients(c.0)), c.1)
  {
    assert ReadsHeads(ClientOf, SameClientId);
    OperationsAgree(m, ClientOf, image.head.id, image, SameClientId);
    ViewedRows(m, ClientOf);
    hide Viewed, ReadsHeads, Created, Updated;
  }

  lemma NamesClash(rows: map<string, User>, v: User)
    requires "" !in rows && forall k :: k in rows ==> rows[k].id == k
    ensures UserTaken(rows, v, "") <==> RowClashes(rows, v, SameName, None)
    ensures UserTaken(rows, v, v.id) <==> RowClashes(rows, v, SameName, Some(v.id))
  {
  }

  /** Creating and updating a user row in memory does to the values what the store does. */
  lemma UsersAreTheStores(db: Db, m: map<string, Image<User>>, image: Image<User>)
    requires "" !in m && forall k :: k in m ==> m[k].head.id == k
    ensures var c := Created(m, image.head.id, image, SameName);
            CreateUser(db.(users := Users(m)), UserOf(image)) == Written(db.(users := Users(c.0)), c.1)
    ensures var c := Updated(m, image.head.id, image, SameName);
            UpdateUser(db.(users := Users(m)), UserOf(image)) == Written(db.(users := Users(c.0)), c.1)
  {
    assert ReadsHeads(UserOf, SameName);
    OperationsAgree(m, UserOf, image.head.id, image, SameName);
    ViewedRows(m, UserOf);
    hide Viewed, ReadsHeads, Created, Updated, UserTaken, RowClashes;
    NamesClash(Users(m), UserOf(image));
  }

  /** Creating an access token row in memory does to the values what the store does. */
  lemma AccessTokensAreTheStores(db: Db, m: map<string, Image<AccessToken>>, image: Image<AccessToken>)
    requires forall k :: k in m ==> m[k].head.id == k
    ensures var c := Created(m, image.head.id, image, SameAccessHash);
            CreateAccessToken(db.(accessTokens := AccessTokens(m)), AccessOf(image))
            == Written(db.(accessTokens := AccessTokens(c.0)), c.1)
  {
    assert ReadsHeads(AccessOf, SameAccessHash);
    OperationsAgree(m, AccessOf, image.head.id, image, SameAccessHash);
    ViewedRows(m, AccessOf);
    hide Viewed, ReadsHeads, Created, Updated;
  }

  /** Creating and updating a refresh token row in memory does to the values what the store does. */
  lemma RefreshTokensAreTheStores(db: Db, m: map<string, Image<RefreshToken>>, image: Image<RefreshToken>)
    requires forall k :: k in m ==> m[k].head.id == k
    ensures var c := Created(m, image.head.id, image, SameRefreshHash);
            CreateRefreshToken(db.(refreshTokens := RefreshTokens(m)), RefreshOf(image))
            == Written(db.(refreshTokens := RefreshTokens(c.0)), c.1)
    ensures var c := Updated(m, image.head.id, image, SameRefreshHash);
            UpdateRefreshToken(db.(refreshTokens := RefreshTokens(m)), RefreshOf(image))
            == Written(db.(refreshTokens := RefreshTokens(c.0)), c.1)
  {
    assert ReadsHeads(RefreshOf, SameRefreshHash);
    OperationsAgree(m, RefreshOf, image.head.id, image, SameRefreshHash);
    ViewedRows(m, RefreshOf);
    hide Viewed, ReadsHeads, Created, Updated;
  }

  /** Creating a code row in memory does to the values what the store does. */
  lemma CodesAreTheStores(db: Db, m: map<string, Image<AuthorizationCode>>, image: Image<AuthorizationCode>)
    requires forall k :: k in m ==> m[k].head.id == k
    ensures var c := Created(m, image.head.id, image, SameCodeHash);
            CreateCode(db.(codes := Codes(m)), CodeOf(image)) == Written(db.(codes := Codes(c.0)), c.1)
  {
    assert ReadsHeads(CodeOf, SameCodeHash);
    OperationsAgree(m, CodeOf, image.head.id, image, SameCodeHash);
    ViewedRows(m, CodeOf);
    hide Viewed, ReadsHeads, Created, Updated;
  }

  /** Creating a user token row in memory does to the values what the store does. */
  lemma UserTokensAreTheStores(db: Db, m: map<string, Image<UserToken>>, image: Image<UserToken>)
    requires forall k :: k in m ==> m[k].head.id == k
    ensures var c := Created(m, image.head.id, image, SameUserTokenHash);
            CreateUserToken(db.(userTokens := UserTokens(m)), UserTokenOf(image))
            == Written(db.(userTokens := UserTokens(c.0)), c.1)
  {
    assert ReadsHeads(UserTokenOf, SameUserTokenHash);
    OperationsAgree(m, UserTokenOf, image.head.id, image, SameUserTokenHash);
    ViewedRows(m, UserTokenOf);
    hide Viewed, ReadsHeads, Created, Updated;
  }

  /** The row that a scan for a client_id finds is the one that the store finds. */
  lemma ClientLookupIsTheStores(db: Db, m: map<string, Image<Client>>, wanted: string)
    requires ClientTable(Clients(m))
    ensures forall k :: k in m && m[k].head.clientId == wanted ==>
              ClientByClientId(db.(clients := Clients(m)), wanted) == Some(ClientOf(m[k]))
    ensures (forall k :: k in m ==> m[k].head.clientId != wanted) ==>
              ClientByClientId(db.(clients := Clients(m)), wanted) == None
  {
    ViewedRows(m, ClientOf);
    hide Viewed;
  }

  /** The row that a scan for a username finds is the one that the store finds. */
  lemma UsernameLookupIsTheStores(db: Db, m: map<string, Image<User>>, wanted: string)
    requires UserTable(Users(m))
    ensures forall k :: k in m && m[k].head.normalizedUsername == wanted ==>
              UserByUsername(db.(users := Users(m)), wanted) == Some(UserOf(m[k]))
    ensures (forall k :: k in m ==> m[k].head.normalizedUsername != wanted) ==>
              UserByUsername(db.(users := Users(m)), wanted) == None
  {
    ViewedRows(m, UserOf);
    hide Viewed;
  }

  /** The row that a scan for an email address finds is the one that the store finds. */
  lemma EmailLookupIsTheStores(db: Db, m: map<string, Image<User>>, wanted: string)
    requires UserTable(Users(m))
    ensures forall k :: k in m && m[k].head.normalizedEmail == wanted ==>
              UserByEmail(db.(users := Users(m)), wanted) == Some(UserOf(m[k]))
    ensures (forall k :: k in m ==> m[k].head.normalizedEmail != wanted) ==>
              UserByEmail(db.(users := Users(m)), wanted) == None
  {
    ViewedRows(m, UserOf);
    hide Viewed;
  }

  /** The row that a scan for the hash of an access token finds is the one that the store finds. */
  lemma AccessLookupIsTheStores(db: Db, m: map<string, Image<AccessToken>>, wanted: Digest)
    requires AccessTable(AccessTokens(m))
    ensures forall k :: k in m && m[k].head.tokenHash == wanted ==>
              AccessByHash(db.(accessTokens := AccessTokens(m)), wanted) == Some(AccessOf(m[k]))
    ensures (forall k :: k in m ==> m[k].head.tokenHash != wanted) ==>
              AccessByHash(db.(accessTokens := AccessTokens(m)), wanted) == None
  {
    ViewedRows(m, AccessOf);
    hide Viewed;
  }

  /** The row that a scan for the hash of a refresh token finds is the one that the store finds. */
  lemma RefreshLookupIsTheStores(db: Db, m: map<string, Image<RefreshToken>>, wanted: Digest)
    requires RefreshTable(RefreshTokens(m))
    ensures forall k :: k in m && m[k].head.tokenHash == wanted ==>
              RefreshByHash(db.(refreshTokens := RefreshTokens(m)), wanted) == Some(RefreshOf(m[k]))
    ensures (forall k :: k in m ==> m[k].head.tokenHash != wanted) ==>
              RefreshByHash(db.(refreshTokens := RefreshTokens(m)), wanted) == None
  {
    ViewedRows(m, RefreshOf);
    hide Viewed;
  }

  /** The row that a scan for the hash of a code finds is the one that the store finds. */
  lemma CodeLookupIsTheStores(db: Db, m: map<string, Image<AuthorizationCode>>, wanted: Digest)
    requires CodeTable(Codes(m))
    ensures forall k :: k in m && m[k].head.codeHash == wanted ==>
              CodeByHash(db.(codes := Codes(m)), wanted) == Some(CodeOf(m[k]))
    ensures (forall k :: k in m ==> m[k].head.codeHash != wanted) ==> CodeByHash(db.(codes := Codes(m)), wanted) == None
  {
    ViewedRows(m, CodeOf);
    hide Viewed;
  }

  /** The row that a scan for the hash and purpose of a user token finds is the one that the store finds. */
  lemma UserTokenLookupIsTheStores(db: Db, m: map<string, Image<UserToken>>, purpose: Purpose, wanted: Digest)
    requires UserTokenTable(UserTokens(m))
    ensures forall k :: k in m && m[k].head.purpose == purpose && m[k].head.tokenHash == wanted ==>
              UserTokenByHash(db.(userTokens := UserTokens(m)), purpose, wanted) == Some(UserTokenOf(m[k]))
    ensures (forall k :: k in m ==> m[k].head.purpose != purpose || m[k].head.tokenHash != wanted) ==>
              UserTokenByHash(db.(userTokens := UserTokens(m)), purpose, wanted) == None
  {
    ViewedRows(m, UserTokenOf);
    hide Viewed;
  }

  // ---------- Changes in place ----------

  type RefreshRows = Table<string, RefreshToken>
  type UserRows = Table<string, User>
  type CodeRows = Table<string, AuthorizationCode>

  /** A use of a reusable refresh token: the row that was looked up is changed in place and saved.
      The store then holds the touched token, and before the save it held the old one. */
  method ReuseInPlace(tokens: RefreshRows, hash: Digest, accessId: string, now: Time)
    returns (error: Option<StoreError>, ghost id: Option<string>)
    requires tokens.Valid() && tokens.idOf == RefreshId && tokens.clash == SameRefreshHash
    modifies tokens
    ensures tokens.Valid()
    ensures id.None? ==> error == Some(NotFound) && tokens.Contents == old(tokens.Contents)
                         && forall k :: k in tokens.Contents ==> tokens.Contents[k].head.tokenHash != hash
    ensures id.Some? ==>
              && id.value in old(tokens.Contents) && old(tokens.Contents)[id.value].head.tokenHash == hash
              && Written(EMPTY.(refreshTokens := RefreshTokens(tokens.Contents)), error)
                 == UpdateRefreshToken(EMPTY.(refreshTokens := RefreshTokens(old(tokens.Contents))),
                                       Reused(RefreshOf(old(tokens.Contents)[id.value]), accessId, now))
  {
    hide *;
    ghost var was := tokens.Contents;
    var edit := (t: RefreshToken) => t.(accessTokenId := accessId).Touched(now);
    var stay := (t: RefreshToken) => Stay;
    var wanted := (t: RefreshToken) => t.tokenHash == hash;
    RefreshIdsAreKeys(tokens);
    TouchKeepsId(tokens.idOf, edit, accessId, now);
    error, id := EditAndSave(tokens, wanted, edit, stay);
    if id.Some? {
      ReuseSaved(was, id.value, edit, stay, accessId, now);
    }
  }

  lemma RefreshIdsAreKeys(tokens: RefreshRows)
    requires tokens.Valid() && tokens.idOf == RefreshId
    ensures forall k :: k in tokens.Contents ==> tokens.Contents[k].head.id == k
  {
    forall k | k in tokens.Contents ensures tokens.Contents[k].head.id == k {
      assert tokens.idOf(tokens.rows[k].head) == RefreshId(tokens.rows[k].head)
             && tokens.rows[k].Shows(tokens.Contents[k]);
    }
  }

  lemma TouchKeepsId(idOf: RefreshToken -> string, edit: RefreshToken -> RefreshToken, accessId: string, now: Time)
    requires idOf == RefreshId && forall t :: edit(t) == t.(accessTokenId := accessId).Touched(now)
    ensures forall t :: idOf(edit(t)) == idOf(t)
  {
    hide RefreshId;
    forall t ensures idOf(edit(t)) == idOf(t) {
      TouchedId(t, accessId, now);
    }
  }

  lemma TouchedId(t: RefreshToken, accessId: string, now: Time)
    ensures RefreshId(t.(accessTokenId := accessId).Touched(now)) == RefreshId(t)
  {
  }

  lemma ReuseSeen(image: Image<RefreshToken>, edit: RefreshToken -> RefreshToken, stay: RefreshToken -> Redirect,
      accessId: string, now: Time)
    requires edit(image.head) == image.head.(accessTokenId := accessId).Touched(now) && stay(image.head) == Stay
    ensures Edited(image, edit, stay).head.id == image.head.id
    ensures RefreshOf(Edited(image, edit, stay)) == Reused(RefreshOf(image), accessId, now)
  {
  }

  lemma ReuseSaved(was: map<string, Image<RefreshToken>>, id: string, edit: RefreshToken -> RefreshToken,
      stay: RefreshToken -> Redirect, accessId: string, now: Time)
    requires id in was && forall k :: k in was ==> was[k].head.id == k
    requires edit(was[id].head) == was[id].head.(accessTokenId := accessId).Touched(now) && stay(was[id].head) == Stay
    ensures var saved := Updated(was, id, Edited(was[id], edit, stay), SameRefreshHash);
            Written(EMPTY.(refreshTokens := RefreshTokens(saved.0)), saved.1)
            == UpdateRefreshToken(EMPTY.(refreshTokens := RefreshTokens(was)),
                                  Reused(RefreshOf(was[id]), accessId, now))
  {
    hide *;
    ReuseSeen(was[id], edit, stay, accessId, now);
    RefreshTokensAreTheStores(EMPTY, was, Edited(was[id], edit, stay));
  }

  /** The two times of a user are pointers. */
  ghost predicate UserShape(image: Image<User>) {
    |image.contents| == 2 && forall c :: c in image.contents && c.Some? ==> c.value.At?
  }

  /** A failed sign-in: count and lockout are changed in the row that was looked up, the lockout by a
      new pointer, and saved. */
  method RecordFailureInPlace(users: UserRows, env: Env, userId: string, now: Time)
    returns (error: Option<StoreError>, ghost id: Option<string>)
    requires users.Valid() && users.idOf == UserId && users.clash == SameName && "" !in users.Contents
    requires forall k :: k in users.Contents ==> UserShape(users.Contents[k])
    modifies users
    ensures users.Valid()
    ensures id.None? ==> error == Some(NotFound) && users.Contents == old(users.Contents)
                         && forall k :: k in users.Contents ==> users.Contents[k].head.id != userId
    ensures id.Some? ==>
              && id.value in old(users.Contents) && old(users.Contents)[id.value].head.id == userId
              && Written(EMPTY.(users := Users(users.Contents)), error)
                 == UpdateUser(EMPTY.(users := Users(old(users.Contents))),
                               AfterFailure(env, UserOf(old(users.Contents)[id.value]), now))
  {
    ghost var was := users.Contents;
    var edit := (u: User) => AfterFailure(env, u, now);
    var lock := (u: User) => if env.maxFailedAttempts > 0 && u.failedLoginCount + 1 >= env.maxFailedAttempts
                             then PointTo(0, Some(At(now + env.lockoutDuration))) else Stay;
    error, id := EditAndSave(users, (u: User) => u.id == userId, edit, lock);
    if id.Some? {
      var image := Edited(was[id.value], edit, lock);
      FailureSeen(env, was[id.value], now);
      UsersAreTheStores(EMPTY, was, image);
    }
  }

  lemma FailureSeen(env: Env, image: Image<User>, now: Time)
    requires UserShape(image)
    ensures var edit := (u: User) => AfterFailure(env, u, now);
            var lock := (u: User) => if env.maxFailedAttempts > 0 && u.failedLoginCount + 1 >= env.maxFailedAttempts
                                     then PointTo(0, Some(At(now + env.lockoutDuration))) else Stay;
            UserOf(Edited(image, edit, lock)) == AfterFailure(env, UserOf(image), now)
  {
  }

  ghost predicate CodeShape(image: Image<AuthorizationCode>) {
    && |image.contents| == 2
    && (image.contents[0].Some? ==> image.contents[0].value.Strings?)
    && (image.contents[1].Some? ==> image.contents[1].value.At?)
  }

  /** ConsumeAuthorizationCode changes the stored struct itself, by a new pointer to the time. */
  method ConsumeInPlace(codes: CodeRows, id: string, at: Time) returns (error: Option<StoreError>)
    requires codes.Valid() && forall k :: k in codes.Contents ==> CodeShape(codes.Contents[k])
    modifies codes`Contents, codes`Repr, codes.Repr
    ensures codes.Valid() && forall k :: k in codes.Contents ==> CodeShape(codes.Contents[k])
    ensures Written(EMPTY.(codes := Codes(codes.Contents)), error)
            == ConsumeCode(EMPTY.(codes := Codes(old(codes.Contents))), id, at)
  {
    ghost var was := codes.Contents;
    if id !in codes.rows {
      return Some(NotFound);
    }
    assert codes.rows[id].Shows(was[id]) && CodeShape(was[id]);
    if codes.rows[id].cells[1] != null {
      return Some(Conflict);
    }
    codes.SetPointer(id, 1, At(at));
    ConsumptionSeen(was, id, at);
    return None;
  }

  lemma ConsumptionSeen(was: map<string, Image<AuthorizationCode>>, id: string, at: Time)
    requires id in was && CodeShape(was[id])
    ensures var image := Image(was[id].head, was[id].contents[1 := Some(At(at))]);
            Codes(was[id := image]) == Codes(was)[id := CodeOf(was[id]).(consumedAt := Some(at))]
  {
    AuthorizationCodeSet(was, id, Image(was[id].head, was[id].contents[1 := Some(At(at))]));
  }

  lemma AuthorizationCodeSet(m: map<string, Image<AuthorizationCode>>, id: string, image: Image<AuthorizationCode>)
    ensures Codes(m[id := image]) == Codes(m)[id := CodeOf(image)]
  {
  }
}
