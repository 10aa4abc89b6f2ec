/** The in-memory store (pkg/store/memory/memory.go). Each method runs under the store's mutex,
    so it is one atomic step; its contract says which step of Database it performs. Go maps are
    walked in an unspecified order: the loops below pick rows arbitrarily. */
module MemoryStore {
  import opened Identity
  import opened Database
  import Paging

  class Store {
    var clients: map<string, Client>
    var users: map<string, User>
    var accessTokens: map<string, AccessToken>
    var refreshTokens: map<string, RefreshToken>
    var codes: map<string, AuthorizationCode>
    var userTokens: map<string, UserToken>

    ghost function Contents(): Db
      reads this
    {
      Db(clients, users, accessTokens, refreshTokens, codes, userTokens)
    }

    /** Keys match ids and the unique indexes hold. */
    ghost predicate Valid()
      reads this
    {
      Indexed(Contents())
    }

    constructor ()
      ensures Valid() && Contents() == EMPTY
    {
      clients, users, accessTokens := map[], map[], map[];
      refreshTokens, codes, userTokens := map[], map[], map[];
    }

    // ---------- Clients ----------

    method GetClientById(id: string) returns (r: Result<Client, StoreError>)
      ensures r == if id in clients then Ok(clients[id]) else Err(NotFound)
    {
      if id !in clients {
        return Err(NotFound);
      }
      return Ok(clients[id]);
    }

    method GetClientByClientId(clientId: string) returns (r: Result<Client, StoreError>)
      requires Valid()
      ensures r == match ClientByClientId(Contents(), clientId)
                   case None => Err(NotFound)
                   case Some(row) => Ok(row)
    {
      var rest := clients.Keys;
      while rest != {}
        invariant rest <= clients.Keys
        invariant forall k :: k in clients && k !in rest ==> !(clients[k].clientId == clientId)
        decreases |rest|
      {
        var k :| k in rest;
        if clients[k].clientId == clientId {
          return Ok(clients[k]);
        }
        rest := rest - {k};
      }
      return Err(NotFound);
    }

    method IsClientIdTaken(clientId: string, exceptId: string) returns (taken: bool)
      ensures taken == ClientIdTaken(clients, clientId, exceptId)
    {
      var rest := clients.Keys;
      while rest != {}
        invariant rest <= clients.Keys
        invariant forall k :: k in clients && k !in rest ==>
                    !(clients[k].clientId == clientId && clients[k].id != exceptId)
        decreases |rest|
      {
        var k :| k in rest;
        if clients[k].clientId == clientId && clients[k].id != exceptId {
          return true;
        }
        rest := rest - {k};
      }
      return false;
    }

    /** A row with an empty id is stored, too, and then the uniqueness test is blind to it. */
    method CreateClient(row: Client) returns (error: Option<StoreError>)
      requires Valid()
      modifies this`clients
      ensures Valid() <==> row.id != "" || error.Some?
      ensures Written(Contents(), error) == Database.CreateClient(old(Contents()), row)
    {
      if row.id in clients {
        return Some(Duplicate);
      }
      var taken := IsClientIdTaken(row.clientId, "");
      if taken {
        return Some(Duplicate);
      }
      if row.id != "" {
        PutClient(clients, row);
      }
      clients := clients[row.id := row];
      assert row.id in clients;
      return None;
    }

    method UpdateClient(row: Client) returns (error: Option<StoreError>)
      requires Valid()
      modifies this`clients
      ensures Valid() && Written(Contents(), error) == Database.UpdateClient(old(Contents()), row)
    {
      if row.id !in clients {
        return Some(NotFound);
      }
      var taken := IsClientIdTaken(row.clientId, row.id);
      if taken {
        return Some(Duplicate);
      }
      PutClient(clients, row);
      clients := clients[row.id := row];
      return None;
    }

    method DeleteClient(id: string) returns (error: Option<StoreError>)
      requires Valid()
      modifies this`clients
      ensures Valid() && Written(Contents(), error) == Database.DeleteClient(old(Contents()), id)
    {
      if id !in clients {
        return Some(NotFound);
      }
      clients := clients - {id};
      return None;
    }

    // ---------- Users ----------

    method GetUserById(id: string) returns (r: Result<User, StoreError>)
      ensures r == if id in users then Ok(users[id]) else Err(NotFound)
    {
      if id !in users {
        return Err(NotFound);
      }
      return Ok(users[id]);
    }

    method GetUserByNormalizedUsername(name: string) returns (r: Result<User, StoreError>)
      requires Valid()
      ensures r == match UserByUsername(Contents(), name)
                   case None => Err(NotFound)
                   case Some(row) => Ok(row)
    {
      var rest := users.Keys;
      while rest != {}
        invariant rest <= users.Keys
        invariant forall k :: k in users && k !in rest ==> !(users[k].normalizedUsername == name)
        decreases |rest|
      {
        var k :| k in rest;
        if users[k].normalizedUsername == name {
          return Ok(users[k]);
        }
        rest := rest - {k};
      }
      return Err(NotFound);
    }

    method GetUserByNormalizedEmail(email: string) returns (r: Result<User, StoreError>)
      requires Valid()
      ensures r == match UserByEmail(Contents(), email)
                   case None => Err(NotFound)
                   case Some(row) => Ok(row)
    {
      var rest := users.Keys;
      while rest != {}
        invariant rest <= users.Keys
        invariant forall k :: k in users && k !in rest ==> !(users[k].normalizedEmail == email)
        decreases |rest|
      {
        var k :| k in rest;
        if users[k].normalizedEmail == email {
          return Ok(users[k]);
        }
        rest := rest - {k};
      }
      return Err(NotFound);
    }

    method IsUserTaken(user: User, exceptId: string) returns (taken: bool)
      ensures taken == UserTaken(users, user, exceptId)
    {
      var rest := users.Keys;
      while rest != {}
        invariant rest <= users.Keys
        invariant forall k :: k in users && k !in rest ==>
                    !(users[k].id != exceptId
                      && (users[k].normalizedUsername == user.normalizedUsername
                          || users[k].normalizedEmail == user.normalizedEmail))
        decreases |rest|
      {
        var k :| k in rest;
        if users[k].id != exceptId
           && (users[k].normalizedUsername == user.normalizedUsername
               || users[k].normalizedEmail == user.normalizedEmail) {
          return true;
        }
        rest := rest - {k};
      }
      return false;
    }

    /** The same holds for users with an empty id. */
    method CreateUser(row: User) returns (error: Option<StoreError>)
      requires Valid()
      modifies this`users
      ensures Valid() <==> row.id != "" || error.Some?
      ensures Written(Contents(), error) == Database.CreateUser(old(Contents()), row)
    {
      if row.id in users {
        return Some(Duplicate);
      }
      var taken := IsUserTaken(row, "");
      if taken {
        return Some(Duplicate);
      }
      if row.id != "" {
        PutUser(users, row);
      }
      users := users[row.id := row];
      assert row.id in users;
      return None;
    }

    method UpdateUser(row: User) returns (error: Option<StoreError>)
      requires Valid()
      modifies this`users
      ensures Valid() && Written(Contents(), error) == Database.UpdateUser(old(Contents()), row)
    {
      if row.id !in users {
        return Some(NotFound);
      }
      var taken := IsUserTaken(row, row.id);
      if taken {
        return Some(Duplicate);
      }
      PutUser(users, row);
      users := users[row.id := row];
      return None;
    }

    method DeleteUser(id: string) returns (error: Option<StoreError>)
      requires Valid()
      modifies this`users
      ensures Valid() && Written(Contents(), error) == Database.DeleteUser(old(Contents()), id)
    {
      if id !in users {
        return Some(NotFound);
      }
      users := users - {id};
      return None;
    }

    // ---------- Access tokens ----------

    method GetAccessTokenById(id: string) returns (r: Result<AccessToken, StoreError>)
      ensures r == if id in accessTokens then Ok(accessTokens[id]) else Err(NotFound)
    {
      if id !in accessTokens {
        return Err(NotFound);
      }
      return Ok(accessTokens[id]);
    }

    method GetAccessTokenByHash(hash: Digest) returns (r: Result<AccessToken, StoreError>)
      requires Valid()
      ensures r == match AccessByHash(Contents(), hash)
                   case None => Err(NotFound)
                   case Some(row) => Ok(row)
    {
      var rest := accessTokens.Keys;
      while rest != {}
        invariant rest <= accessTokens.Keys
        invariant forall k :: k in accessTokens && k !in rest ==> !(accessTokens[k].tokenHash == hash)
        decreases |rest|
      {
        var k :| k in rest;
        if accessTokens[k].tokenHash == hash {
          return Ok(accessTokens[k]);
        }
        rest := rest - {k};
      }
      return Err(NotFound);
    }

    method IsAccessHashTaken(hash: Digest) returns (taken: bool)
      ensures taken == AccessHashTaken(accessTokens, hash)
    {
      var rest := accessTokens.Keys;
      while rest != {}
        invariant rest <= accessTokens.Keys
        invariant forall k :: k in accessTokens && k !in rest ==> !(accessTokens[k].tokenHash == hash)
        decreases |rest|
      {
        var k :| k in rest;
        if accessTokens[k].tokenHash == hash {
          return true;
        }
        rest := rest - {k};
      }
      return false;
    }

    method CreateAccessToken(row: AccessToken) returns (error: Option<StoreError>)
      requires Valid()
      modifies this`accessTokens
      ensures Valid() && Written(Contents(), error) == Database.CreateAccessToken(old(Contents()), row)
    {
      if row.id in accessTokens {
        return Some(Duplicate);
      }
      var taken := IsAccessHashTaken(row.tokenHash);
      if taken {
        return Some(Duplicate);
      }
      PutAccess(accessTokens, row);
      accessTokens := accessTokens[row.id := row];
      return None;
    }

    method DeleteAccessToken(id: string) returns (error: Option<StoreError>)
      requires Valid()
      modifies this`accessTokens
      ensures Valid() && Written(Contents(), error) == Database.DeleteAccessToken(old(Contents()), id)
    {
      if id !in accessTokens {
        return Some(NotFound);
      }
      accessTokens := accessTokens - {id};
      return None;
    }

    method DeleteAccessTokens(filter: TokenFilter) returns (n: nat)
      requires Valid()
      modifies this`accessTokens
      ensures Valid() && Contents() == Database.DeleteAccessTokens(old(Contents()), filter)
      ensures n == |old(accessTokens)| - |accessTokens|
    {
      hide ClientTable, UserTable, AccessTable, RefreshTable, CodeTable, UserTokenTable;
      ghost var was := accessTokens;
      accessTokens, n := RemoveMatching(accessTokens, (t: AccessToken) => MatchAccess(filter, t));
      FewerAccess(was, accessTokens);
      assert Contents() == Database.DeleteAccessTokens(old(Contents()), filter);
    }

    /** Lists the matching tokens page by page, in creation order. */
    method ListAccessTokens(filter: TokenFilter, opts: Paging.ListOptions) returns (page: seq<AccessToken>, total: nat)
      requires Valid()
      ensures IsPage(page, total, accessTokens, filter, opts)
    {
      var rows: seq<AccessToken> := [];
      var rest := accessTokens.Keys;
      assert Collected(rows, accessTokens, rest, filter);
      hide Collected, Indexed, MatchAccess, EachOnce, Paging.Sorted, Paging.Slice;
      while rest != {}
        invariant rest <= accessTokens.Keys && Collected(rows, accessTokens, rest, filter)
        decreases |rest|
      {
        var k :| k in rest;
        CollectedNext(rows, accessTokens, rest, filter, k);
        if MatchAccess(filter, accessTokens[k]) {
          rows := rows + [accessTokens[k]];
        }
        rest := rest - {k};
      }
      CollectedAll(rows, accessTokens, filter);
      page, total := Paging.Page(rows, AccessKey, opts);
    }

    // ---------- Refresh tokens ----------

    method GetRefreshTokenById(id: string) returns (r: Result<RefreshToken, StoreError>)
      ensures r == if id in refreshTokens then Ok(refreshTokens[id]) else Err(NotFound)
    {
      if id !in refreshTokens {
        return Err(NotFound);
      }
      return Ok(refreshTokens[id]);
    }

    method GetRefreshTokenByHash(hash: Digest) returns (r: Result<RefreshToken, StoreError>)
      requires Valid()
      ensures r == match RefreshByHash(Contents(), hash)
                   case None => Err(NotFound)
                   case Some(row) => Ok(row)
    {
      var rest := refreshTokens.Keys;
      while rest != {}
        invariant rest <= refreshTokens.Keys
        invariant forall k :: k in refreshTokens && k !in rest ==> !(refreshTokens[k].tokenHash == hash)
        decreases |rest|
      {
        var k :| k in rest;
        if refreshTokens[k].tokenHash == hash {
          return Ok(refreshTokens[k]);
        }
        rest := rest - {k};
      }
      return Err(NotFound);
    }

    method IsRefreshHashTaken(hash: Digest, exceptId: Option<string>) returns (taken: bool)
      ensures taken == RefreshHashTaken(refreshTokens, hash, exceptId)
    {
      var rest := refreshTokens.Keys;
      while rest != {}
        invariant rest <= refreshTokens.Keys
        invariant forall k :: k in refreshTokens && k !in rest ==>
                    !(refreshTokens[k].tokenHash == hash && Some(refreshTokens[k].id) != exceptId)
        decreases |rest|
      {
        var k :| k in rest;
        if refreshTokens[k].tokenHash == hash && Some(refreshTokens[k].id) != exceptId {
          return true;
        }
        rest := rest - {k};
      }
      return false;
    }

    method CreateRefreshToken(row: RefreshToken) returns (error: Option<StoreError>)
      requires Valid()
      modifies this`refreshTokens
      ensures Valid() && Written(Contents(), error) == Database.CreateRefreshToken(old(Contents()), row)
    {
      if row.id in refreshTokens {
        return Some(Duplicate);
      }
      var taken := IsRefreshHashTaken(row.tokenHash, None);
      if taken {
        return Some(Duplicate);
      }
      PutRefresh(refreshTokens, row);
      refreshTokens := refreshTokens[row.id := row];
      return None;
    }

    method UpdateRefreshToken(row: RefreshToken) returns (error: Option<StoreError>)
      requires Valid()
      modifies this`refreshTokens
      ensures Valid() && Written(Contents(), error) == Database.UpdateRefreshToken(old(Contents()), row)
    {
      if row.id !in refreshTokens {
        return Some(NotFound);
      }
      var taken := IsRefreshHashTaken(row.tokenHash, Some(row.id));
      if taken {
        return Some(Duplicate);
      }
      PutRefresh(refreshTokens, row);
      refreshTokens := refreshTokens[row.id := row];
      return None;
    }

    method DeleteRefreshToken(id: string) returns (error: Option<StoreError>)
      requires Valid()
      modifies this`refreshTokens
      ensures Valid() && Written(Contents(), error) == Database.DeleteRefreshToken(old(Contents()), id)
    {
      if id !in refreshTokens {
        return Some(NotFound);
      }
      refreshTokens := refreshTokens - {id};
      return None;
    }

    method DeleteRefreshTokens(filter: TokenFilter) returns (n: nat)
      requires Valid()
      modifies this`refreshTokens
      ensures Valid() && Contents() == Database.DeleteRefreshTokens(old(Contents()), filter)
      ensures n == |old(refreshTokens)| - |refreshTokens|
    {
      hide ClientTable, UserTable, AccessTable, RefreshTable, CodeTable, UserTokenTable;
      ghost var was := refreshTokens;
      refreshTokens, n := RemoveMatching(refreshTokens, (t: RefreshToken) => MatchRefresh(filter, t));
      FewerRefresh(was, refreshTokens);
      assert Contents() == Database.DeleteRefreshTokens(old(Contents()), filter);
    }

    // ---------- Authorization codes ----------

    method GetAuthorizationCodeByHash(hash: Digest) returns (r: Result<AuthorizationCode, StoreError>)
      requires Valid()
      ensures r == match CodeByHash(Contents(), hash)
                   case None => Err(NotFound)
                   case Some(row) => Ok(row)
    {
      var rest := codes.Keys;
      while rest != {}
        invariant rest <= codes.Keys
        invariant forall k :: k in codes && k !in rest ==> !(codes[k].codeHash == hash)
        decreases |rest|
      {
        var k :| k in rest;
        if codes[k].codeHash == hash {
          return Ok(codes[k]);
        }
        rest := rest - {k};
      }
      return Err(NotFound);
    }

    method IsCodeHashTaken(hash: Digest) returns (taken: bool)
      ensures taken == CodeHashTaken(codes, hash)
    {
      var rest := codes.Keys;
      while rest != {}
        invariant rest <= codes.Keys
        invariant forall k :: k in codes && k !in rest ==> !(codes[k].codeHash == hash)
        decreases |rest|
      {
        var k :| k in rest;
        if codes[k].codeHash == hash {
          return true;
        }
        rest := rest - {k};
      }
      return false;
    }

    method CreateAuthorizationCode(row: AuthorizationCode) returns (error: Option<StoreError>)
      requires Valid()
      modifies this`codes
      ensures Valid() && Written(Contents(), error) == Database.CreateCode(old(Contents()), row)
    {
      if row.id in codes {
        return Some(Duplicate);
      }
      var taken := IsCodeHashTaken(row.codeHash);
      if taken {
        return Some(Duplicate);
      }
      PutCode(codes, row);
      codes := codes[row.id := row];
      return None;
    }

    /** Marks the code as used, unless it was used before: the test and the write are one step. */
    method ConsumeAuthorizationCode(id: string, at: Time) returns (error: Option<StoreError>)
      requires Valid()
      modifies this`codes
      ensures Valid() && Written(Contents(), error) == Database.ConsumeCode(old(Contents()), id, at)
    {
      if id !in codes {
        return Some(NotFound);
      }
      var code := codes[id];
      if code.consumedAt.Some? {
        return Some(Conflict);
      }
      PutCode(codes, code.(consumedAt := Some(at)));
      codes := codes[id := code.(consumedAt := Some(at))];
      return None;
    }

    method DeleteExpiredAuthorizationCodes(before: Time) returns (n: nat)
      requires Valid()
      modifies this`codes
      ensures Valid() && Contents() == Database.DeleteExpiredCodes(old(Contents()), before)
      ensures n == |old(codes)| - |codes|
    {
      hide ClientTable, UserTable, AccessTable, RefreshTable, CodeTable, UserTokenTable;
      ghost var was := codes;
      codes, n := RemoveMatching(codes, (t: AuthorizationCode) => !(t.expiresAt > before));
      FewerCodes(was, codes);
      assert Contents() == Database.DeleteExpiredCodes(old(Contents()), before);
    }

    // ---------- User tokens ----------

    method GetUserTokenByHash(purpose: Purpose, hash: Digest) returns (r: Result<UserToken, StoreError>)
      requires Valid()
      ensures r == match UserTokenByHash(Contents(), purpose, hash)
                   case None => Err(NotFound)
                   case Some(row) => Ok(row)
    {
      hide ClientTable, UserTable, AccessTable, RefreshTable, CodeTable, UserTokenTable, UserTokenByHash;
      var rest := userTokens.Keys;
      while rest != {}
        invariant rest <= userTokens.Keys
        invariant forall k :: k in userTokens && k !in rest && userTokens[k].tokenHash == hash ==>
                    userTokens[k].purpose != purpose
        decreases |rest|
      {
        var k :| k in rest;
        if userTokens[k].purpose == purpose && userTokens[k].tokenHash == hash {
          UserTokenLookup(Contents(), purpose, k);
          return Ok(userTokens[k]);
        }
        rest := rest - {k};
      }
      return Err(NotFound);
    }

    method IsUserTokenHashTaken(hash: Digest) returns (taken: bool)
      ensures taken == UserTokenHashTaken(userTokens, hash)
    {
      var rest := userTokens.Keys;
      while rest != {}
        invariant rest <= userTokens.Keys
        invariant forall k :: k in userTokens && k !in rest ==> !(userTokens[k].tokenHash == hash)
        decreases |rest|
      {
        var k :| k in rest;
        if userTokens[k].tokenHash == hash {
          return true;
        }
        rest := rest - {k};
      }
      return false;
    }

    method CreateUserToken(row: UserToken) returns (error: Option<StoreError>)
      requires Valid()
      modifies this`userTokens
      ensures Valid() && Written(Contents(), error) == Database.CreateUserToken(old(Contents()), row)
    {
      if row.id in userTokens {
        return Some(Duplicate);
      }
      var taken := IsUserTokenHashTaken(row.tokenHash);
      if taken {
        return Some(Duplicate);
      }
      PutUserToken(userTokens, row);
      userTokens := userTokens[row.id := row];
      return None;
    }

    method DeleteUserToken(id: string) returns (error: Option<StoreError>)
      requires Valid()
      modifies this`userTokens
      ensures Valid() && Written(Contents(), error) == Database.DeleteUserToken(old(Contents()), id)
    {
      if id !in userTokens {
        return Some(NotFound);
      }
      userTokens := userTokens - {id};
      return None;
    }

    method DeleteUserTokens(userId: string, purpose: Purpose) returns (n: nat)
      requires Valid()
      modifies this`userTokens
      ensures Valid() && Contents() == Database.DeleteUserTokens(old(Contents()), userId, purpose)
      ensures n == |old(userTokens)| - |userTokens|
    {
      hide ClientTable, UserTable, AccessTable, RefreshTable, CodeTable, UserTokenTable;
      ghost var was := userTokens;
      userTokens, n := RemoveMatching(userTokens, (t: UserToken) => MatchUserToken(userId, purpose, t));
      FewerUserTokens(was, userTokens);
      assert Contents() == Database.DeleteUserTokens(old(Contents()), userId, purpose);
    }

    method DeleteExpiredUserTokens(before: Time) returns (n: nat)
      requires Valid()
      modifies this`userTokens
      ensures Valid() && Contents() == Database.DeleteExpiredUserTokens(old(Contents()), before)
      ensures n == |old(userTokens)| - |userTokens|
    {
      hide ClientTable, UserTable, AccessTable, RefreshTable, CodeTable, UserTokenTable;
      ghost var was := userTokens;
      userTokens, n := RemoveMatching(userTokens, (t: UserToken) => !(t.expiresAt > before));
      FewerUserTokens(was, userTokens);
      assert Contents() == Database.DeleteExpiredUserTokens(old(Contents()), before);
    }

  }

  lemma UserTokenLookup(db: Db, purpose: Purpose, k: string)
    requires UserTokenTable(db.userTokens) && k in db.userTokens && db.userTokens[k].purpose == purpose
    ensures UserTokenByHash(db, purpose, db.userTokens[k].tokenHash) == Some(db.userTokens[k])
  {
  }

  lemma OneRowLess<V>(m: map<string, V>, k: string)
    requires k in m
    ensures |m - {k}| == |m| - 1
  {
    assert (m - {k}).Keys == m.Keys - {k};
    assert |m.Keys - {k}| == |m.Keys| - 1;
  }

  /** rows lists every matching token exactly once. */
  ghost predicate EachOnce(rows: seq<AccessToken>, m: map<string, AccessToken>, filter: TokenFilter) {
    && (forall t :: t in rows <==> t.id in m && m[t.id] == t && MatchAccess(filter, t))
    && (forall i, j :: 0 <= i < j < |rows| ==> rows[i].id != rows[j].id)
  }

  /** rows lists the matching tokens that are not among the rest, each once. */
  ghost predicate Collected(rows: seq<AccessToken>, m: map<string, AccessToken>, rest: set<string>,
      filter: TokenFilter) {
    && (forall k :: k in m ==> m[k].id == k)
    && (forall t :: t in rows ==> t.id in m && t.id !in rest && m[t.id] == t && MatchAccess(filter, t))
    && (forall k :: k in m && k !in rest && MatchAccess(filter, m[k]) ==> m[k] in rows)
    && (forall i, j :: 0 <= i < j < |rows| ==> rows[i].id != rows[j].id)
  }

  lemma CollectedNext(rows: seq<AccessToken>, m: map<string, AccessToken>, rest: set<string>, filter: TokenFilter,
      k: string)
    requires Collected(rows, m, rest, filter) && k in rest && k in m
    ensures Collected(if MatchAccess(filter, m[k]) then rows + [m[k]] else rows, m, rest - {k}, filter)
  {
    hide MatchAccess;
    var next := if MatchAccess(filter, m[k]) then rows + [m[k]] else rows;
    assert forall t :: t in next <==> t in rows || (MatchAccess(filter, m[k]) && t == m[k]);
  }

  lemma CollectedAll(rows: seq<AccessToken>, m: map<string, AccessToken>, filter: TokenFilter)
    requires Collected(rows, m, {}, filter)
    ensures EachOnce(rows, m, filter)
  {
    hide MatchAccess;
  }

  /** A correct answer of the list endpoint. Nothing says in which order the rows were collected. */
  ghost predicate IsPage(page: seq<AccessToken>, total: nat, m: map<string, AccessToken>, filter: TokenFilter,
      opts: Paging.ListOptions) {
    exists rows: seq<AccessToken> ::
      EachOnce(rows, m, filter) && total == |rows| && page == Paging.PageOf(rows, AccessKey, opts)
  }

  lemma {:induction false} EachOnceCounts(rows: seq<AccessToken>, t: AccessToken)
    requires forall i, j :: 0 <= i < j < |rows| ==> rows[i].id != rows[j].id
    ensures multiset(rows)[t] == if t in rows then 1 else 0
  {
    if rows != [] {
      EachOnceCounts(rows[1..], t);
      assert rows == [rows[0]] + rows[1..];
      assert forall j :: 0 < j < |rows| ==> rows[j].id != rows[0].id;
    }
  }

  /** Two lists of the matching tokens, each token once, differ in their order alone. */
  lemma CollectionsAgree(a: seq<AccessToken>, b: seq<AccessToken>, m: map<string, AccessToken>, filter: TokenFilter)
    requires EachOnce(a, m, filter) && EachOnce(b, m, filter)
    ensures multiset(a) == multiset(b) && Paging.DistinctKeys(a, AccessKey)
  {
    forall t: AccessToken ensures multiset(a)[t] == multiset(b)[t] {
      EachOnceCounts(a, t);
      EachOnceCounts(b, t);
    }
  }

  /** Sorting lists the matching tokens once each as well. */
  lemma SortedEachOnce(rows: seq<AccessToken>, m: map<string, AccessToken>, filter: TokenFilter)
    requires EachOnce(rows, m, filter)
    ensures EachOnce(Paging.Sorted(rows, AccessKey), m, filter)
    ensures Paging.Ascending(Paging.Sorted(rows, AccessKey), AccessKey)
  {
    var sorted := Paging.Sorted(rows, AccessKey);
    CollectionsAgree(rows, rows, m, filter);
    Paging.SortedIsAscending(rows, AccessKey);
    assert forall t :: t in sorted <==> t in multiset(sorted);
    assert forall t :: t in rows <==> t in multiset(rows);
    forall i, j | 0 <= i < j < |sorted| ensures sorted[i].id != sorted[j].id {
      assert sorted[i] in rows && sorted[j] in rows;
      Paging.KeyOrder(AccessKey(sorted[i]), AccessKey(sorted[j]), AccessKey(sorted[j]));
    }
  }

  function Joined<T>(pages: seq<seq<T>>): seq<T> {
    if pages == [] then [] else Joined(pages[..|pages| - 1]) + pages[|pages| - 1]
  }

  lemma {:induction false} JoinedArePages(pages: seq<seq<AccessToken>>, total: nat, rows: seq<AccessToken>,
      m: map<string, AccessToken>, filter: TokenFilter, step: nat, limit: int)
    requires EachOnce(rows, m, filter)
    requires forall i :: 0 <= i < |pages| ==> IsPage(pages[i], total, m, filter, Paging.ListOptions(i * step, limit))
    ensures Joined(pages) == Paging.Pages(rows, AccessKey, step, limit, |pages|)
  {
    hide EachOnce, Paging.PageOf;
    if pages != [] {
      var last := |pages| - 1;
      var opts := Paging.ListOptions(last * step, limit);
      var collected: seq<AccessToken> :|
        EachOnce(collected, m, filter) && pages[last] == Paging.PageOf(collected, AccessKey, opts);
      CollectionsAgree(rows, collected, m, filter);
      CollectionsAgree(collected, rows, m, filter);
      Paging.PageIgnoresCollectionOrder(rows, collected, AccessKey, opts);
      JoinedArePages(pages[..last], total, rows, m, filter, step, limit);
    }
  }

  /** Walking through a list page by page, by the limit that is in effect, shows every matching
      token exactly once, in order of creation: however each single answer collected its rows. */
  lemma WalkShowsEveryTokenOnce(pages: seq<seq<AccessToken>>, total: nat, m: map<string, AccessToken>,
      filter: TokenFilter, limit: int)
    requires pages != [] && |pages| * Paging.ListOptions(0, limit).Normalized().limit >= total
    requires var step := Paging.ListOptions(0, limit).Normalized().limit;
             forall i :: 0 <= i < |pages| ==> IsPage(pages[i], total, m, filter, Paging.ListOptions(i * step, limit))
    ensures EachOnce(Joined(pages), m, filter) && |Joined(pages)| == total
    ensures Paging.Ascending(Joined(pages), AccessKey)
  {
    hide EachOnce, Paging.PageOf;
    var step := Paging.ListOptions(0, limit).Normalized().limit;
    assert IsPage(pages[0], total, m, filter, Paging.ListOptions(0 * step, limit));
    var rows: seq<AccessToken> :| EachOnce(rows, m, filter) && total == |rows|;
    JoinedArePages(pages, total, rows, m, filter, step, limit);
    Paging.PagesCoverEverything(rows, AccessKey, limit, |pages|);
    SortedEachOnce(rows, m, filter);
  }

  /** The loop of the filtered deletes: removes every row that matches, and counts them. */
  method RemoveMatching<V>(m: map<string, V>, doomed: V -> bool) returns (left: map<string, V>, n: nat)
    ensures left == map k | k in m && !doomed(m[k]) :: m[k]
    ensures n == |m| - |left|
  {
    left := m;
    n := 0;
    var rest := m.Keys;
    while rest != {}
      invariant rest <= m.Keys && n == |m| - |left|
      invariant left == map k | k in m && (k in rest || !doomed(m[k])) :: m[k]
      decreases |rest|
    {
      var k :| k in rest;
      if doomed(m[k]) {
        OneRowLess(left, k);
        left := left - {k};
        n := n + 1;
      }
      rest := rest - {k};
    }
  }

  function AccessKey(t: AccessToken): Paging.Key {
    Paging.Key(t.createdAt, t.id)
  }
}