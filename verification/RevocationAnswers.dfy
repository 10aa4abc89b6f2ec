/** What revocation, introspection and bearer validation answer (pkg/oauth/revoke.go, bearer.go), for
    every value and every hint, in terms of the stored rows. */
module RevocationAnswers {
  import opened Identity
  import opened Database
  import opened AccountRules
  import opened OAuthRules
  import opened Scope
  import opened Conditions
  import opened Verdicts
  import opened Invariants
  import opened Minting
  import opened Requests
  import opened Runs
  import opened Introspection

  // ---------- Looking up a value ----------

  ghost predicate IsAccessToken(db: Db, k: string, value: string) {
    k in db.accessTokens && db.accessTokens[k].tokenHash == HashToken(value)
  }

  ghost predicate IsRefreshToken(db: Db, k: string, value: string) {
    k in db.refreshTokens && db.refreshTokens[k].tokenHash == HashToken(value)
  }

  /** No stored token of either kind has this value. */
  ghost predicate Unknown(db: Db, value: string) {
    && (forall k :: k in db.accessTokens ==> db.accessTokens[k].tokenHash != HashToken(value))
    && (forall k :: k in db.refreshTokens ==> db.refreshTokens[k].tokenHash != HashToken(value))
  }

  lemma IsStored(db: Db, k: string, value: string)
    ensures IsAccessToken(db, k, value) ==> k in db.accessTokens
    ensures IsRefreshToken(db, k, value) ==> k in db.refreshTokens
  {
  }

  lemma ValueOfAccessToken(env: Env, db: Db, book: Book, used: set<string>, k: string, value: string)
    requires Good(env, db, book, used) && IsAccessToken(db, k, value)
    ensures AccessByHash(db, HashToken(value)) == Some(db.accessTokens[k]) && RefreshByHash(db, HashToken(value)).None?
    ensures db.accessTokens[k].id == k
  {
    GoodValuesHaveOneKind(env, db, book, used, value);
    hide RefSafe, BookOk, TokensOk, PeopleOk, ClientTable, UserTable, RefreshTable, CodeTable, UserTokenTable;
  }

  lemma ValueOfRefreshToken(env: Env, db: Db, book: Book, used: set<string>, k: string, value: string)
    requires Good(env, db, book, used) && IsRefreshToken(db, k, value)
    ensures RefreshByHash(db, HashToken(value)) == Some(db.refreshTokens[k]) && AccessByHash(db, HashToken(value)).None?
    ensures db.refreshTokens[k].id == k
  {
    GoodValuesHaveOneKind(env, db, book, used, value);
    hide RefSafe, BookOk, TokensOk, PeopleOk, ClientTable, UserTable, AccessTable, CodeTable, UserTokenTable;
  }

  lemma UnknownValue(db: Db, value: string)
    ensures Unknown(db, value) <==>
            AccessByHash(db, HashToken(value)).None? && RefreshByHash(db, HashToken(value)).None?
  {
  }

  // ---------- Revocation ----------

  /** A client revokes its own access token: exactly this row goes. That of another client stays. */
  lemma AccessRevocation(env: Env, db: Db, book: Book, used: set<string>, k: string, client: Client, value: string,
      hint: string)
    requires Good(env, db, book, used) && IsAccessToken(db, k, value)
    ensures Revoke(db, client, value, hint)
            == if db.accessTokens[k].clientId == client.id then db.(accessTokens := db.accessTokens - {k}) else db
  {
    hide Good, AccessByHash, RefreshByHash;
    ValueOfAccessToken(env, db, book, used, k, value);
  }

  /** The same for a refresh token, which takes the access token with it that it is linked to. */
  lemma RefreshRevocation(env: Env, db: Db, book: Book, used: set<string>, k: string, client: Client, value: string,
      hint: string)
    requires Good(env, db, book, used) && IsRefreshToken(db, k, value)
    ensures var rt := db.refreshTokens[k];
            Revoke(db, client, value, hint)
            == if rt.clientId != client.id then db
               else db.(refreshTokens := db.refreshTokens - {k}, accessTokens := db.accessTokens - {rt.accessTokenId})
  {
    hide *;
    IsStored(db, k, value);
    LinkIsNamed(env, db, book, used, k);
    ValueOfRefreshToken(env, db, book, used, k, value);
    RevokingARefreshToken(db, db.refreshTokens[k], client, value, hint);
    PairDeleted(db, db.refreshTokens[k]);
  }

  lemma RevokingARefreshToken(db: Db, rt: RefreshToken, client: Client, value: string, hint: string)
    requires RefreshByHash(db, HashToken(value)) == Some(rt) && AccessByHash(db, HashToken(value)).None?
    ensures Revoke(db, client, value, hint)
            == if rt.clientId != client.id then db
               else WithoutAccess(DeleteRefreshToken(db, rt.id).db, rt.accessTokenId)
  {
    hide AccessByHash, RefreshByHash, HashToken, WithoutAccess, DeleteRefreshToken;
  }

  lemma PairDeleted(db: Db, rt: RefreshToken)
    requires rt.id in db.refreshTokens && rt.accessTokenId != ""
    ensures WithoutAccess(DeleteRefreshToken(db, rt.id).db, rt.accessTokenId)
            == db.(refreshTokens := db.refreshTokens - {rt.id}, accessTokens := db.accessTokens - {rt.accessTokenId})
  {
    assert rt.accessTokenId !in db.accessTokens ==> db.accessTokens - {rt.accessTokenId} == db.accessTokens;
  }

  lemma LinkIsNamed(env: Env, db: Db, book: Book, used: set<string>, k: string)
    requires Good(env, db, book, used) && k in db.refreshTokens
    ensures db.refreshTokens[k].accessTokenId != ""
  {
    hide Indexed, RefSafe, PeopleOk, AccessOk, AuthCodeOk, UserTokenOk;
    assert RefreshOk(db.refreshTokens[k], book, used);
  }

  lemma UnknownRevocation(db: Db, client: Client, value: string, hint: string)
    requires Unknown(db, value)
    ensures Revoke(db, client, value, hint) == db
  {
    hide AccessByHash, RefreshByHash, Unknown;
    UnknownValue(db, value);
  }

  lemma GoneAccessToken(db: Db, k: string, value: string)
    requires AccessTable(db.accessTokens) && IsAccessToken(db, k, value) && RefreshByHash(db, HashToken(value)).None?
    ensures Unknown(db.(accessTokens := db.accessTokens - {k}), value)
  {
  }

  lemma GoneRefreshToken(db: Db, k: string, value: string, gone: string)
    requires RefreshTable(db.refreshTokens) && IsRefreshToken(db, k, value) && AccessByHash(db, HashToken(value)).None?
    ensures Unknown(db.(refreshTokens := db.refreshTokens - {k}, accessTokens := db.accessTokens - {gone}), value)
  {
  }

  lemma TokenTables(env: Env, db: Db, book: Book, used: set<string>)
    requires Good(env, db, book, used)
    ensures AccessTable(db.accessTokens) && RefreshTable(db.refreshTokens)
  {
    hide RefSafe, BookOk, TokensOk, PeopleOk, AccessTable, RefreshTable;
  }

  lemma GoneValueIsUnknown(env: Env, db: Db, book: Book, used: set<string>, k: string, client: Client, value: string,
      hint: string)
    requires Good(env, db, book, used)
    requires (IsAccessToken(db, k, value) && db.accessTokens[k].clientId == client.id)
             || (IsRefreshToken(db, k, value) && db.refreshTokens[k].clientId == client.id)
    ensures Unknown(Revoke(db, client, value, hint), value)
  {
    hide *;
    TokenTables(env, db, book, used);
    IsStored(db, k, value);
    if IsAccessToken(db, k, value) && db.accessTokens[k].clientId == client.id {
      AccessRevocation(env, db, book, used, k, client, value, hint);
      ValueOfAccessToken(env, db, book, used, k, value);
      GoneAccessToken(db, k, value);
    } else {
      RefreshRevocation(env, db, book, used, k, client, value, hint);
      ValueOfRefreshToken(env, db, book, used, k, value);
      GoneRefreshToken(db, k, value, db.refreshTokens[k].accessTokenId);
    }
  }

  /** In every reachable state and for any hint, a client ends exactly its own token: an access token
      alone, a refresh token with its access token. Tokens of other clients, and values that are no
      token, change nothing. */
  lemma RevocationAnswersInEveryRun(env: Env, ws: seq<World>, steps: seq<Step>, i: nat, k: string, client: Client,
      value: string, hint: string)
    requires Run(env, ws, steps) && i < |ws|
    ensures var db := ws[i].db;
            && (IsAccessToken(db, k, value) && db.accessTokens[k].clientId == client.id ==>
                  Revoke(db, client, value, hint) == db.(accessTokens := db.accessTokens - {k}))
            && (IsAccessToken(db, k, value) && db.accessTokens[k].clientId != client.id ==>
                  Revoke(db, client, value, hint) == db)
            && (IsRefreshToken(db, k, value) && db.refreshTokens[k].clientId == client.id ==>
                  Revoke(db, client, value, hint)
                  == db.(refreshTokens := db.refreshTokens - {k},
                         accessTokens := db.accessTokens - {db.refreshTokens[k].accessTokenId}))
            && (IsRefreshToken(db, k, value) && db.refreshTokens[k].clientId != client.id ==>
                  Revoke(db, client, value, hint) == db)
            && (Unknown(db, value) ==> Revoke(db, client, value, hint) == db)
  {
    var w := ws[i];
    ReachableIsGood(env, ws, steps, i);
    hide Run, Good, Revoke, Unknown;
    if IsAccessToken(w.db, k, value) {
      AccessRevocation(env, w.db, w.book, w.used, k, client, value, hint);
    }
    if IsRefreshToken(w.db, k, value) {
      RefreshRevocation(env, w.db, w.book, w.used, k, client, value, hint);
    }
    if Unknown(w.db, value) {
      UnknownRevocation(w.db, client, value, hint);
    }
  }

  /** Once a client has revoked its token, the value is no longer accepted anywhere. */
  lemma RevokedValuesAreRefused(env: Env, ws: seq<World>, steps: seq<Step>, i: nat, k: string, client: Client,
      value: string, hint: string, other: string, scope: string, now: Time, d: Draws)
    requires Run(env, ws, steps) && i < |ws|
    requires (IsAccessToken(ws[i].db, k, value) && ws[i].db.accessTokens[k].clientId == client.id)
             || (IsRefreshToken(ws[i].db, k, value) && ws[i].db.refreshTokens[k].clientId == client.id)
    ensures var after := Revoke(ws[i].db, client, value, hint);
            && ValidateAccessToken(env, after, value, now) == Err(InvalidToken)
            && Introspect(env, after, value, other, now) == Inactive
            && Refresh(env, after, client, value, scope, now, d) == Reply(after, Err(InvalidGrant))
  {
    var after := Revoke(ws[i].db, client, value, hint);
    ReachableIsGood(env, ws, steps, i);
    hide *;
    GoneValueIsUnknown(env, ws[i].db, ws[i].book, ws[i].used, k, client, value, hint);
    UnknownIsRefused(env, after, client, value, other, scope, now, d);
  }

  lemma UnknownIsRefused(env: Env, db: Db, client: Client, value: string, hint: string, scope: string, now: Time,
      d: Draws)
    requires Unknown(db, value)
    ensures ValidateAccessToken(env, db, value, now) == Err(InvalidToken)
            && Introspect(env, db, value, hint, now) == Inactive
            && Refresh(env, db, client, value, scope, now, d) == Reply(db, Err(InvalidGrant))
  {
    hide Unknown, AccessByHash, RefreshByHash, HashToken, JudgeRefresh, UseRefreshToken, FormatScope;
    UnknownValue(db, value);
  }

  // ---------- Introspection and bearer validation ----------

  /** A token works: it has not expired, its client is enabled, and its user, if any, may act. */
  ghost predicate Works(env: Env, db: Db, clientId: string, userId: string, expiresAt: Time, now: Time) {
    && now < expiresAt && EnabledClient(db.clients, clientId) && (userId != "" ==> OwnerMayAct(env, db.users, userId))
  }

  ghost function UserOf(db: Db, userId: string): Option<User>
    requires userId != "" ==> userId in db.users
  {
    if userId == "" then None else Some(db.users[userId])
  }

  /** Bearer validation accepts a value exactly when it is that of a stored access token that works, and
      hands out that token with its client and its user. */
  lemma ValidationAnswers(env: Env, db: Db, book: Book, used: set<string>, k: string, value: string, now: Time)
    requires Good(env, db, book, used) && IsAccessToken(db, k, value)
    ensures var t := db.accessTokens[k];
            ValidateAccessToken(env, db, value, now)
            == if Works(env, db, t.clientId, t.userId, t.expiresAt, now)
               then Ok(TokenInfo(t, db.clients[t.clientId], UserOf(db, t.userId))) else Err(InvalidToken)
  {
    hide Good, AccessByHash, OwnerActive, OwnerMayAct, MayAct, CanSignIn;
    assert OwnerMayAct(env, db.users, db.accessTokens[k].userId) ==> db.accessTokens[k].userId in db.users by {
      OwnerIsStored(env, db.users, db.accessTokens[k].userId);
    }
    ValueOfAccessToken(env, db, book, used, k, value);
    ActiveMeans(env, db, db.accessTokens[k].clientId);
    ActiveMeans(env, db, db.accessTokens[k].userId);
  }

  lemma OwnerIsStored(env: Env, users: map<string, User>, id: string)
    ensures OwnerMayAct(env, users, id) ==> id in users
  {
  }

  lemma OthersAreInvalid(env: Env, db: Db, value: string, now: Time)
    requires forall k :: !IsAccessToken(db, k, value)
    ensures ValidateAccessToken(env, db, value, now) == Err(InvalidToken)
  {
    if AccessByHash(db, HashToken(value)).Some? {
      var k :| k in db.accessTokens && db.accessTokens[k] == AccessByHash(db, HashToken(value)).value;
      assert IsAccessToken(db, k, value);
    }
  }

  /** What introspection tells of a token that works. */
  ghost predicate TellsToken(i: OAuthRules.Introspection, tokenType: TokenType, scopes: seq<string>, client: Client,
      user: Option<User>, createdAt: Time, expiresAt: Time) {
    && i.Active? && i.tokenType == tokenType && i.scope == FormatScope(scopes) && i.clientId == client.clientId
    && i.username == (if user.None? then "" else user.value.username)
    && i.subject == (if user.None? then "" else user.value.id)
    && i.issuedAt == createdAt / SECOND && i.expiresAt == expiresAt / SECOND
  }

  /** Introspection reports a stored token of either kind as active exactly when it works, whatever the
      hint, with the scopes, the client, the user and the times of its row. */
  lemma IntrospectionAnswers(env: Env, db: Db, book: Book, used: set<string>, k: string, value: string, hint: string,
      now: Time)
    requires Good(env, db, book, used)
    ensures IsAccessToken(db, k, value) ==>
              var t, i := db.accessTokens[k], Introspect(env, db, value, hint, now);
              if Works(env, db, t.clientId, t.userId, t.expiresAt, now)
              then TellsToken(i, Bearer, t.scopes, db.clients[t.clientId], UserOf(db, t.userId), t.createdAt,
                              t.expiresAt)
              else i == Inactive
    ensures IsRefreshToken(db, k, value) ==>
              var t, i := db.refreshTokens[k], Introspect(env, db, value, hint, now);
              if Works(env, db, t.clientId, t.userId, t.expiresAt, now)
              then TellsToken(i, RefreshType, t.scopes, db.clients[t.clientId], UserOf(db, t.userId), t.createdAt,
                              t.expiresAt)
              else i == Inactive
    ensures Unknown(db, value) ==> Introspect(env, db, value, hint, now) == Inactive
  {
    hide Good, AccessByHash, RefreshByHash, OwnerActive, OwnerMayAct, MayAct, CanSignIn, Unknown, FormatScope;
    UnknownValue(db, value);
    if IsAccessToken(db, k, value) {
      ValueOfAccessToken(env, db, book, used, k, value);
      ReportedToken(env, db, db.accessTokens[k].clientId, db.accessTokens[k].userId);
    }
    if IsRefreshToken(db, k, value) {
      ValueOfRefreshToken(env, db, book, used, k, value);
      ReportedToken(env, db, db.refreshTokens[k].clientId, db.refreshTokens[k].userId);
    }
  }

  lemma ReportedToken(env: Env, db: Db, clientId: string, userId: string)
    ensures OwnerActive(env, db, userId) <==> OwnerMayAct(env, db.users, userId)
    ensures ClientActive(db, clientId) <==> EnabledClient(db.clients, clientId)
    ensures OwnerMayAct(env, db.users, userId) ==> userId in db.users
  {
    ActiveMeans(env, db, clientId);
    ActiveMeans(env, db, userId);
  }
}
