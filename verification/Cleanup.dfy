/** The periodic cleanup (pkg/store/store.go) removes exactly what has expired, and nobody who asks
    later can tell the difference. */
module Cleanup {
  import opened Identity
  import opened Database
  import opened AccountRules
  import opened OAuthRules
  import opened Scope
  import opened Invariants
  import opened Minting
  import opened Evolution
  import opened Requests
  import opened Introspection
  import opened Runs

  // ---------- What is removed ----------

  /** Exactly the rows that have expired by then are removed, from all four tables. */
  lemma RemovesExactlyTheExpired(db: Db, now: Time, k: string)
    ensures var b := DeleteExpired(db, now);
            && b.clients == db.clients && b.users == db.users
            && (k in b.accessTokens <==> k in db.accessTokens && !ExpiredAt(db.accessTokens[k].expiresAt, now))
            && (k in b.refreshTokens <==> k in db.refreshTokens && !ExpiredAt(db.refreshTokens[k].expiresAt, now))
            && (k in b.codes <==> k in db.codes && !ExpiredAt(db.codes[k].expiresAt, now))
            && (k in b.userTokens <==> k in db.userTokens && !ExpiredAt(db.userTokens[k].expiresAt, now))
            && (k in b.accessTokens ==> b.accessTokens[k] == db.accessTokens[k])
            && (k in b.refreshTokens ==> b.refreshTokens[k] == db.refreshTokens[k])
            && (k in b.codes ==> b.codes[k] == db.codes[k])
            && (k in b.userTokens ==> b.userTokens[k] == db.userTokens[k])
  {
  }

  // ---------- Lookups after the cleanup ----------

  /** A lookup finds the same token, or nothing where the token had expired. */
  lemma AccessLookupAfter(db: Db, now: Time, h: Digest)
    requires AccessTable(db.accessTokens)
    ensures var was := AccessByHash(db, h);
            AccessByHash(DeleteExpired(db, now), h) ==
              if was.Some? && !ExpiredAt(was.value.expiresAt, now) then was else None
  {
    var b, was := DeleteExpired(db, now), AccessByHash(db, h);
    var found := AccessByHash(b, h);
    forall k ensures k in b.accessTokens <==> k in db.accessTokens && !ExpiredAt(db.accessTokens[k].expiresAt, now) {
      RemovesExactlyTheExpired(db, now, k);
    }
    hide DeleteExpired;
    if found.Some? {
      var k :| k in b.accessTokens && b.accessTokens[k] == found.value;
      RemovesExactlyTheExpired(db, now, k);
    }
    if was.Some? {
      var k :| k in db.accessTokens && db.accessTokens[k] == was.value;
      RemovesExactlyTheExpired(db, now, k);
    }
  }

  lemma RefreshLookupAfter(db: Db, now: Time, h: Digest)
    requires RefreshTable(db.refreshTokens)
    ensures var was := RefreshByHash(db, h);
            RefreshByHash(DeleteExpired(db, now), h) ==
              if was.Some? && !ExpiredAt(was.value.expiresAt, now) then was else None
  {
    var b, was := DeleteExpired(db, now), RefreshByHash(db, h);
    var found := RefreshByHash(b, h);
    hide DeleteExpired;
    if found.Some? {
      var k :| k in b.refreshTokens && b.refreshTokens[k] == found.value;
      RemovesExactlyTheExpired(db, now, k);
    }
    if was.Some? {
      var k :| k in db.refreshTokens && db.refreshTokens[k] == was.value;
      RemovesExactlyTheExpired(db, now, k);
    }
  }

  lemma CodeLookupAfter(db: Db, now: Time, h: Digest)
    requires CodeTable(db.codes)
    ensures var was := CodeByHash(db, h);
            CodeByHash(DeleteExpired(db, now), h) ==
              if was.Some? && !ExpiredAt(was.value.expiresAt, now) then was else None
  {
    var b, was := DeleteExpired(db, now), CodeByHash(db, h);
    var found := CodeByHash(b, h);
    hide DeleteExpired;
    if found.Some? {
      var k :| k in b.codes && b.codes[k] == found.value;
      RemovesExactlyTheExpired(db, now, k);
    }
    if was.Some? {
      var k :| k in db.codes && db.codes[k] == was.value;
      RemovesExactlyTheExpired(db, now, k);
    }
  }

  // ---------- Answers after the cleanup ----------

  lemma SameOwner(env: Env, a: Db, b: Db, id: string)
    requires a.users == b.users && a.clients == b.clients
    ensures OwnerActive(env, b, id) == OwnerActive(env, a, id) && ClientActive(b, id) == ClientActive(a, id)
  {
  }

  /** Bearer validation answers the same from then on. */
  lemma CleanupKeepsValidation(env: Env, db: Db, value: string, now: Time, t: Time)
    requires Indexed(db) && now <= t
    ensures ValidateAccessToken(env, DeleteExpired(db, now), value, t) == ValidateAccessToken(env, db, value, t)
  {
    var b, found := DeleteExpired(db, now), AccessByHash(db, HashToken(value));
    hide Indexed, DeleteExpired, AccessByHash, OwnerActive, ClientActive, TokensShrink;
    AccessTableOf(db);
    AccessLookupAfter(db, now, HashToken(value));
    CleanupShrinks(db, now);
    if found.Some? {
      SameOwner(env, db, b, found.value.userId);
      SameOwner(env, db, b, found.value.clientId);
      ActiveIsStored(env, db, found.value.userId);
      ActiveIsStored(env, db, found.value.clientId);
    }
  }

  lemma ActiveIsStored(env: Env, db: Db, id: string)
    ensures OwnerActive(env, db, id) ==> id in db.users
    ensures ClientActive(db, id) ==> id in db.clients
  {
  }

  lemma AccessTableOf(db: Db)
    requires Indexed(db)
    ensures AccessTable(db.accessTokens) && RefreshTable(db.refreshTokens) && CodeTable(db.codes)
  {
    hide ClientTable, UserTable, AccessTable, RefreshTable, CodeTable, UserTokenTable;
  }

  /** And so does introspection, for a value that does not name both kinds of token. */
  lemma CleanupKeepsIntrospection(env: Env, db: Db, value: string, hint: string, now: Time, t: Time)
    requires Indexed(db) && now <= t && OneKind(db, value)
    ensures Introspect(env, DeleteExpired(db, now), value, hint, t) == Introspect(env, db, value, hint, t)
  {
    hide Indexed, DeleteExpired, FindToken, OwnerActive, ClientActive, TokensShrink, OneKind, FormatScope;
    var b, found := DeleteExpired(db, now), FindToken(db, value, hint);
    FindAfter(db, value, hint, now);
    CleanupShrinks(db, now);
    if found.Some? {
      SameOwner(env, db, b, found.value.userId);
      SameOwner(env, db, b, found.value.clientId);
      ActiveIsStored(env, db, found.value.userId);
      ActiveIsStored(env, db, found.value.clientId);
    }
  }

  lemma FindAfter(db: Db, value: string, hint: string, now: Time)
    requires Indexed(db) && OneKind(db, value)
    ensures var was := FindToken(db, value, hint);
            FindToken(DeleteExpired(db, now), value, hint) ==
              if was.Some? && !ExpiredAt(was.value.expiresAt, now) then was else None
  {
    hide Indexed, DeleteExpired, AccessByHash, RefreshByHash;
    AccessTableOf(db);
    AccessLookupAfter(db, now, HashToken(value));
    RefreshLookupAfter(db, now, HashToken(value));
  }

  lemma CleanupShrinks(db: Db, now: Time)
    ensures TokensShrink(db, DeleteExpired(db, now)) && DeleteExpired(db, now).clients == db.clients
            && DeleteExpired(db, now).users == db.users
  {
  }

  lemma CleanedIsGood(env: Env, db: Db, book: Book, used: set<string>, now: Time)
    requires Good(env, db, book, used)
    ensures Good(env, DeleteExpired(db, now), book, used)
  {
    hide Good, TokensShrink, DeleteExpired;
    CleanupShrinks(db, now);
    ShrinkKeepsGood(env, db, DeleteExpired(db, now), book, used);
  }

  lemma ExpiredIsRefused(client: Client, rt: RefreshToken, scope: string, t: Time)
    requires ExpiredAt(rt.expiresAt, t)
    ensures JudgeRefresh(client, rt, scope, t) == Err(InvalidGrant)
  {
  }

  lemma ResponseOfUse(db: Db, client: Client, rt: RefreshToken, scopes: seq<string>, t: Time, d: Draws)
    requires UseRefreshToken(db, client, rt, scopes, t, d).result.Ok?
    ensures UseRefreshToken(db, client, rt, scopes, t, d).result
         == Ok(Response(NewAccess(client, rt.userId, scopes, rt.codeId, d.accessId, d.accessValue, d.accessAt),
                        d.accessValue,
                        if rt.usage == OneTime then d.refreshValue else ""))
  {
    hide NewAccess, CreateAccessToken, CreateRefreshToken, UpdateRefreshToken, DeleteRefreshToken, WithoutAccess,
      Rotated, Reused, Response;
  }

  lemma RefreshResponse(env: Env, db: Db, book: Book, used: set<string>, client: Client, rt: RefreshToken,
      scopes: seq<string>, t: Time, d: Draws)
    requires Good(env, db, book, used) && Fresh(d, used) && rt.id in db.refreshTokens
             && db.refreshTokens[rt.id] == rt && rt.clientId == client.id
    ensures UseRefreshToken(db, client, rt, scopes, t, d).result
         == Ok(Response(NewAccess(client, rt.userId, scopes, rt.codeId, d.accessId, d.accessValue, d.accessAt),
                        d.accessValue,
                        if rt.usage == OneTime then d.refreshValue else ""))
  {
    hide Good, Fresh, Kept, UseRefreshToken, Refreshed, NewAccess, Response;
    RefreshKept(env, db, client, rt, scopes, t, book, used, d);
    ResponseOfUse(db, client, rt, scopes, t, d);
  }

  /** The same refresh token, still stored, is used alike before and after the cleanup. */
  lemma UseAfterCleanup(env: Env, db: Db, book: Book, used: set<string>, client: Client, rt: RefreshToken,
      scopes: seq<string>, now: Time, t: Time, d: Draws)
    requires Good(env, db, book, used) && Fresh(d, used) && rt.clientId == client.id && !ExpiredAt(rt.expiresAt, now)
    requires exists k :: k in db.refreshTokens && db.refreshTokens[k] == rt
    ensures UseRefreshToken(DeleteExpired(db, now), client, rt, scopes, t, d).result
            == UseRefreshToken(db, client, rt, scopes, t, d).result
  {
    hide Good, Fresh, RefreshTable, DeleteExpired, UseRefreshToken, Response, NewAccess;
    RefreshTableOfGood(env, db, book, used);
    RefreshRowStored(db, rt);
    RowSurvives(db, rt, now);
    CleanedIsGood(env, db, book, used, now);
    RefreshResponse(env, db, book, used, client, rt, scopes, t, d);
    RefreshResponse(env, DeleteExpired(db, now), book, used, client, rt, scopes, t, d);
  }

  lemma RowSurvives(db: Db, rt: RefreshToken, now: Time)
    requires rt.id in db.refreshTokens && db.refreshTokens[rt.id] == rt && !ExpiredAt(rt.expiresAt, now)
    ensures rt.id in DeleteExpired(db, now).refreshTokens && DeleteExpired(db, now).refreshTokens[rt.id] == rt
  {
    RemovesExactlyTheExpired(db, now, rt.id);
    hide DeleteExpired;
  }

  /** A refresh at a later time succeeds or fails alike, with the same response or error. */
  lemma CleanupKeepsRefresh(env: Env, db: Db, book: Book, used: set<string>, client: Client, value: string,
      scope: string, now: Time, t: Time, d: Draws)
    requires Good(env, db, book, used) && Fresh(d, used) && now <= t
    ensures Refresh(env, DeleteExpired(db, now), client, value, scope, t, d).result
            == Refresh(env, db, client, value, scope, t, d).result
  {
    var b, found := DeleteExpired(db, now), RefreshByHash(db, HashToken(value));
    hide Good, Fresh, Indexed, RefreshTable, DeleteExpired, RefreshByHash, JudgeRefresh, UseRefreshToken, OwnerActive,
      TokensShrink;
    RefreshTableOfGood(env, db, book, used);
    RefreshLookupAfter(db, now, HashToken(value));
    CleanupShrinks(db, now);
    if found.Some? {
      SameOwner(env, db, b, found.value.userId);
      if ExpiredAt(found.value.expiresAt, now) {
        ExpiredIsRefused(client, found.value, scope, t);
      } else if JudgeRefresh(client, found.value, scope, t).Ok? {
        UsableTokenIsOwn(client, found.value, scope, t);
        UseAfterCleanup(env, db, book, used, client, found.value, JudgeRefresh(client, found.value, scope, t).value,
                        now, t, d);
      }
    }
  }

  lemma RefreshTableOfGood(env: Env, db: Db, book: Book, used: set<string>)
    requires Good(env, db, book, used)
    ensures RefreshTable(db.refreshTokens) && CodeTable(db.codes) && Indexed(db)
  {
    hide RefSafe, TokensOk, BookOk, PeopleOk, ClientTable, UserTable, AccessTable, RefreshTable, CodeTable,
      UserTokenTable;
  }

  lemma RefreshRowStored(db: Db, rt: RefreshToken)
    requires RefreshTable(db.refreshTokens) && exists k :: k in db.refreshTokens && db.refreshTokens[k] == rt
    ensures rt.id in db.refreshTokens && db.refreshTokens[rt.id] == rt
  {
  }

  lemma CodeSurvives(db: Db, code: AuthorizationCode, now: Time)
    requires code.id in db.codes && db.codes[code.id] == code && !ExpiredAt(code.expiresAt, now)
    ensures code.id in DeleteExpired(db, now).codes && DeleteExpired(db, now).codes[code.id] == code
  {
    RemovesExactlyTheExpired(db, now, code.id);
    hide DeleteExpired;
  }

  /** The same unused code, still stored, is exchanged alike before and after the cleanup. */
  lemma IssueAfterCleanup(env: Env, db: Db, book: Book, used: set<string>, client: Client, code: AuthorizationCode,
      now: Time, t: Time, d: Draws)
    requires Good(env, db, book, used) && Fresh(d, used) && code.consumedAt.None? && !ExpiredAt(code.expiresAt, now)
    requires exists k :: k in db.codes && db.codes[k] == code
    ensures IssueTokens(ConsumeCode(DeleteExpired(db, now), code.id, t).db, client, code.userId, code.scopes, true,
                        code.id, d).result
         == IssueTokens(ConsumeCode(db, code.id, t).db, client, code.userId, code.scopes, true, code.id, d).result
    ensures OwnerActive(env, ConsumeCode(DeleteExpired(db, now), code.id, t).db, code.userId)
            == OwnerActive(env, ConsumeCode(db, code.id, t).db, code.userId)
  {
    var b := DeleteExpired(db, now);
    hide Good, Fresh, Indexed, DeleteExpired, IssueTokens, OwnerActive, TokensShrink, ConsumeCode, Response, NewAccess;
    RefreshTableOfGood(env, db, book, used);
    CodeIsStored(db, code);
    CodeSurvives(db, code, now);
    CleanedIsGood(env, db, book, used, now);
    ExchangeResponse(env, db, book, used, client, code, t, d);
    ExchangeResponse(env, b, book, used, client, code, t, d);
    CleanupShrinks(db, now);
    ConsumptionKeepsUsers(db, code.id, t);
    ConsumptionKeepsUsers(b, code.id, t);
    SameOwner(env, ConsumeCode(db, code.id, t).db, ConsumeCode(b, code.id, t).db, code.userId);
  }

  /** An exchange of a code at a later time answers alike, too. */
  lemma CleanupKeepsExchange(env: Env, db: Db, book: Book, used: set<string>, client: Client, value: string,
      redirectUri: string, verifier: string,
                             now: Time, t: Time, d: Draws)
    requires Good(env, db, book, used) && Fresh(d, used) && now <= t
    ensures ExchangeCode(env, DeleteExpired(db, now), client, value, redirectUri, verifier, t, d).result
         == ExchangeCode(env, db, client, value, redirectUri, verifier, t, d).result
  {
    var found := CodeByHash(db, HashToken(value));
    hide Good, Fresh, Indexed, CodeTable, DeleteExpired, CodeByHash, JudgeCode, IssueTokens, OwnerActive,
      RevokeTokens, ConsumeCode;
    RefreshTableOfGood(env, db, book, used);
    CodeLookupAfter(db, now, HashToken(value));
    if found.Some? {
      if ExpiredAt(found.value.expiresAt, now) {
        ExpiredCodeIsRefused(env, client, found.value, redirectUri, verifier, t);
      } else if JudgeCode(env, client, found.value, redirectUri, verifier, t) == Exchangeable {
        UsableCodeIsUnused(env, client, found.value, redirectUri, verifier, t);
        IssueAfterCleanup(env, db, book, used, client, found.value, now, t, d);
      }
    }
  }

  lemma ConsumptionKeepsUsers(db: Db, id: string, t: Time)
    ensures ConsumeCode(db, id, t).db.users == db.users && ConsumeCode(db, id, t).db.clients == db.clients
  {
  }

  lemma ExpiredCodeIsRefused(env: Env, client: Client, code: AuthorizationCode, redirectUri: string, verifier: string,
      t: Time)
    requires ExpiredAt(code.expiresAt, t)
    ensures JudgeCode(env, client, code, redirectUri, verifier, t) != Exchangeable
  {
  }

  lemma IssueResponse(env: Env, m: Db, book: Book, used: set<string>, client: Client, userId: string,
      scopes: seq<string>, codeId: string, d: Draws)
    requires Good(env, m, book, used) && Fresh(d, used)
    ensures IssueTokens(m, client, userId, scopes, true, codeId, d).result
         == Ok(Response(NewAccess(client, userId, scopes, codeId, d.accessId, d.accessValue, d.accessAt), d.accessValue,
                        if client.AllowsGrant(RefreshTokenGrantType) then d.refreshValue else ""))
  {
    TokensOfGood(env, m, book, used);
    IssueNeverCollides(m, book, used, client, userId, scopes, true, codeId, d);
    hide Good, Indexed, TokensOk, Fresh, NewAccess, NewRefresh, CreateAccessToken, CreateRefreshToken, Response, Issued;
  }

  lemma TokensOfGood(env: Env, db: Db, book: Book, used: set<string>)
    requires Good(env, db, book, used)
    ensures Indexed(db) && TokensOk(db, book, used)
  {
  }

  lemma ExchangeResponse(env: Env, db: Db, book: Book, used: set<string>, client: Client, code: AuthorizationCode,
      t: Time, d: Draws)
    requires Good(env, db, book, used) && Fresh(d, used) && code.id in db.codes && db.codes[code.id] == code
             && code.consumedAt.None?
    ensures IssueTokens(ConsumeCode(db, code.id, t).db, client, code.userId, code.scopes, true, code.id, d).result
         == Ok(Response(NewAccess(client, code.userId, code.scopes, code.id, d.accessId, d.accessValue, d.accessAt),
                        d.accessValue,
                        if client.AllowsGrant(RefreshTokenGrantType) then d.refreshValue else ""))
  {
    hide Good, Fresh, IssueTokens, ConsumeCode, Response, NewAccess, CodeReady;
    ConsumeKeepsGood(env, db, code.id, t, book, used);
    IssueResponse(env, ConsumeCode(db, code.id, t).db, book, used, client, code.userId, code.scopes, code.id, d);
  }

  /** In every reachable state: after a cleanup nobody who asks at that time or later, with whatever
      value, can tell the difference. */
  lemma CleanupIsUnnoticed(env: Env, ws: seq<World>, steps: seq<Step>, i: nat, now: Time, t: Time, value: string,
      hint: string,
                           client: Client, scope: string, redirectUri: string, verifier: string, d: Draws)
    requires Run(env, ws, steps) && i < |ws| && now <= t && Fresh(d, ws[i].used)
    ensures var a, b := ws[i].db, DeleteExpired(ws[i].db, now);
            && ValidateAccessToken(env, b, value, t) == ValidateAccessToken(env, a, value, t)
            && Introspect(env, b, value, hint, t) == Introspect(env, a, value, hint, t)
            && Refresh(env, b, client, value, scope, t, d).result == Refresh(env, a, client, value, scope, t, d).result
            && ExchangeCode(env, b, client, value, redirectUri, verifier, t, d).result
               == ExchangeCode(env, a, client, value, redirectUri, verifier, t, d).result
  {
    hide Run, Good, Indexed, Fresh, OneKind, DeleteExpired, ValidateAccessToken, Introspect, Refresh, ExchangeCode;
    ReachableIsGood(env, ws, steps, i);
    ReachableValuesHaveOneKind(env, ws, steps, i, value);
    RefreshTableOfGood(env, ws[i].db, ws[i].book, ws[i].used);
    CleanupKeepsValidation(env, ws[i].db, value, now, t);
    CleanupKeepsIntrospection(env, ws[i].db, value, hint, now, t);
    CleanupKeepsRefresh(env, ws[i].db, ws[i].book, ws[i].used, client, value, scope, now, t, d);
    CleanupKeepsExchange(env, ws[i].db, ws[i].book, ws[i].used, client, value, redirectUri, verifier, now, t, d);
  }

  // ---------- What cleanup does give up ----------

  /** A consumed code that was cleaned up no longer revokes anything when it is presented again. The
      answer is the same error, but the tokens stay. */
  lemma CleanupEndsReplayDetection(env: Env, db: Db, client: Client, value: string, redirectUri: string,
      verifier: string,
                                   now: Time, t: Time, d: Draws, code: AuthorizationCode)
    requires Indexed(db) && CodeByHash(db, HashToken(value)) == Some(code)
    requires code.clientId == client.id && code.consumedAt.Some? && ExpiredAt(code.expiresAt, now)
    ensures ExchangeCode(env, db, client, value, redirectUri, verifier, t, d)
            == Reply(RevokeTokens(db, CodeFilter(code.id)), Err(InvalidGrant))
    ensures var b := DeleteExpired(db, now);
            ExchangeCode(env, b, client, value, redirectUri, verifier, t, d) == Reply(b, Err(InvalidGrant))
  {
    assert CodeTable(db.codes);
    hide Indexed, CodeTable, DeleteExpired, CodeByHash, IssueTokens, RevokeTokens, ConsumeCode;
    CodeLookupAfter(db, now, HashToken(value));
  }

  /** Requests read the clock to the millisecond, the cleanup to the nanosecond. */
  function Truncated(t: Time): Time {
    t - t % MILLISECOND
  }

  /** A row that was removed is expired for every later request, too, exactly when rows expire at
      whole milliseconds; otherwise a request in the same millisecond would still accept it. */
  lemma TruncatedClocksAgree(expiresAt: Time)
    ensures (forall cleanup: Time, request: Time :: cleanup <= request && ExpiredAt(expiresAt, cleanup) ==>
               ExpiredAt(expiresAt, Truncated(request)))
            <==> expiresAt % MILLISECOND == 0
  {
    if expiresAt % MILLISECOND == 0 {
      forall request: Time | expiresAt <= request ensures ExpiredAt(expiresAt, Truncated(request)) {
        var a, b := expiresAt / MILLISECOND, request / MILLISECOND;
        assert expiresAt == a * MILLISECOND && Truncated(request) == b * MILLISECOND && a <= b;
      }
    } else {
      assert ExpiredAt(expiresAt, expiresAt) && !ExpiredAt(expiresAt, Truncated(expiresAt));
    }
  }
}
