/** Concurrent requests. Every store method holds the mutex, so a request is a sequence of atomic
    store calls, and the calls of any number of requests interleave in any order. The clock is not
    restricted: each step may read any time. */
module Interleaving {
  import opened Identity
  import opened Database
  import opened AccountRules
  import opened OAuthRules
  import opened AdminRules

  /** Where a request is: the next store call, with the local variables that are still needed. */
  datatype Proc =
    // authorization_code grant
    | Looking(client: Client, value: string, redirectUri: string, verifier: string)
    | Consuming(client: Client, code: AuthorizationCode, redirectUri: string, verifier: string, now: Time)
    | FindingOwner(client: Client, code: AuthorizationCode)
    // IssueTokens, for this and the other grants
    | MintingAccess(client: Client, userId: string, scopes: seq<string>, codeId: string, withRefresh: bool)
    | MintingRefresh(client: Client, access: AccessToken)
    // RevokeGrant
    | RevokingRefresh(codeId: string)
    | RevokingAccess(codeId: string)
    // refresh_token grant
    | LookingUp(client: Client, refreshValue: string, scope: string)
    | CheckingOwner(client: Client, rt: RefreshToken, scopes: seq<string>, now: Time)
    | Dropping(client: Client, rt: RefreshToken, scopes: seq<string>, now: Time)
    | Replacing(client: Client, rt: RefreshToken, scopes: seq<string>, now: Time)
    | RotatingOut(rt: RefreshToken, accessId: string, now: Time)
    | RotatingIn(rt: RefreshToken, accessId: string, now: Time)
    | BackingOut(accessId: string)
    | Touching(rt: RefreshToken, accessId: string, now: Time)
    | Done(ok: bool)

  datatype Moved = Moved(db: Db, proc: Proc)

  /** One store call of a request, and what it decides to do next. The step may read the clock (at)
      and draw a fresh id and token value. */
  ghost function Move(env: Env, db: Db, p: Proc, at: Time, id: string, value: string): Moved {
    match p
    case Looking(_, _, _, _) => Moved(db, LookStep(env, db, p, at))
    case Consuming(client, code, _, _, now) =>
      var w := ConsumeCode(db, code.id, now);
      Moved(w.db, if w.error == Some(Conflict) then RevokingRefresh(code.id)
                  else if w.error.Some? then Done(false)
                  else FindingOwner(client, code))
    case FindingOwner(client, code) =>
      Moved(db, if OwnerActive(env, db, code.userId)
                then MintingAccess(client, code.userId, code.scopes, code.id, true) else Done(false))
    case MintingAccess(client, userId, scopes, codeId, withRefresh) =>
      var access := NewAccess(client, userId, scopes, codeId, id, value, at);
      var w := CreateAccessToken(db, access);
      Moved(w.db, if w.error.Some? then Done(false)
                  else if withRefresh && client.AllowsGrant(RefreshTokenGrantType) then MintingRefresh(client, access)
                  else Done(true))
    case MintingRefresh(client, access) =>
      var w := CreateRefreshToken(db, NewRefresh(client, access, id, value, at));
      Moved(w.db, Done(w.error.None?))
    case RevokingRefresh(codeId) => Moved(DeleteRefreshTokens(db, CodeFilter(codeId)), RevokingAccess(codeId))
    case RevokingAccess(codeId) => Moved(DeleteAccessTokens(db, CodeFilter(codeId)), Done(false))
    case LookingUp(_, _, _) => Moved(db, LookUpStep(db, p, at))
    case CheckingOwner(client, rt, scopes, now) =>
      Moved(db, if OwnerActive(env, db, rt.userId) then Dropping(client, rt, scopes, now) else Done(false))
    case Dropping(client, rt, scopes, now) =>
      Moved(WithoutAccess(db, rt.accessTokenId), Replacing(client, rt, scopes, now))
    case Replacing(client, rt, scopes, now) =>
      var access := NewAccess(client, rt.userId, scopes, rt.codeId, id, value, at);
      var w := CreateAccessToken(db, access);
      Moved(w.db, if w.error.Some? then Done(false)
                  else if rt.usage == OneTime then RotatingOut(rt, id, now)
                  else Touching(rt, id, now))
    case RotatingOut(rt, accessId, now) =>
      var w := DeleteRefreshToken(db, rt.id);
      Moved(w.db, if w.error.Some? then BackingOut(accessId) else RotatingIn(rt, accessId, now))
    case RotatingIn(rt, accessId, now) =>
      var w := CreateRefreshToken(db, Rotated(rt, accessId, id, value, now));
      Moved(w.db, Done(w.error.None?))
    case BackingOut(accessId) => Moved(DeleteAccessToken(db, accessId).db, Done(false))
    case Touching(rt, accessId, now) =>
      var w := UpdateRefreshToken(db, Reused(rt, accessId, now));
      Moved(w.db, Done(w.error.None?))
    case Done(_) => Moved(db, p)
  }

  /** GetAuthorizationCodeByHash and the checks on the copy that it returns. */
  ghost function LookStep(env: Env, db: Db, p: Proc, at: Time): Proc
    requires p.Looking?
  {
    match CodeByHash(db, HashToken(p.value))
    case None => Done(false)
    case Some(code) =>
      match JudgeCode(env, p.client, code, p.redirectUri, p.verifier, at)
      case Rejected => Done(false)
      case Replayed => RevokingRefresh(code.id)
      case Exchangeable => Consuming(p.client, code, p.redirectUri, p.verifier, at)
  }

  /** GetRefreshTokenByHash and the checks on the copy that it returns. */
  ghost function LookUpStep(db: Db, p: Proc, at: Time): Proc
    requires p.LookingUp?
  {
    match RefreshByHash(db, HashToken(p.refreshValue))
    case None => Done(false)
    case Some(rt) =>
      match JudgeRefresh(p.client, rt, p.scope, at)
      case Err(_) => Done(false)
      case Ok(scopes) =>
        if rt.userId == "" then Dropping(p.client, rt, scopes, at) else CheckingOwner(p.client, rt, scopes, at)
  }

  // ---------- A request that runs alone ----------

  /** One store call after the other, with nobody in between: each call has its own clock reading,
      id and value. */
  ghost function Alone(env: Env, m: Moved, inputs: seq<(Time, string, string)>): Moved
    decreases |inputs|
  {
    if inputs == [] then m
    else Alone(env, Move(env, m.db, m.proc, inputs[0].0, inputs[0].1, inputs[0].2), inputs[1..])
  }

  lemma DoneStaysDone(env: Env, m: Moved, inputs: seq<(Time, string, string)>)
    requires m.proc.Done?
    ensures Alone(env, m, inputs) == m
  {
    if inputs != [] {
      assert Move(env, m.db, m.proc, inputs[0].0, inputs[0].1, inputs[0].2) == m;
      DoneStaysDone(env, m, inputs[1..]);
    }
  }

  lemma AloneGoesOn(env: Env, m: Moved, inputs: seq<(Time, string, string)>)
    requires inputs != []
    ensures Alone(env, m, inputs) == Alone(env, Move(env, m.db, m.proc, inputs[0].0, inputs[0].1, inputs[0].2),
                                           inputs[1..])
    ensures Alone(env, m, []) == m
  {
  }

  lemma RefusedWritesChangeNothing(db: Db, a: AccessToken, r: RefreshToken)
    ensures CreateAccessToken(db, a).error.Some? ==> CreateAccessToken(db, a).db == db
    ensures CreateRefreshToken(db, r).error.Some? ==> CreateRefreshToken(db, r).db == db
  {
  }

  /** From the middle: minting the access token, and the refresh token if there is one. */
  lemma IssueAlone(env: Env, db: Db, client: Client, userId: string, scopes: seq<string>, codeId: string,
      withRefresh: bool, d: Draws)
    ensures var r := IssueTokens(db, client, userId, scopes, withRefresh, codeId, d);
            Alone(env, Moved(db, MintingAccess(client, userId, scopes, codeId, withRefresh)),
                  [(d.accessAt, d.accessId, d.accessValue), (d.refreshAt, d.refreshId, d.refreshValue)])
                    == Moved(r.db, Done(r.result.Ok?))
  {
    var inputs := [(d.accessAt, d.accessId, d.accessValue), (d.refreshAt, d.refreshId, d.refreshValue)];
    var m0 := Moved(db, MintingAccess(client, userId, scopes, codeId, withRefresh));
    var m1 := Move(env, db, m0.proc, d.accessAt, d.accessId, d.accessValue);
    var access := NewAccess(client, userId, scopes, codeId, d.accessId, d.accessValue, d.accessAt);
    var refresh := NewRefresh(client, access, d.refreshId, d.refreshValue, d.refreshAt);
    var m2 := Move(env, m1.db, m1.proc, d.refreshAt, d.refreshId, d.refreshValue);
    assert inputs[1..] == [(d.refreshAt, d.refreshId, d.refreshValue)] && inputs[1..][1..] == [];
    AloneGoesOn(env, m0, inputs);
    AloneGoesOn(env, m1, inputs[1..]);
    AloneGoesOn(env, m2, inputs);
    hide Alone, NewAccess, NewRefresh, CreateAccessToken, CreateRefreshToken, Response;
    RefusedWritesChangeNothing(db, access, refresh);
    RefusedWritesChangeNothing(m1.db, access, refresh);
    if m1.proc.Done? {
      DoneStaysDone(env, m1, inputs[1..]);
    }
  }

  function ExchangeInputs(now: Time, d: Draws): seq<(Time, string, string)> {
    [(now, "", ""), (now, "", ""), (now, "", "")]
      + [(d.accessAt, d.accessId, d.accessValue), (d.refreshAt, d.refreshId, d.refreshValue)]
  }

  lemma CodeIsKept(db: Db, code: AuthorizationCode)
    requires CodeTable(db.codes) && exists k :: k in db.codes && db.codes[k] == code
    ensures code.id in db.codes && db.codes[code.id] == code
  {
  }

  /** From the middle: the code is marked as used, the owner is looked up, and tokens are issued. */
  lemma ConsumeAlone(env: Env, db: Db, client: Client, code: AuthorizationCode, redirectUri: string, verifier: string,
      now: Time, d: Draws)
    requires code.id in db.codes && db.codes[code.id].consumedAt.None?
    ensures var m := ConsumeCode(db, code.id, now).db;
            var r := if !OwnerActive(env, m, code.userId) then Reply(m, Err(InvalidGrant))
                     else IssueTokens(m, client, code.userId, code.scopes, true, code.id, d);
            Alone(env, Moved(db, Consuming(client, code, redirectUri, verifier, now)), ExchangeInputs(now, d)[1..])
              == Moved(r.db, Done(r.result.Ok?))
  {
    var s1 := ExchangeInputs(now, d)[1..];
    var s2 := s1[1..];
    assert s2[1..] == [(d.accessAt, d.accessId, d.accessValue), (d.refreshAt, d.refreshId, d.refreshValue)];
    var m1 := Moved(db, Consuming(client, code, redirectUri, verifier, now));
    var m2 := Move(env, db, m1.proc, now, "", "");
    var m3 := Move(env, m2.db, m2.proc, now, "", "");
    hide Alone, IssueTokens, OwnerActive;
    AloneGoesOn(env, m1, s1);
    AloneGoesOn(env, m2, s2);
    if m3.proc.Done? {
      DoneStaysDone(env, m3, s2[1..]);
    } else {
      IssueAlone(env, m3.db, client, code.userId, code.scopes, code.id, true, d);
    }
  }

  lemma RevokeAlone(env: Env, db: Db, codeId: string, now: Time, d: Draws)
    ensures Alone(env, Moved(db, RevokingRefresh(codeId)), ExchangeInputs(now, d)[1..])
            == Moved(RevokeTokens(db, CodeFilter(codeId)), Done(false))
  {
    var s1 := ExchangeInputs(now, d)[1..];
    var m1 := Moved(db, RevokingRefresh(codeId));
    var m2 := Move(env, db, m1.proc, now, "", "");
    var m3 := Move(env, m2.db, m2.proc, now, "", "");
    hide Alone;
    AloneGoesOn(env, m1, s1);
    AloneGoesOn(env, m2, s1[1..]);
    RevokedInOrder(db, codeId);
    DoneStaysDone(env, m3, s1[1..][1..]);
  }

  /** A code exchange that nobody interrupts does what ExchangeCode says. */
  lemma ExchangeAlone(env: Env, db: Db, client: Client, value: string, redirectUri: string, verifier: string,
      now: Time, d: Draws)
    requires Indexed(db)
    ensures var r := ExchangeCode(env, db, client, value, redirectUri, verifier, now, d);
            Alone(env, Moved(db, Looking(client, value, redirectUri, verifier)), ExchangeInputs(now, d))
              == Moved(r.db, Done(r.result.Ok?))
  {
    assert CodeTable(db.codes);
    var s0 := ExchangeInputs(now, d);
    var m0 := Moved(db, Looking(client, value, redirectUri, verifier));
    var m1 := Move(env, db, m0.proc, now, "", "");
    hide Alone, Indexed, CodeTable, JudgeCode, IssueTokens, OwnerActive, RevokeTokens, CodeByHash, ConsumeCode,
      ExchangeInputs;
    InputsExist(now, d);
    AloneGoesOn(env, m0, s0);
    var found := CodeByHash(db, HashToken(value));
    if m1.proc.Done? {
      DoneStaysDone(env, m1, s0[1..]);
    } else {
      CodeIsKept(db, found.value);
      JudgedUnused(env, client, found.value, redirectUri, verifier, now);
      if m1.proc.Consuming? {
        ConsumeAlone(env, db, client, found.value, redirectUri, verifier, now, d);
      } else {
        RevokeAlone(env, db, found.value.id, now, d);
      }
    }
  }

  lemma InputsExist(now: Time, d: Draws)
    ensures ExchangeInputs(now, d) != [] && ExchangeInputs(now, d)[0] == (now, "", "")
  {
  }

  lemma RevokedInOrder(db: Db, codeId: string)
    ensures RevokeTokens(db, CodeFilter(codeId))
            == DeleteAccessTokens(DeleteRefreshTokens(db, CodeFilter(codeId)), CodeFilter(codeId))
  {
  }

  lemma JudgedUnused(env: Env, client: Client, code: AuthorizationCode, redirectUri: string, verifier: string,
      now: Time)
    ensures JudgeCode(env, client, code, redirectUri, verifier, now) == Exchangeable ==>
              code.consumedAt.None? && code.clientId == client.id
  {
  }

  lemma TokenIsKept(db: Db, rt: RefreshToken)
    requires RefreshTable(db.refreshTokens) && exists k :: k in db.refreshTokens && db.refreshTokens[k] == rt
    ensures rt.id in db.refreshTokens && db.refreshTokens[rt.id] == rt
            && !RefreshHashTaken(db.refreshTokens, rt.tokenHash, Some(rt.id))
  {
  }

  function ReplaceInputs(now: Time, d: Draws): seq<(Time, string, string)> {
    [(now, "", ""), (d.accessAt, d.accessId, d.accessValue), (now, "", ""), (d.refreshAt, d.refreshId, d.refreshValue)]
  }

  lemma StoredTokenCanBeWritten(db: Db, b: Db, rt: RefreshToken, accessId: string, now: Time)
    requires rt.id in db.refreshTokens && !RefreshHashTaken(db.refreshTokens, rt.tokenHash, Some(rt.id))
             && b.refreshTokens == db.refreshTokens
    ensures DeleteRefreshToken(b, rt.id).error.None? && UpdateRefreshToken(b, Reused(rt, accessId, now)).error.None?
  {
  }

  lemma AccessWritesKeepRefreshTokens(db: Db, id: string, t: AccessToken)
    ensures WithoutAccess(db, id).refreshTokens == db.refreshTokens
            && CreateAccessToken(db, t).db.refreshTokens == db.refreshTokens
  {
  }

  /** From the middle: rotating or touching the refresh token. */
  lemma FinishAlone(env: Env, db: Db, rt: RefreshToken, accessId: string, now: Time, d: Draws)
    requires rt.id in db.refreshTokens && !RefreshHashTaken(db.refreshTokens, rt.tokenHash, Some(rt.id))
    ensures var inputs := [(now, "", ""), (d.refreshAt, d.refreshId, d.refreshValue)];
            && (var w := CreateRefreshToken(DeleteRefreshToken(db, rt.id).db,
                                            Rotated(rt, accessId, d.refreshId, d.refreshValue, now));
                Alone(env, Moved(db, RotatingOut(rt, accessId, now)), inputs) == Moved(w.db, Done(w.error.None?)))
            && Alone(env, Moved(db, Touching(rt, accessId, now)), inputs)
               == Moved(UpdateRefreshToken(db, Reused(rt, accessId, now)).db, Done(true))
  {
    var s0 := [(now, "", ""), (d.refreshAt, d.refreshId, d.refreshValue)];
    var s1 := s0[1..];
    assert s1 == [(d.refreshAt, d.refreshId, d.refreshValue)] && s1[1..] == [];
    var rotating, touching := Moved(db, RotatingOut(rt, accessId, now)), Moved(db, Touching(rt, accessId, now));
    var m1 := Move(env, db, rotating.proc, now, "", "");
    var m2 := Move(env, m1.db, m1.proc, d.refreshAt, d.refreshId, d.refreshValue);
    var t1 := Move(env, db, touching.proc, now, "", "");
    hide Alone, RefreshHashTaken, Rotated, Reused, CreateRefreshToken, UpdateRefreshToken, DeleteRefreshToken;
    StoredTokenCanBeWritten(db, db, rt, accessId, now);
    AloneGoesOn(env, rotating, s0);
    AloneGoesOn(env, m1, s1);
    AloneGoesOn(env, m2, s0);
    AloneGoesOn(env, touching, s0);
    DoneStaysDone(env, t1, s1);
  }

  /** From the middle: replacing the access token, then the rest. */
  lemma ReplaceAlone(env: Env, db: Db, client: Client, rt: RefreshToken, scopes: seq<string>, now: Time, d: Draws)
    requires rt.id in db.refreshTokens && !RefreshHashTaken(db.refreshTokens, rt.tokenHash, Some(rt.id))
    ensures var r := UseRefreshToken(db, client, rt, scopes, now, d);
            Alone(env, Moved(db, Dropping(client, rt, scopes, now)), ReplaceInputs(now, d))
              == Moved(r.db, Done(r.result.Ok?))
  {
    var s0 := ReplaceInputs(now, d);
    var s1, s2 := s0[1..], s0[2..];
    assert s1[1..] == s2 && s2 == [(now, "", ""), (d.refreshAt, d.refreshId, d.refreshValue)];
    var m0 := Moved(db, Dropping(client, rt, scopes, now));
    var m1 := Move(env, db, m0.proc, now, "", "");
    var m2 := Move(env, m1.db, m1.proc, d.accessAt, d.accessId, d.accessValue);
    var access := NewAccess(client, rt.userId, scopes, rt.codeId, d.accessId, d.accessValue, d.accessAt);
    assert access.id == d.accessId;
    hide Alone, RefreshHashTaken, NewAccess, Rotated, Reused, CreateAccessToken, CreateRefreshToken,
      UpdateRefreshToken, DeleteRefreshToken,
      WithoutAccess, Response;
    AloneGoesOn(env, m0, s0);
    AloneGoesOn(env, m1, s1);
    AccessWritesKeepRefreshTokens(db, rt.accessTokenId, access);
    AccessWritesKeepRefreshTokens(m1.db, rt.accessTokenId, access);
    RefusedWritesChangeNothing(m1.db, access, rt);
    if m2.proc.Done? {
      DoneStaysDone(env, m2, s2);
    } else {
      FinishAlone(env, m2.db, rt, d.accessId, now, d);
      RefusedWritesChangeNothing(DeleteRefreshToken(m2.db, rt.id).db, access,
                                 Rotated(rt, d.accessId, d.refreshId, d.refreshValue, now));
    }
  }

  function RefreshInputs(now: Time, d: Draws, withOwner: bool): seq<(Time, string, string)> {
    (if withOwner then [(now, "", ""), (now, "", "")] else [(now, "", "")]) + ReplaceInputs(now, d)
  }

  lemma LookUpMoves(env: Env, db: Db, p: Proc, now: Time)
    ensures p.LookingUp? ==> Move(env, db, p, now, "", "") == Moved(db, LookUpStep(db, p, now))
    ensures p.CheckingOwner? ==>
              Move(env, db, p, now, "", "")
              == Moved(db, if OwnerActive(env, db, p.rt.userId) then Dropping(p.client, p.rt, p.scopes, p.now)
                           else Done(false))
  {
    hide LookUpStep, OwnerActive;
  }

  /** A refresh that nobody interrupts does what Refresh says. */
  lemma RefreshAlone(env: Env, db: Db, client: Client, value: string, scope: string, now: Time, d: Draws)
    requires Indexed(db)
    ensures var r, rt := Refresh(env, db, client, value, scope, now, d), RefreshByHash(db, HashToken(value));
            Alone(env, Moved(db, LookingUp(client, value, scope)),
                  RefreshInputs(now, d, rt.Some? && rt.value.userId != ""))
            == Moved(r.db, Done(r.result.Ok?))
  {
    assert RefreshTable(db.refreshTokens);
    hide Indexed, RefreshTable, JudgeRefresh, UseRefreshToken, OwnerActive, RefreshByHash, RefreshHashTaken;
    var found := RefreshByHash(db, HashToken(value));
    var withOwner := found.Some? && found.value.userId != "";
    var s0 := RefreshInputs(now, d, withOwner);
    var s1 := s0[1..];
    assert if withOwner then s1[1..] == ReplaceInputs(now, d) else s1 == ReplaceInputs(now, d);
    var m0 := Moved(db, LookingUp(client, value, scope));
    var m1 := Move(env, db, m0.proc, now, "", "");
    var m2 := Move(env, m1.db, m1.proc, now, "", "");
    LookUpMoves(env, db, m0.proc, now);
    LookUpMoves(env, m1.db, m1.proc, now);
    hide Alone, Move;
    AloneGoesOn(env, m0, s0);
    AloneGoesOn(env, m1, s1);
    if m1.proc.Done? {
      DoneStaysDone(env, m1, s1);
    } else {
      TokenIsKept(db, found.value);
      ReplaceAlone(env, db, client, found.value, JudgeRefresh(client, found.value, scope, now).value, now, d);
      if withOwner && m2.proc.Done? {
        DoneStaysDone(env, m2, s1[1..]);
      }
    }
  }
}
