/** Replays of authorization codes when requests interleave: whoever comes late revokes the tokens of
    the code, and that is final unless another request still carries the grant. */
module ConcurrencyReplay {
  import opened Identity
  import opened Database
  import opened AccountRules
  import opened OAuthRules
  import opened Interleaving
  import opened Concurrency
  import opened ConcurrencyInvariant
  import opened ConcurrencySteps
  import opened ConcurrencyTheorems

  // ---------- Codes are found by their values ----------

  lemma MovesKeepCodesIndexed(env: Env, db: Db, p: Proc, at: Time, id: string, value: string)
    requires CodeTable(db.codes)
    ensures CodeTable(Move(env, db, p, at, id, value).db.codes)
  {
    TokenWritesKeepCodes(env, db, p, at, id, value);
    hide NewAccess, NewRefresh, Rotated, Reused, JudgeCode, JudgeRefresh, OwnerActive, LookStep, LookUpStep,
      CreateAccessToken, CreateRefreshToken, UpdateRefreshToken, WithoutAccess;
    if p.Consuming? && ConsumeCode(db, p.code.id, p.now).error.None? {
      PutCode(db.codes, db.codes[p.code.id].(consumedAt := Some(p.now)));
    }
  }

  lemma EventsKeepCodesIndexed(env: Env, m: Machine, e: Event)
    requires CodeTable(m.db.codes) && Possible(m, e)
    ensures CodeTable(StepTo(env, m, e).db.codes)
  {
    hide CodeTable, Move, Recorded, NewCode;
    match e {
      case Run(pid, at, id, value) => MovesKeepCodesIndexed(env, m.db, m.procs[pid], at, id, value);
      case IssueCode(req, userId, id, value, at) =>
        if CreateCode(m.db, NewCode(req, userId, id, value, at)).error.None? {
          PutCode(m.db.codes, NewCode(req, userId, id, value, at));
        }
      case Remove(left) => FewerCodes(m.db.codes, left.codes);
      case _ =>
    }
  }

  lemma {:induction false} CodesStayIndexed(env: Env, ms: seq<Machine>, es: seq<Event>, i: nat)
    requires Trace(env, ms, es) && i < |ms|
    ensures CodeTable(ms[i].db.codes)
  {
    hide StepTo, Possible, CodeTable;
    if i == 0 {
      NoCodesAreIndexed(ms[0]);
    } else {
      CodesStayIndexed(env, ms, es, i - 1);
      EventsKeepCodesIndexed(env, ms[i - 1], es[i - 1]);
    }
  }

  lemma NoCodesAreIndexed(m: Machine)
    requires Starting(m)
    ensures CodeTable(m.db.codes)
  {
  }

  // ---------- Whoever comes late revokes ----------

  /** The code was used: it is marked or gone, and its id is never drawn again. */
  ghost predicate UsedUp(db: Db, used: set<string>, c: string) {
    c != "" && c in used && (c in db.codes ==> db.codes[c].consumedAt.Some?)
  }

  /** A store call for a code that is marked as used: the lookup by its own client, or the attempt to
      mark it again of a request that found it unused. */
  ghost predicate ComesLate(m: Machine, e: Event, c: string) {
    && e.Run? && e.pid in m.procs && c in m.db.codes && m.db.codes[c].consumedAt.Some?
    && var p := m.procs[e.pid];
       || (p.Looking? && m.db.codes[c].codeHash == HashToken(p.value) && p.client.id == m.db.codes[c].clientId)
       || (p.Consuming? && p.code.id == c)
  }

  lemma LateMovesRevoke(env: Env, m: Machine, e: Event, c: string)
    requires CodeTable(m.db.codes) && ComesLate(m, e, c)
    ensures Move(env, m.db, m.procs[e.pid], e.at, e.id, e.value) == Moved(m.db, RevokingRefresh(c))
  {
    var p := m.procs[e.pid];
    if p.Looking? {
      assert CodeByHash(m.db, HashToken(p.value)) == Some(m.db.codes[c]);
      hide VerifyCodeChallenge;
    }
  }

  /** In every interleaving a request that comes late starts to revoke, and its next two store calls
      delete first the refresh tokens and then the access tokens of the code. */
  lemma LateRequestsRevoke(env: Env, ms: seq<Machine>, es: seq<Event>, i: nat, c: string)
    requires Trace(env, ms, es) && i < |es|
    ensures i + 1 < |ms|
    ensures ComesLate(ms[i], es[i], c) ==>
              ms[i + 1].db == ms[i].db && ms[i + 1].procs == ms[i].procs[es[i].pid := RevokingRefresh(c)]
    ensures es[i].Run? && es[i].pid in ms[i].procs && ms[i].procs[es[i].pid] == RevokingRefresh(c) ==>
              && ms[i + 1].procs == ms[i].procs[es[i].pid := RevokingAccess(c)]
              && ms[i + 1].db == DeleteRefreshTokens(ms[i].db, CodeFilter(c))
    ensures es[i].Run? && es[i].pid in ms[i].procs && ms[i].procs[es[i].pid] == RevokingAccess(c) ==>
              && ms[i + 1].procs == ms[i].procs[es[i].pid := Done(false)]
              && ms[i + 1].db == DeleteAccessTokens(ms[i].db, CodeFilter(c))
  {
    CodesStayIndexed(env, ms, es, i);
    assert Possible(ms[i], es[i]) && ms[i + 1] == StepTo(env, ms[i], es[i]);
    hide Trace, CodeTable, ComesLate, Recorded, LookStep, LookUpStep, DeleteRefreshTokens, DeleteAccessTokens;
    IsARun(ms[i], es[i], c);
    if ComesLate(ms[i], es[i], c) {
      LateMovesRevoke(env, ms[i], es[i], c);
      hide Move;
    }
  }

  lemma IsARun(m: Machine, e: Event, c: string)
    ensures ComesLate(m, e, c) ==> e.Run? && e.pid in m.procs
  {
  }

  // ---------- Revoking requests know a used code ----------

  predicate Revokes(p: Proc, c: string) { p == RevokingRefresh(c) || p == RevokingAccess(c) }

  /** What revoking requests revoke is the grant of a code that was used. */
  ghost predicate RevokersKnow(m: Machine) {
    forall q, c :: q in m.procs && Revokes(m.procs[q], c) ==> UsedUp(m.db, m.used, c)
  }

  lemma CodesAreDrawn(env: Env, m: Machine, k: string)
    requires Sound(env, m) && k in m.db.codes
    ensures m.db.codes[k].id == k && k in m.used && k != ""
  {
    assert m.db.codes[k].id == k && CodeSound(m.db.codes[k], m.h) by {
      hide HistoryOk, AccessSound, RefreshSound, ProcSound, CodeSound;
    }
    hide RowsSound, ProcSound, AllTermsOk, AllFirstOk, AllConsumptionsOk;
  }

  lemma OnlyLateMovesRevoke(env: Env, m: Machine, p: Proc, at: Time, id: string, value: string, c: string)
    requires Sound(env, m) && Revokes(Move(env, m.db, p, at, id, value).proc, c)
    ensures Revokes(p, c) || UsedUp(m.db, m.used, c)
  {
    hide Sound, JudgeCode, JudgeRefresh, OwnerActive;
    if p.Looking? {
      var code := CodeByHash(m.db, HashToken(p.value)).value;
      var k :| k in m.db.codes && m.db.codes[k] == code;
      CodesAreDrawn(env, m, k);
      ReplayedIsUsed(env, p.client, code, p.redirectUri, p.verifier, at);
    } else if p.Consuming? {
      CodesAreDrawn(env, m, c);
    }
  }

  lemma ReplayedIsUsed(env: Env, client: Client, code: AuthorizationCode, redirectUri: string, verifier: string,
      now: Time)
    ensures JudgeCode(env, client, code, redirectUri, verifier, now) == Replayed ==> code.consumedAt.Some?
  {
  }

  lemma MovesKeepUsedUp(env: Env, db: Db, used: set<string>, p: Proc, at: Time, id: string, value: string, c: string)
    requires UsedUp(db, used, c)
    ensures UsedUp(Move(env, db, p, at, id, value).db, used + {id, value}, c)
  {
    hide NewAccess, NewRefresh, Rotated, Reused, JudgeCode, JudgeRefresh, OwnerActive, LookStep, LookUpStep,
      CreateAccessToken, CreateRefreshToken, UpdateRefreshToken;
    TokenWritesKeepCodes(env, db, p, at, id, value);
  }

  lemma TokenWritesKeepCodes(env: Env, db: Db, p: Proc, at: Time, id: string, value: string)
    ensures !p.Consuming? ==> Move(env, db, p, at, id, value).db.codes == db.codes
  {
    hide NewAccess, NewRefresh, Rotated, Reused, JudgeCode, JudgeRefresh, OwnerActive, LookStep, LookUpStep;
  }

  lemma EventsKeepUsedUp(env: Env, m: Machine, e: Event, c: string)
    requires Possible(m, e) && UsedUp(m.db, m.used, c)
    ensures UsedUp(StepTo(env, m, e).db, StepTo(env, m, e).used, c)
  {
    hide Move, Recorded, CodeHashTaken;
    if e.Run? {
      MovesKeepUsedUp(env, m.db, m.used, m.procs[e.pid], e.at, e.id, e.value, c);
      hide UsedUp;
    }
  }

  lemma EventsKeepRevokersKnowing(env: Env, m: Machine, e: Event)
    requires Possible(m, e) && Sound(env, m) && RevokersKnow(m)
    ensures RevokersKnow(StepTo(env, m, e))
  {
    hide Sound, UsedUp;
    var next := StepTo(env, m, e);
    forall q, c | q in next.procs && Revokes(next.procs[q], c) ensures UsedUp(next.db, next.used, c) {
      if e.Run? && e.pid == q {
        OnlyLateMovesRevoke(env, m, m.procs[q], e.at, e.id, e.value, c);
      }
      hide Move, Recorded;
      EventsKeepUsedUp(env, m, e, c);
    }
  }

  lemma {:induction false} RevokersAlwaysKnow(env: Env, ms: seq<Machine>, es: seq<Event>, i: nat)
    requires Trace(env, ms, es) && i < |ms|
    ensures RevokersKnow(ms[i])
  {
    hide StepTo, Possible, Sound, RevokersKnow;
    if i == 0 {
      NobodyRevokesYet(ms[0]);
    } else {
      RevokersAlwaysKnow(env, ms, es, i - 1);
      ReachableIsSound(env, ms, es, i - 1);
      EventsKeepRevokersKnowing(env, ms[i - 1], es[i - 1]);
    }
  }

  lemma NobodyRevokesYet(m: Machine)
    requires Starting(m)
    ensures RevokersKnow(m)
  {
  }

  // ---------- When it is final ----------

  /** The request may still store a token of the grant. */
  predicate Carries(p: Proc, c: string) {
    match p
    case FindingOwner(_, code) => code.id == c
    case MintingAccess(_, _, _, codeId, _) => codeId == c
    case MintingRefresh(_, access) => access.codeId == c
    case CheckingOwner(_, rt, _, _) => rt.codeId == c
    case Dropping(_, rt, _, _) => rt.codeId == c
    case Replacing(_, rt, _, _) => rt.codeId == c
    case RotatingOut(rt, _, _) => rt.codeId == c
    case RotatingIn(rt, _, _) => rt.codeId == c
    case Touching(rt, _, _) => rt.codeId == c
    case _ => false
  }

  ghost predicate NobodyCarries(procs: map<nat, Proc>, c: string) {
    forall q :: q in procs ==> !Carries(procs[q], c)
  }

  ghost predicate NoAccess(db: Db, c: string) {
    forall k :: k in db.accessTokens ==> db.accessTokens[k].codeId != c
  }

  ghost predicate NoRefresh(db: Db, c: string) {
    forall k :: k in db.refreshTokens ==> db.refreshTokens[k].codeId != c
  }

  /** Nothing can mint a token of the code any more. */
  ghost predicate Barren(m: Machine, c: string) {
    UsedUp(m.db, m.used, c) && NobodyCarries(m.procs, c) && NoRefresh(m.db, c)
  }

  lemma NewTokensKeepTheCode(client: Client, userId: string, scopes: seq<string>, codeId: string, id: string,
      value: string, at: Time)
    ensures var access := NewAccess(client, userId, scopes, codeId, id, value, at);
            access.codeId == codeId && access.id == id
    ensures forall access: AccessToken :: NewRefresh(client, access, id, value, at).codeId == access.codeId
  {
  }

  lemma SuccessorsKeepTheCode(rt: RefreshToken, accessId: string, id: string, value: string, at: Time)
    ensures Rotated(rt, accessId, id, value, at).codeId == rt.codeId && Reused(rt, accessId, at).codeId == rt.codeId
  {
  }

  lemma OthersCarryNothing(env: Env, db: Db, p: Proc, at: Time, id: string, value: string, c: string)
    requires !Carries(p, c) && NoRefresh(db, c) && (c in db.codes ==> db.codes[c].consumedAt.Some?)
    ensures !Carries(Move(env, db, p, at, id, value).proc, c)
  {
    hide NewAccess, NewRefresh, Rotated, Reused, JudgeCode, JudgeRefresh, OwnerActive, CreateAccessToken,
      CreateRefreshToken, UpdateRefreshToken, DeleteRefreshToken, WithoutAccess;
    match p {
      case MintingAccess(client, userId, scopes, codeId, _) =>
        NewTokensKeepTheCode(client, userId, scopes, codeId, id, value, at);
      case _ =>
    }
  }

  lemma OthersStoreNoRefresh(env: Env, db: Db, p: Proc, at: Time, id: string, value: string, c: string)
    requires !Carries(p, c) && NoRefresh(db, c)
    ensures NoRefresh(Move(env, db, p, at, id, value).db, c)
  {
    hide NewAccess, NewRefresh, Rotated, Reused, OwnerActive, LookStep, LookUpStep, RefreshHashTaken,
      AccessHashTaken;
    match p {
      case MintingRefresh(client, access) => NewTokensKeepTheCode(client, "", [], "", id, value, at);
      case RotatingIn(rt, accessId, now) => SuccessorsKeepTheCode(rt, accessId, id, value, now);
      case Touching(rt, accessId, now) => SuccessorsKeepTheCode(rt, accessId, id, value, now);
      case _ =>
    }
  }

  lemma OthersStoreNoAccess(env: Env, db: Db, p: Proc, at: Time, id: string, value: string, c: string)
    requires !Carries(p, c) && NoAccess(db, c)
    ensures NoAccess(Move(env, db, p, at, id, value).db, c)
  {
    hide NewAccess, NewRefresh, Rotated, Reused, OwnerActive, LookStep, LookUpStep, RefreshHashTaken,
      AccessHashTaken;
    match p {
      case MintingAccess(client, userId, scopes, codeId, _) =>
        NewTokensKeepTheCode(client, userId, scopes, codeId, id, value, at);
      case Replacing(client, rt, scopes, _) =>
        NewTokensKeepTheCode(client, rt.userId, scopes, rt.codeId, id, value, at);
      case _ =>
    }
  }

  /** A store call of a request that does not carry the grant. */
  lemma OthersMintNothing(env: Env, db: Db, p: Proc, at: Time, id: string, value: string, c: string)
    requires !Carries(p, c) && NoRefresh(db, c) && (c in db.codes ==> db.codes[c].consumedAt.Some?)
    ensures var m := Move(env, db, p, at, id, value);
            && !Carries(m.proc, c) && NoRefresh(m.db, c) && (NoAccess(db, c) ==> NoAccess(m.db, c))
  {
    hide Move, Carries, NoRefresh, NoAccess;
    OthersCarryNothing(env, db, p, at, id, value, c);
    OthersStoreNoRefresh(env, db, p, at, id, value, c);
    if NoAccess(db, c) {
      OthersStoreNoAccess(env, db, p, at, id, value, c);
    }
  }

  lemma EventsKeepBarren(env: Env, m: Machine, e: Event, c: string)
    requires Possible(m, e) && Barren(m, c)
    ensures var next := StepTo(env, m, e);
            Barren(next, c) && (NoAccess(m.db, c) ==> NoAccess(next.db, c))
  {
    EventsKeepUsedUp(env, m, e, c);
    hide Move, Recorded, CodeHashTaken;
    if e.Run? {
      OthersMintNothing(env, m.db, m.procs[e.pid], e.at, e.id, e.value, c);
      hide NoRefresh, NoAccess, Carries;
    }
  }

  lemma RevokedByCode(db: Db, c: string)
    requires c != ""
    ensures NoRefresh(DeleteRefreshTokens(db, CodeFilter(c)), c) && NoAccess(DeleteAccessTokens(db, CodeFilter(c)), c)
  {
  }

  /** The request is in the middle of its revocation, or through. */
  ghost predicate Revoking(m: Machine, q: nat, c: string) {
    && Barren(m, c) && q in m.procs
    && (m.procs[q] == RevokingAccess(c) || (m.procs[q] == Done(false) && NoAccess(m.db, c)))
  }

  lemma EventsKeepRevoking(env: Env, m: Machine, e: Event, q: nat, c: string)
    requires Possible(m, e) && Revoking(m, q, c)
    ensures Revoking(StepTo(env, m, e), q, c)
  {
    hide Barren, NoAccess, Recorded, DeleteAccessTokens;
    EventsKeepBarren(env, m, e, c);
    BarrenIsNamed(m, c);
    RevokedByCode(m.db, c);
    if !e.Run? || e.pid != q {
      hide Move;
    }
  }

  lemma BarrenIsNamed(m: Machine, c: string)
    requires Barren(m, c)
    ensures c != ""
  {
  }

  lemma {:induction false} RevokingGoesOn(env: Env, ms: seq<Machine>, es: seq<Event>, i: nat, j: nat, q: nat, c: string)
    requires Trace(env, ms, es) && i <= j < |ms| && Revoking(ms[i], q, c)
    ensures Revoking(ms[j], q, c)
    decreases j
  {
    hide StepTo, Possible, Revoking, Starting;
    if i < j {
      RevokingGoesOn(env, ms, es, i, j - 1, q, c);
      EventsKeepRevoking(env, ms[j - 1], es[j - 1], q, c);
    }
  }

  /** The first store call of a revocation. */
  lemma RevocationBegins(env: Env, m: Machine, e: Event, c: string)
    requires Possible(m, e) && RevokersKnow(m) && NobodyCarries(m.procs, c)
    requires e.Run? && e.pid in m.procs && m.procs[e.pid] == RevokingRefresh(c)
    ensures Revoking(StepTo(env, m, e), e.pid, c)
  {
    assert UsedUp(m.db, m.used, c) by {
      assert Revokes(m.procs[e.pid], c);
    }
    EventsKeepUsedUp(env, m, e, c);
    RevokedByCode(m.db, c);
    hide DeleteRefreshTokens, NoRefresh, UsedUp;
  }

  /** Replays are final in every interleaving: if nobody else carries the grant when the revocation of a
      late request deletes the refresh tokens, then no token of the code is stored when this request
      is through, or ever after. */
  lemma RevocationIsFinal(env: Env, ms: seq<Machine>, es: seq<Event>, i: nat, j: nat, c: string)
    requires Trace(env, ms, es) && i < |es| && i < j < |ms|
    requires es[i].Run? && es[i].pid in ms[i].procs && ms[i].procs[es[i].pid] == RevokingRefresh(c)
    requires NobodyCarries(ms[i].procs, c)
    ensures es[i].pid in ms[j].procs
            && (ms[j].procs[es[i].pid].Done? ==> NoAccess(ms[j].db, c) && NoRefresh(ms[j].db, c))
  {
    RevokersAlwaysKnow(env, ms, es, i);
    assert Possible(ms[i], es[i]) && ms[i + 1] == StepTo(env, ms[i], es[i]);
    hide StepTo, Possible, RevokersKnow, Revoking, NobodyCarries, Starting;
    RevocationBegins(env, ms[i], es[i], c);
    RevokingGoesOn(env, ms, es, i + 1, j, es[i].pid, c);
    hide Trace;
    RevokedIsBare(ms[j], es[i].pid, c);
  }

  lemma RevokedIsBare(m: Machine, q: nat, c: string)
    requires Revoking(m, q, c)
    ensures q in m.procs && (m.procs[q].Done? ==> NoAccess(m.db, c) && NoRefresh(m.db, c))
  {
  }
}
