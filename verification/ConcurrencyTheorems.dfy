/** What holds in every state of every interleaving of requests. */
module ConcurrencyTheorems {
  import opened Identity
  import opened Database
  import opened AccountRules
  import opened OAuthRules
  import opened Interleaving
  import opened Concurrency
  import opened ConcurrencyInvariant
  import opened ConcurrencySteps
  import opened ConcurrencyWrites
  import opened ConcurrencyRotations

  // ---------- Every event keeps the invariant ----------

  lemma RunStepSound(env: Env, m: Machine, pid: nat, at: Time, id: string, value: string)
    requires Sound(env, m) && pid in m.procs && FreshValues(m.used, id, value)
    ensures Sound(env, RunStep(env, m, pid, at, id, value)) && Grows(m.h, RunStep(env, m, pid, at, id, value).h)
  {
    var p, next := m.procs[pid], Move(env, m.db, m.procs[pid], at, id, value).proc;
    assert p.MintingRefresh? || p.RotatingIn? || p.Touching? ==> next.Done?;
    hide Sound, Grows, RunStep, Move, FreshValues;
    if Fails(p, next) {
      FailedStep(env, m, pid, at, id, value);
    } else {
      match p {
        case Looking(_, _, _, _) => LookingStep(env, m, pid, at, id, value);
        case Consuming(_, _, _, _, _) => ConsumingStep(env, m, pid, at, id, value);
        case FindingOwner(_, _) => OwnerStep(env, m, pid, at, id, value);
        case MintingAccess(_, _, _, _, _) => MintingAccessStep(env, m, pid, at, id, value);
        case MintingRefresh(_, _) => MintingRefreshStep(env, m, pid, at, id, value);
        case RevokingRefresh(_) => RevokingStep(env, m, pid, at, id, value);
        case RevokingAccess(_) => RevokingStep(env, m, pid, at, id, value);
        case LookingUp(_, _, _) => LookingUpStep(env, m, pid, at, id, value);
        case CheckingOwner(_, _, _, _) => OwnerStep(env, m, pid, at, id, value);
        case Dropping(_, _, _, _) => DroppingStep(env, m, pid, at, id, value);
        case Replacing(_, _, _, _) => ReplacingStep(env, m, pid, at, id, value);
        case RotatingOut(_, _, _) =>
          RotationMovesOn(env, m, pid, at, id, value);
          RotatingOutStep(env, m, pid, at, id, value);
        case RotatingIn(_, _, _) => RotatingInStep(env, m, pid, at, id, value);
        case BackingOut(_) => BackingOutStep(env, m, pid, at, id, value);
        case Touching(_, _, _) => TouchingStep(env, m, pid, at, id, value);
        case Done(_) => RevokingStep(env, m, pid, at, id, value);
      }
    }
  }

  lemma RotationMovesOn(env: Env, m: Machine, pid: nat, at: Time, id: string, value: string)
    requires pid in m.procs && m.procs[pid].RotatingOut?
    ensures var next := Move(env, m.db, m.procs[pid], at, id, value).proc; next.BackingOut? || next.RotatingIn?
  {
  }

  lemma BeginSound(env: Env, m: Machine, pid: nat, proc: Proc)
    requires Sound(env, m) && pid !in m.procs && Starts(proc)
    ensures Sound(env, m.(procs := m.procs[pid := proc]))
  {
    assert ProcSound(env, pid, proc, m.db, m.used, m.h);
    hide ProcSound, TokensShrink;
    NothingShrinks(m.db);
    NoEmptyIds(env, m);
    hide Sound;
    QuietStep(env, m, m.(procs := m.procs[pid := proc]), pid);
  }

  lemma RemovalSound(env: Env, m: Machine, left: Db)
    requires Sound(env, m) && TokensShrink(m.db, left)
    ensures Sound(env, m.(db := left))
  {
    var m' := m.(db := left);
    assert RowsSound(m') by {
      hide ProcSound, HistoryOk, AccessSound, RefreshSound, CodeSound;
    }
    hide ProcSound, HistoryOk, RowsSound, TokensShrink, Grows, Spares, RowsKept;
    SameHistoryGrows(m.h);
    DeletionsKeepRows(m.db, left, m.used);
    forall q | q in m.procs ensures ProcSound(env, q, m.procs[q], left, m.used, m.h) {
      ProcStable(env, q, m.procs[q], m.db, m.used, m.h, left, m.used, m.h);
    }
  }

  lemma ManagementSound(env: Env, m: Machine, clients: map<string, Client>, users: map<string, User>)
    requires Sound(env, m)
    ensures Sound(env, m.(db := m.db.(clients := clients, users := users)))
  {
    var left := m.db.(clients := clients, users := users);
    SameTablesShrink(m.db, left);
    hide Sound, TokensShrink;
    RemovalSound(env, m, left);
  }

  lemma SameTablesShrink(db: Db, left: Db)
    requires left.accessTokens == db.accessTokens && left.refreshTokens == db.refreshTokens && left.codes == db.codes
             && left.userTokens == db.userTokens
    ensures TokensShrink(db, left)
  {
  }

  // ---------- A new authorization code ----------

  function WithIssued(h: History, code: AuthorizationCode): History {
    h.(issued := h.issued[code.id := code])
  }

  lemma IssuedGrows(h: History, used: set<string>, code: AuthorizationCode)
    requires KeysOk(h, used) && code.id !in used
    ensures var h' := WithIssued(h, code);
            Grows(h, h') && SettledKept(h, h') && StoredRightsKept(h, h') && (forall q :: Spares(q, h, h'))
  {
  }

  lemma IssuedKeys(h: History, used: set<string>, code: AuthorizationCode, value: string)
    requires KeysOk(h, used) && FreshValues(used, code.id, value) && code.consumedAt.None?
    ensures KeysOk(WithIssued(h, code), used + {code.id, value})
  {
  }

  lemma IssuedCodeSound(env: Env, h: History, used: set<string>, code: AuthorizationCode)
    requires HistoryOk(env, h, used) && code.id !in used && code.consumedAt.None?
    ensures CodeSound(code, WithIssued(h, code))
  {
    assert code == code.(consumedAt := None);
    hide AllTermsOk, AllFirstOk;
  }

  lemma RowsAfterIssue(m: Machine, h': History, used': set<string>)
    requires RowsSound(m) && Grows(m.h, h') && SettledKept(m.h, h') && StoredRightsKept(m.h, h') && m.used <= used'
    requires h'.owner == m.h.owner && h'.consumedBy == m.h.consumedBy
    ensures RowsSound(Machine(m.db, used', m.procs, h'))
  {
    hide Grows, SettledKept, StoredRightsKept, AccessSound, RefreshSound, CodeSound;
    forall k | k in m.db.accessTokens ensures AccessSound(m.db.accessTokens[k], h', m.procs) {
      AccessRowKept(m.db.accessTokens[k], m.h, h', m.procs, m.procs);
    }
    forall k | k in m.db.refreshTokens ensures RefreshSound(m.db.refreshTokens[k], used', h') {
      RefreshRowKept(m.db.refreshTokens[k], m.used, m.h, used', h');
    }
    forall k | k in m.db.codes ensures CodeSound(m.db.codes[k], h') {
      CodeKept(m.db.codes[k], m.h, h');
    }
  }

  lemma CodeRowAdded(m: Machine, code: AuthorizationCode)
    requires RowsSound(m) && CodeSound(code, m.h)
    ensures RowsSound(m.(db := m.db.(codes := m.db.codes[code.id := code])))
  {
    hide AccessSound, RefreshSound, CodeSound;
  }

  lemma IssuedProcs(env: Env, m: Machine, h': History, db: Db, used': set<string>)
    requires Sound(env, m) && Grows(m.h, h') && (forall q :: Spares(q, m.h, h')) && m.used <= used'
    requires db.accessTokens == m.db.accessTokens && db.refreshTokens == m.db.refreshTokens
    ensures forall q :: q in m.procs ==> ProcSound(env, q, m.procs[q], db, used', h')
  {
    hide HistoryOk, RowsSound, ProcSound, Grows, Spares, RowsKept;
    SameTables(m.db, db, m.used);
    forall q | q in m.procs ensures ProcSound(env, q, m.procs[q], db, used', h') {
      ProcStable(env, q, m.procs[q], m.db, m.used, m.h, db, used', h');
    }
  }

  lemma IssueCodeMove(env: Env, m: Machine, req: AuthorizeRequest, userId: string, id: string, value: string, at: Time)
    requires FreshValues(m.used, id, value)
    ensures var code := NewCode(req, userId, id, value, at);
            var m' := StepTo(env, m, IssueCode(req, userId, id, value, at));
            && code.id == id && code.consumedAt.None?
            && (m' == Machine(m.db, m.used + {id, value}, m.procs, m.h)
                || m' == Machine(m.db.(codes := m.db.codes[id := code]), m.used + {id, value}, m.procs,
                                 WithIssued(m.h, code)))
  {
  }

  lemma IssueCodeSound(env: Env, m: Machine, req: AuthorizeRequest, userId: string, id: string, value: string, at: Time)
    requires Sound(env, m) && FreshValues(m.used, id, value)
    ensures Sound(env, StepTo(env, m, IssueCode(req, userId, id, value, at)))
    ensures Grows(m.h, StepTo(env, m, IssueCode(req, userId, id, value, at)).h)
  {
    var code, m' := NewCode(req, userId, id, value, at), StepTo(env, m, IssueCode(req, userId, id, value, at));
    hide NewCode, StepTo, HistoryOk, RowsSound, ProcSound, Grows, Spares, SettledKept, StoredRightsKept, KeysOk,
      CodeSound, FreshValues, WithIssued;
    IssueCodeMove(env, m, req, userId, id, value, at);
    NoEmptyIds(env, m);
    FreshGrows(m.used, id, value);
    IdIsNew(m.used, id, value);
    HistoryKeys(env, m.h, m.used);
    SameHistoryGrows(m.h);
    SameHistoryKeepsRights(m.h);
    if m'.h == m.h && m'.db == m.db {
      HistoryOkGrows(env, m.h, m.used, m'.used);
      RowsAfterIssue(m, m.h, m'.used);
      IssuedProcs(env, m, m.h, m.db, m'.used);
    } else {
      IssuedGrows(m.h, m.used, code);
      IssuedKeys(m.h, m.used, code, value);
      SettledDomain(m.h, m'.h);
      IssuedFields(m.h, code);
      SameGrantsHistoryOk(env, m.h, m.used, m'.h, m'.used);
      IssuedCodeSound(env, m.h, m.used, code);
      RowsAfterIssue(m, m'.h, m'.used);
      CodeRowAdded(Machine(m.db, m'.used, m.procs, m'.h), code);
      IssuedProcs(env, m, m'.h, m'.db, m'.used);
    }
  }

  lemma IssuedFields(h: History, code: AuthorizationCode)
    ensures var h' := WithIssued(h, code);
            h'.terms == h.terms && h'.first == h.first && h'.consumedBy == h.consumedBy && h'.owner == h.owner
  {
  }

  // ---------- Every reachable state ----------

  lemma EventSound(env: Env, m: Machine, e: Event)
    requires Sound(env, m) && Possible(m, e)
    ensures Sound(env, StepTo(env, m, e)) && Grows(m.h, StepTo(env, m, e).h)
  {
    SameHistoryGrows(m.h);
    hide Sound, Grows, RunStep, FreshValues, TokensShrink;
    match e {
      case Begin(pid, proc) => BeginSound(env, m, pid, proc);
      case Run(pid, at, id, value) => RunStepSound(env, m, pid, at, id, value);
      case IssueCode(req, userId, id, value, at) => IssueCodeSound(env, m, req, userId, id, value, at);
      case Remove(left) => RemovalSound(env, m, left);
      case Manage(clients, users) => ManagementSound(env, m, clients, users);
    }
  }

  lemma StartIsSound(env: Env, m: Machine)
    requires Starting(m)
    ensures Sound(env, m)
  {
  }

  lemma {:induction false} ReachableIsSound(env: Env, ms: seq<Machine>, es: seq<Event>, i: nat)
    requires Trace(env, ms, es) && i < |ms|
    ensures Sound(env, ms[i])
  {
    hide Sound, StepTo, Possible, Starting;
    if i == 0 {
      StartIsSound(env, ms[0]);
    } else {
      ReachableIsSound(env, ms, es, i - 1);
      EventSound(env, ms[i - 1], es[i - 1]);
    }
  }

  // ---------- Rotation never forks ----------

  /** In every state a family has at most one stored refresh token, and so has an authorization code. */
  lemma AtMostOneRefreshToken(env: Env, ms: seq<Machine>, es: seq<Event>, i: nat, j: string, k: string)
    requires Trace(env, ms, es) && i < |ms| && j in ms[i].db.refreshTokens && k in ms[i].db.refreshTokens
    ensures j in ms[i].h.family && k in ms[i].h.family
    ensures ms[i].h.family[j] == ms[i].h.family[k] ==> j == k
    ensures ms[i].db.refreshTokens[j].codeId == ms[i].db.refreshTokens[k].codeId != "" ==> j == k
  {
    hide Sound, Trace;
    ReachableIsSound(env, ms, es, i);
    OneRightPerFamily(env, ms[i], j, k);
  }

  lemma OneRightPerFamily(env: Env, m: Machine, j: string, k: string)
    requires Sound(env, m) && j in m.db.refreshTokens && k in m.db.refreshTokens
    ensures j in m.h.family && k in m.h.family && (m.h.family[j] == m.h.family[k] ==> j == k)
    ensures m.db.refreshTokens[j].codeId == m.db.refreshTokens[k].codeId != "" ==> j == k
  {
    var a, b := m.db.refreshTokens[j], m.db.refreshTokens[k];
    StoredRow(m, j);
    StoredRow(m, k);
    FamilyIsGranted(env, m.h, m.used, a);
    FamilyIsGranted(env, m.h, m.used, b);
    HistoryTerms(env, m.h, m.used, m.h.family[j]);
    HistoryTerms(env, m.h, m.used, m.h.family[k]);
    hide Sound, SameGrant;
  }

  lemma HistoryTerms(env: Env, h: History, used: set<string>, f: string)
    requires HistoryOk(env, h, used) && f in h.terms
    ensures TermsOk(h, f)
  {
    hide KeysOk, AllFirstOk, AllConsumptionsOk, TermsOk;
  }

  /** No request is in flight. */
  predicate Quiescent(m: Machine) {
    forall p :: p in m.procs ==> m.procs[p].Done?
  }

  /** A code whose family was issued with one-time refresh tokens, or without any, has at most one
      access token whenever no request is in flight: losers of the rotation race clean up. */
  lemma AtMostOneAccessToken(env: Env, ms: seq<Machine>, es: seq<Event>, i: nat, j: string, k: string)
    requires Trace(env, ms, es) && i < |ms| && Quiescent(ms[i]) && j in ms[i].db.accessTokens
             && k in ms[i].db.accessTokens
    requires j in ms[i].h.family && !Reusable(ms[i].h, ms[i].h.family[j])
    requires ms[i].db.accessTokens[j].codeId == ms[i].db.accessTokens[k].codeId != ""
    ensures j == k
  {
    hide Sound, Trace;
    ReachableIsSound(env, ms, es, i);
    AccessTokenIsSettled(env, ms[i], j);
    AccessTokenIsSettled(env, ms[i], k);
  }

  lemma AccessTokenIsSettled(env: Env, m: Machine, k: string)
    requires Sound(env, m) && k in m.db.accessTokens
    ensures k in m.h.family && m.h.family[k] in m.h.settled
    ensures Reusable(m.h, m.h.family[k]) || k == m.h.settled[m.h.family[k]] || Owned(m.h, m.procs, k)
    ensures var c := m.db.accessTokens[k].codeId; c != "" ==> c in m.h.codeFamily && m.h.codeFamily[c] == m.h.family[k]
  {
    assert m.db.accessTokens[k].id == k && AccessSound(m.db.accessTokens[k], m.h, m.procs) by {
      hide HistoryOk, ProcSound, AccessSound, RefreshSound, CodeSound;
    }
    HistoryTerms(env, m.h, m.used, m.h.family[k]);
    hide HistoryOk, ProcSound, RowsSound;
  }

  /** In any state, an access token of such a family that is not the settled one belongs to a
      request that is still refreshing and will either settle it or delete it. */
  lemma UnsettledTokensHaveOwners(env: Env, ms: seq<Machine>, es: seq<Event>, i: nat, k: string)
    requires Trace(env, ms, es) && i < |ms| && k in ms[i].db.accessTokens
    ensures var h := ms[i].h;
            && k in h.family && h.family[k] in h.settled
            && (!Reusable(h, h.family[k]) && k != h.settled[h.family[k]] ==>
                  k in h.owner && h.owner[k] in ms[i].procs && Owns(ms[i].procs[h.owner[k]], k))
  {
    hide Sound, Trace;
    ReachableIsSound(env, ms, es, i);
    AccessTokenIsSettled(env, ms[i], k);
  }
}
