/** Every step of every request keeps the invariant. */
module ConcurrencySteps {
  import opened Identity
  import opened Database
  import opened AccountRules
  import opened OAuthRules
  import opened Interleaving
  import opened Concurrency
  import opened ConcurrencyInvariant

  // ---------- Steps that record nothing ----------

  lemma NothingShrinks(db: Db)
    ensures TokensShrink(db, db)
  {
  }

  lemma FreshGrows(used: set<string>, id: string, value: string)
    requires FreshValues(used, id, value) && "" !in used
    ensures used <= used + {id, value} && "" !in used + {id, value}
  {
  }

  /** The request moved on to p', the rows only got fewer, and the history stayed. */
  lemma QuietRun(env: Env, m: Machine, m': Machine, pid: nat, id: string, value: string)
    requires Sound(env, m) && pid in m.procs && FreshValues(m.used, id, value)
    requires m' == Machine(m'.db, m.used + {id, value}, m'.procs, m.h) && TokensShrink(m.db, m'.db)
    requires pid in m'.procs && m'.procs == m.procs[pid := m'.procs[pid]]
    requires ProcSound(env, pid, m'.procs[pid], m'.db, m.used, m.h)
    requires forall k :: k in m'.db.accessTokens && Owns(m.procs[pid], k) ==> Owns(m'.procs[pid], k)
    ensures Sound(env, m') && Grows(m.h, m'.h)
  {
    assert "" !in m.used by {
      hide RowsSound, ProcSound, AllTermsOk, AllFirstOk, AllConsumptionsOk;
    }
    hide Sound, ProcSound, TokensShrink, Owns, Grows, Spares, RowsKept;
    FreshGrows(m.used, id, value);
    SameHistoryGrows(m.h);
    SameRowsKept(m'.db, m.used);
    ProcStable(env, pid, m'.procs[pid], m'.db, m.used, m.h, m'.db, m'.used, m.h);
    QuietStep(env, m, m', pid);
  }

  lemma SameRowsKept(db: Db, used: set<string>)
    ensures RowsKept(db, db, used)
  {
  }

  lemma FoundCodeIsSound(env: Env, m: Machine, code: AuthorizationCode)
    requires Sound(env, m) && exists k :: k in m.db.codes && m.db.codes[k] == code
    ensures CodeSound(code, m.h) && code.id in m.db.codes && m.db.codes[code.id] == code
    ensures code.id in m.h.issued && code.id != ""
  {
    hide ProcSound, AccessSound, RefreshSound, AllTermsOk, AllFirstOk, AllConsumptionsOk;
  }

  lemma FoundRefreshIsSound(env: Env, m: Machine, t: RefreshToken)
    requires Sound(env, m) && exists k :: k in m.db.refreshTokens && m.db.refreshTokens[k] == t
    ensures RefreshSound(t, m.used, m.h) && t.id in m.db.refreshTokens && m.db.refreshTokens[t.id] == t
            && Unchanged(t, m.db)
  {
    hide ProcSound, HistoryOk, AccessSound, RefreshSound, CodeSound;
  }

  lemma ExchangeableIsUnused(env: Env, client: Client, code: AuthorizationCode, redirectUri: string, verifier: string,
      now: Time)
    requires JudgeCode(env, client, code, redirectUri, verifier, now) == Exchangeable
    ensures code.consumedAt.None? && code.clientId == client.id && code == code.(consumedAt := None)
  {
  }

  lemma RefreshStaysWithinGrant(client: Client, rt: RefreshToken, scope: string, now: Time)
    requires JudgeRefresh(client, rt, scope, now).Ok?
    ensures rt.clientId == client.id && now < rt.expiresAt
    ensures forall s :: s in JudgeRefresh(client, rt, scope, now).value ==> s in rt.scopes && s in client.allowedScopes
  {
  }

  lemma LookingStep(env: Env, m: Machine, pid: nat, at: Time, id: string, value: string)
    requires Sound(env, m) && pid in m.procs && FreshValues(m.used, id, value) && m.procs[pid].Looking?
    ensures Sound(env, RunStep(env, m, pid, at, id, value)) && Grows(m.h, RunStep(env, m, pid, at, id, value).h)
  {
    hide Sound, JudgeCode, CodeByHash, TokensShrink, FreshValues, CodeSound;
    var p := m.procs[pid];
    var found := CodeByHash(m.db, HashToken(p.value));
    if found.Some? {
      FoundCodeIsSound(env, m, found.value);
      if JudgeCode(env, p.client, found.value, p.redirectUri, p.verifier, at) == Exchangeable {
        ExchangeableIsUnused(env, p.client, found.value, p.redirectUri, p.verifier, at);
        SoundCodeIsIssued(found.value, m.h);
      }
    }
    NothingShrinks(m.db);
    QuietRun(env, m, RunStep(env, m, pid, at, id, value), pid, id, value);
  }

  lemma SoundCodeIsIssued(c: AuthorizationCode, h: History)
    requires CodeSound(c, h)
    ensures c.id in h.issued && c.(consumedAt := None) == h.issued[c.id]
  {
  }

  lemma LookingUpStep(env: Env, m: Machine, pid: nat, at: Time, id: string, value: string)
    requires Sound(env, m) && pid in m.procs && FreshValues(m.used, id, value) && m.procs[pid].LookingUp?
    ensures Sound(env, RunStep(env, m, pid, at, id, value)) && Grows(m.h, RunStep(env, m, pid, at, id, value).h)
  {
    hide Sound, JudgeRefresh, RefreshByHash, TokensShrink, FreshValues, Copied, Unchanged;
    var p := m.procs[pid];
    var found := RefreshByHash(m.db, HashToken(p.refreshValue));
    if found.Some? {
      FoundRefreshIsSound(env, m, found.value);
      if JudgeRefresh(p.client, found.value, p.scope, at).Ok? {
        RefreshStaysWithinGrant(p.client, found.value, p.scope, at);
      }
    }
    NothingShrinks(m.db);
    QuietRun(env, m, RunStep(env, m, pid, at, id, value), pid, id, value);
  }

  lemma ProcOf(env: Env, m: Machine, pid: nat)
    requires Sound(env, m) && pid in m.procs
    ensures ProcSound(env, pid, m.procs[pid], m.db, m.used, m.h)
  {
    hide ProcSound, HistoryOk, RowsSound;
  }

  lemma OwnerStep(env: Env, m: Machine, pid: nat, at: Time, id: string, value: string)
    requires Sound(env, m) && pid in m.procs && FreshValues(m.used, id, value)
    requires m.procs[pid].FindingOwner? || m.procs[pid].CheckingOwner?
    ensures Sound(env, RunStep(env, m, pid, at, id, value)) && Grows(m.h, RunStep(env, m, pid, at, id, value).h)
  {
    hide Sound, OwnerActive, TokensShrink, FreshValues, MayMint, RefreshingOk;
    ProcOf(env, m, pid);
    NothingShrinks(m.db);
    QuietRun(env, m, RunStep(env, m, pid, at, id, value), pid, id, value);
  }

  lemma FilteredDeletionShrinks(db: Db, codeId: string, id: string)
    ensures TokensShrink(db, DeleteRefreshTokens(db, CodeFilter(codeId)))
            && TokensShrink(db, DeleteAccessTokens(db, CodeFilter(codeId)))
    ensures TokensShrink(db, DeleteAccessToken(db, id).db)
  {
  }

  lemma RevokingStep(env: Env, m: Machine, pid: nat, at: Time, id: string, value: string)
    requires Sound(env, m) && pid in m.procs && FreshValues(m.used, id, value)
    requires m.procs[pid].RevokingRefresh? || m.procs[pid].RevokingAccess? || m.procs[pid].Done?
    ensures Sound(env, RunStep(env, m, pid, at, id, value)) && Grows(m.h, RunStep(env, m, pid, at, id, value).h)
  {
    hide Sound, TokensShrink, FreshValues, DeleteRefreshTokens, DeleteAccessTokens;
    NothingShrinks(m.db);
    if !m.procs[pid].Done? {
      FilteredDeletionShrinks(m.db, m.procs[pid].codeId, "");
    }
    QuietRun(env, m, RunStep(env, m, pid, at, id, value), pid, id, value);
  }

  lemma DroppingStep(env: Env, m: Machine, pid: nat, at: Time, id: string, value: string)
    requires Sound(env, m) && pid in m.procs && FreshValues(m.used, id, value) && m.procs[pid].Dropping?
    ensures Sound(env, RunStep(env, m, pid, at, id, value)) && Grows(m.h, RunStep(env, m, pid, at, id, value).h)
  {
    var p, m' := m.procs[pid], RunStep(env, m, pid, at, id, value);
    var b, next := WithoutAccess(m.db, p.rt.accessTokenId), Replacing(p.client, p.rt, p.scopes, p.now);
    assert m' == Machine(b, m.used + {id, value}, m.procs[pid := next], m.h) && !p.RotatingOut? && !p.BackingOut?;
    hide Sound, TokensShrink, FreshValues, ProcSound, WithoutAccess, RunStep, Move;
    ProcOf(env, m, pid);
    NoEmptyIds(env, m);
    DroppedIsGone(env, pid, p, m.db, m.used, m.h);
    QuietRun(env, m, m', pid, id, value);
  }

  lemma DroppedIsGone(env: Env, pid: nat, p: Proc, db: Db, used: set<string>, h: History)
    requires p.Dropping? && ProcSound(env, pid, p, db, used, h) && "" !in used
    ensures var b := WithoutAccess(db, p.rt.accessTokenId);
            TokensShrink(db, b) && ProcSound(env, pid, Replacing(p.client, p.rt, p.scopes, p.now), b, used, h)
  {
    FilteredDeletionShrinks(db, "", p.rt.accessTokenId);
    hide TokensShrink, SameGrant;
  }

  lemma NoEmptyIds(env: Env, m: Machine)
    requires Sound(env, m)
    ensures "" !in m.used
  {
    hide ProcSound, RowsSound, AllTermsOk, AllFirstOk, AllConsumptionsOk;
  }

  lemma BackingOutStep(env: Env, m: Machine, pid: nat, at: Time, id: string, value: string)
    requires Sound(env, m) && pid in m.procs && FreshValues(m.used, id, value) && m.procs[pid].BackingOut?
    ensures Sound(env, RunStep(env, m, pid, at, id, value)) && Grows(m.h, RunStep(env, m, pid, at, id, value).h)
  {
    hide Sound, TokensShrink, FreshValues;
    FilteredDeletionShrinks(m.db, "", m.procs[pid].accessId);
    QuietRun(env, m, RunStep(env, m, pid, at, id, value), pid, id, value);
  }

  /** Writes that the store refuses, and a rotation that came too late. */
  ghost predicate Fails(p: Proc, next: Proc) {
    || (p.Consuming? && !next.FindingOwner?)
    || ((p.MintingAccess? || p.MintingRefresh? || p.Replacing? || p.RotatingIn? || p.Touching?) && next == Done(false))
    || (p.RotatingOut? && next.BackingOut?)
  }

  lemma FailureRecordsNothing(h: History, pid: nat, p: Proc, next: Proc, at: Time, id: string, value: string)
    requires Fails(p, next)
    ensures Recorded(h, pid, p, next, at, id, value) == h
  {
    hide GrantRecorded, NewRefresh;
  }

  lemma FailureWritesNothing(env: Env, db: Db, p: Proc, at: Time, id: string, value: string)
    requires Fails(p, Move(env, db, p, at, id, value).proc)
    ensures Move(env, db, p, at, id, value).db == db
  {
    hide NewAccess, NewRefresh, Rotated, Reused, AccessHashTaken, RefreshHashTaken;
  }

  lemma FailureChangesNothing(env: Env, m: Machine, pid: nat, at: Time, id: string, value: string)
    requires pid in m.procs && Fails(m.procs[pid], Move(env, m.db, m.procs[pid], at, id, value).proc)
    ensures var m' := RunStep(env, m, pid, at, id, value); m'.db == m.db && m'.h == m.h
  {
    hide Move, Recorded, Fails;
    FailureWritesNothing(env, m.db, m.procs[pid], at, id, value);
    FailureRecordsNothing(m.h, pid, m.procs[pid], Move(env, m.db, m.procs[pid], at, id, value).proc, at, id, value);
  }

  lemma FailureIsSound(env: Env, m: Machine, pid: nat, at: Time, id: string, value: string)
    requires pid in m.procs && Fails(m.procs[pid], Move(env, m.db, m.procs[pid], at, id, value).proc)
    requires ProcSound(env, pid, m.procs[pid], m.db, m.used, m.h)
    ensures ProcSound(env, pid, Move(env, m.db, m.procs[pid], at, id, value).proc, m.db, m.used, m.h)
    ensures forall k :: Owns(m.procs[pid], k) ==> Owns(Move(env, m.db, m.procs[pid], at, id, value).proc, k)
  {
    hide NewAccess, NewRefresh, Rotated, Reused, CreateAccessToken, CreateRefreshToken, Copied, Unchanged, Minted,
      MayMint, MintingRefreshOk, JudgeCode;
  }

  lemma FailedStep(env: Env, m: Machine, pid: nat, at: Time, id: string, value: string)
    requires Sound(env, m) && pid in m.procs && FreshValues(m.used, id, value)
    requires Fails(m.procs[pid], Move(env, m.db, m.procs[pid], at, id, value).proc)
    ensures Sound(env, RunStep(env, m, pid, at, id, value)) && Grows(m.h, RunStep(env, m, pid, at, id, value).h)
  {
    FailureChangesNothing(env, m, pid, at, id, value);
    hide Sound, TokensShrink, FreshValues, ProcSound, Fails, Move, Recorded, Owns;
    ProcOf(env, m, pid);
    FailureIsSound(env, m, pid, at, id, value);
    NothingShrinks(m.db);
    QuietRun(env, m, RunStep(env, m, pid, at, id, value), pid, id, value);
  }
}
