/** The steps that consume codes and write tokens keep the invariant. */
module ConcurrencyWrites {
  import opened Identity
  import opened Database
  import opened AccountRules
  import opened OAuthRules
  import opened Interleaving
  import opened Concurrency
  import opened ConcurrencyInvariant
  import opened ConcurrencySteps

  // ---------- Rows that a step does not touch ----------

  ghost predicate SettledKept(h: History, h': History) {
    forall f :: f in h.settled ==> f in h'.settled && h'.settled[f] == h.settled[f]
  }

  ghost predicate StoredRightsKept(h: History, h': History) {
    forall f :: f in h.holder && h.holder[f].Stored? ==> f in h'.holder && h'.holder[f] == h.holder[f]
  }

  lemma SettledDomain(h: History, h': History)
    requires SettledKept(h, h')
    ensures forall f :: f in h.settled ==> f in h'.settled
  {
  }

  lemma AccessRowKept(t: AccessToken, h: History, h': History, procs: map<nat, Proc>, procs': map<nat, Proc>)
    requires AccessSound(t, h, procs) && Grows(h, h') && SettledKept(h, h')
             && (Owned(h, procs, t.id) ==> Owned(h', procs', t.id))
    ensures AccessSound(t, h', procs')
  {
    AccessStable(t, h, procs, h', procs');
  }

  lemma RefreshRowKept(t: RefreshToken, used: set<string>, h: History, used': set<string>, h': History)
    requires RefreshSound(t, used, h) && Grows(h, h') && SettledKept(h, h') && StoredRightsKept(h, h') && used <= used'
    ensures RefreshSound(t, used', h')
  {
    RefreshStable(t, used, h, used', h');
  }

  /** A request that owns no access token may move on without any losing its owner. */
  lemma OwnersKept(h: History, h': History, procs: map<nat, Proc>, pid: nat, next: Proc, id: string)
    requires Grows(h, h') && pid in procs && Owned(h, procs, id)
    requires Owns(procs[pid], id) ==> Owns(next, id)
    ensures Owned(h', procs[pid := next], id)
  {
  }

  /** The rows that were there before. */
  lemma OldRowsKept(m: Machine, m': Machine, pid: nat)
    requires RowsSound(m) && Grows(m.h, m'.h) && SettledKept(m.h, m'.h) && StoredRightsKept(m.h, m'.h)
             && m.used <= m'.used
    requires pid in m.procs && pid in m'.procs && m'.procs == m.procs[pid := m'.procs[pid]]
    requires !m.procs[pid].RotatingOut? && !m.procs[pid].BackingOut?
    ensures forall k :: k in m.db.accessTokens ==>
              m.db.accessTokens[k].id == k && AccessSound(m.db.accessTokens[k], m'.h, m'.procs)
    ensures forall k :: k in m.db.refreshTokens ==>
              m.db.refreshTokens[k].id == k && RefreshSound(m.db.refreshTokens[k], m'.used, m'.h)
  {
    hide Grows, SettledKept, StoredRightsKept, AccessSound, RefreshSound, CodeSound, Owned;
    forall k | k in m.db.accessTokens
      ensures m.db.accessTokens[k].id == k && AccessSound(m.db.accessTokens[k], m'.h, m'.procs)
    {
      if Owned(m.h, m.procs, k) {
        OwnersKept(m.h, m'.h, m.procs, pid, m'.procs[pid], k);
      }
      AccessRowKept(m.db.accessTokens[k], m.h, m'.h, m.procs, m'.procs);
    }
    forall k | k in m.db.refreshTokens
      ensures m.db.refreshTokens[k].id == k && RefreshSound(m.db.refreshTokens[k], m'.used, m'.h)
    {
      RefreshRowKept(m.db.refreshTokens[k], m.used, m.h, m'.used, m'.h);
    }
  }

  lemma OldCodesKept(m: Machine, m': Machine)
    requires RowsSound(m) && Grows(m.h, m'.h) && m'.h.consumedBy == m.h.consumedBy && m'.db.codes == m.db.codes
    ensures forall k :: k in m'.db.codes ==> m'.db.codes[k].id == k && CodeSound(m'.db.codes[k], m'.h)
  {
    hide Grows, AccessSound, RefreshSound, CodeSound;
    forall k | k in m.db.codes ensures m.db.codes[k].id == k && CodeSound(m.db.codes[k], m'.h) {
      CodeKept(m.db.codes[k], m.h, m'.h);
    }
  }

  lemma CodeKept(c: AuthorizationCode, h: History, h': History)
    requires CodeSound(c, h) && Grows(h, h') && h'.consumedBy == h.consumedBy
    ensures CodeSound(c, h')
  {
  }

  /** The rows after an access token was added. */
  lemma RowsWithAccess(m: Machine, m': Machine, pid: nat, t: AccessToken)
    requires RowsSound(m) && Grows(m.h, m'.h) && SettledKept(m.h, m'.h) && StoredRightsKept(m.h, m'.h)
             && m.used <= m'.used
    requires pid in m.procs && pid in m'.procs && m'.procs == m.procs[pid := m'.procs[pid]]
    requires !m.procs[pid].RotatingOut? && !m.procs[pid].BackingOut? && m'.h.consumedBy == m.h.consumedBy
    requires m'.db == m.db.(accessTokens := m.db.accessTokens[t.id := t]) && AccessSound(t, m'.h, m'.procs)
    ensures RowsSound(m')
  {
    hide Grows, SettledKept, StoredRightsKept, AccessSound, RefreshSound, CodeSound, RowsSound;
    OldRowsKept(m, m', pid);
    OldCodesKept(m, m');
    RowsTogether(m, m');
  }

  /** The rows after a refresh token was added or overwritten. */
  lemma RowsWithRefresh(m: Machine, m': Machine, pid: nat, t: RefreshToken)
    requires RowsSound(m) && Grows(m.h, m'.h) && SettledKept(m.h, m'.h) && StoredRightsKept(m.h, m'.h)
             && m.used <= m'.used
    requires pid in m.procs && pid in m'.procs && m'.procs == m.procs[pid := m'.procs[pid]]
    requires !m.procs[pid].RotatingOut? && !m.procs[pid].BackingOut? && m'.h.consumedBy == m.h.consumedBy
    requires m'.db == m.db.(refreshTokens := m.db.refreshTokens[t.id := t]) && RefreshSound(t, m'.used, m'.h)
    ensures RowsSound(m')
  {
    hide Grows, SettledKept, StoredRightsKept, AccessSound, RefreshSound, CodeSound, RowsSound;
    OldRowsKept(m, m', pid);
    OldCodesKept(m, m');
    RowsTogether(m, m');
  }

  /** The parts of the invariant after a step. */
  lemma Assemble(env: Env, m: Machine, m': Machine, pid: nat)
    requires Sound(env, m) && HistoryOk(env, m'.h, m'.used) && RowsSound(m')
    requires Grows(m.h, m'.h) && (forall q :: q in m.procs && q != pid ==> Spares(q, m.h, m'.h))
    requires RowsKept(m.db, m'.db, m.used) && m.used <= m'.used
    requires pid in m'.procs && m'.procs == m.procs[pid := m'.procs[pid]]
             && ProcSound(env, pid, m'.procs[pid], m'.db, m'.used, m'.h)
    ensures Sound(env, m')
  {
    hide HistoryOk, RowsSound, ProcSound, Grows, Spares, RowsKept;
    OthersStaySound(env, m, m', pid);
  }

  lemma TermsKept(h: History, h': History, f: string)
    requires f in h.terms && TermsOk(h, f) && Grows(h, h') && (f in h.settled ==> f in h'.settled)
    ensures TermsOk(h', f)
  {
  }

  lemma FirstKept(h: History, h': History, f: string)
    requires f in h.first && FirstOk(h, f) && Grows(h, h')
    ensures FirstOk(h', f)
  {
  }

  lemma ConsumptionKept(env: Env, h: History, h': History, c: string)
    requires ConsumptionOk(env, h, c) && Grows(h, h')
    ensures ConsumptionOk(env, h', c)
  {
    hide JudgeCode;
  }

  /** What the history said before it still says. */
  lemma OldHistoryKept(env: Env, h: History, h': History)
    requires Grows(h, h') && forall f :: f in h.settled ==> f in h'.settled
    ensures AllTermsOk(h) && (forall f :: f in h'.terms && f !in h.terms ==> TermsOk(h', f)) ==> AllTermsOk(h')
    ensures AllFirstOk(h) && (forall f :: f in h'.first && f !in h.first ==> FirstOk(h', f)) ==> AllFirstOk(h')
    ensures AllConsumptionsOk(env, h)
            && (forall c :: c in h'.consumedBy && c !in h.consumedBy ==> ConsumptionOk(env, h', c))
            ==> AllConsumptionsOk(env, h')
  {
    hide Grows, TermsOk, FirstOk, ConsumptionOk;
    forall f | f in h.terms && TermsOk(h, f) ensures f in h'.terms ==> TermsOk(h', f) {
      TermsKept(h, h', f);
    }
    forall f | f in h.first && FirstOk(h, f) ensures f in h'.first ==> FirstOk(h', f) {
      FirstKept(h, h', f);
    }
    forall c | ConsumptionOk(env, h, c) ensures ConsumptionOk(env, h', c) {
      ConsumptionKept(env, h, h', c);
    }
  }

  // ---------- Consuming a code ----------

  function ConsumedHistory(h: History, pid: nat, p: Proc): History
    requires p.Consuming?
  {
    h.(consumedBy := h.consumedBy[p.code.id := pid],
       presented := h.presented[p.code.id := Presentation(p.client, p.redirectUri, p.verifier, p.now)])
  }

  lemma ConsumedGrows(h: History, pid: nat, p: Proc)
    requires p.Consuming? && p.code.id !in h.consumedBy && p.code.id !in h.presented
    ensures var h' := ConsumedHistory(h, pid, p);
            Grows(h, h') && SettledKept(h, h') && StoredRightsKept(h, h') && (forall q :: Spares(q, h, h'))
  {
  }

  lemma ConsumedKeys(env: Env, h: History, used: set<string>, pid: nat, p: Proc)
    requires KeysOk(h, used) && p.Consuming? && p.code.id in h.issued && h.issued[p.code.id] == p.code
    requires JudgeCode(env, p.client, p.code, p.redirectUri, p.verifier, p.now) == Exchangeable
    ensures KeysOk(ConsumedHistory(h, pid, p), used) && ConsumptionOk(env, ConsumedHistory(h, pid, p), p.code.id)
    ensures p.code.id !in h.consumedBy ==> p.code.id !in h.presented
  {
    hide JudgeCode;
  }

  lemma ConsumedHistoryOk(env: Env, h: History, used: set<string>, pid: nat, p: Proc)
    requires HistoryOk(env, h, used) && p.Consuming? && p.code.id !in h.consumedBy
    requires p.code.id in h.issued && h.issued[p.code.id] == p.code
    requires JudgeCode(env, p.client, p.code, p.redirectUri, p.verifier, p.now) == Exchangeable
    ensures var h' := ConsumedHistory(h, pid, p);
            HistoryOk(env, h', used) && Grows(h, h') && SettledKept(h, h') && StoredRightsKept(h, h')
            && (forall q :: Spares(q, h, h'))
  {
    var h' := ConsumedHistory(h, pid, p);
    hide JudgeCode, KeysOk, AllTermsOk, AllFirstOk, AllConsumptionsOk, TermsOk, FirstOk, ConsumptionOk, Grows, Spares,
      SettledKept, StoredRightsKept;
    ConsumedKeys(env, h, used, pid, p);
    ConsumedGrows(h, pid, p);
    SettledDomain(h, h');
    OldHistoryKept(env, h, h');
  }

  lemma ConsumedProcOk(env: Env, h: History, used: set<string>, db: Db, pid: nat, p: Proc)
    requires HistoryOk(env, h, used) && p.Consuming? && p.code.id !in h.consumedBy
    requires p.code.id in h.issued && h.issued[p.code.id] == p.code
    requires JudgeCode(env, p.client, p.code, p.redirectUri, p.verifier, p.now) == Exchangeable
    ensures ProcSound(env, pid, FindingOwner(p.client, p.code), db, used, ConsumedHistory(h, pid, p))
  {
    ExchangeableIsUnused(env, p.client, p.code, p.redirectUri, p.verifier, p.now);
    hide JudgeCode, AllTermsOk, AllFirstOk, AllConsumptionsOk;
  }

  lemma ConsumedCodes(m: Machine, pid: nat, p: Proc)
    requires RowsSound(m) && p.Consuming? && p.code.id in m.db.codes && m.db.codes[p.code.id].consumedAt.None?
    requires p.code.id in m.h.issued
    ensures p.code.id !in m.h.consumedBy
    ensures var b := ConsumeCode(m.db, p.code.id, p.now).db;
            forall k :: k in b.codes ==> b.codes[k].id == k && CodeSound(b.codes[k], ConsumedHistory(m.h, pid, p))
  {
    hide AccessSound, RefreshSound;
  }

  lemma ConsumingMove(env: Env, m: Machine, pid: nat, at: Time, id: string, value: string)
    requires pid in m.procs && m.procs[pid].Consuming?
             && Move(env, m.db, m.procs[pid], at, id, value).proc.FindingOwner?
    ensures var p, b := m.procs[pid], ConsumeCode(m.db, m.procs[pid].code.id, m.procs[pid].now).db;
            && p.code.id in m.db.codes && m.db.codes[p.code.id].consumedAt.None?
            && RunStep(env, m, pid, at, id, value)
               == Machine(b, m.used + {id, value}, m.procs[pid := FindingOwner(p.client, p.code)],
                          ConsumedHistory(m.h, pid, p))
            && b.accessTokens == m.db.accessTokens && b.refreshTokens == m.db.refreshTokens
  {
  }

  lemma ConsumingStep(env: Env, m: Machine, pid: nat, at: Time, id: string, value: string)
    requires Sound(env, m) && pid in m.procs && FreshValues(m.used, id, value)
    requires m.procs[pid].Consuming? && Move(env, m.db, m.procs[pid], at, id, value).proc.FindingOwner?
    ensures Sound(env, RunStep(env, m, pid, at, id, value)) && Grows(m.h, RunStep(env, m, pid, at, id, value).h)
  {
    var p, m' := m.procs[pid], RunStep(env, m, pid, at, id, value);
    hide RunStep, Move, ConsumeCode, ConsumedHistory, HistoryOk, FreshValues, Grows, Spares, SettledKept,
      StoredRightsKept, AccessSound, RefreshSound, CodeSound, JudgeCode, RowsSound, RowsKept, ProcSound;
    ConsumingMove(env, m, pid, at, id, value);
    ProcOf(env, m, pid);
    ConsumingProc(env, m, pid);
    NoEmptyIds(env, m);
    FreshGrows(m.used, id, value);
    ConsumedCodes(m, pid, p);
    ConsumedHistoryOk(env, m.h, m.used, pid, p);
    HistoryOkGrows(env, m'.h, m.used, m'.used);
    ConsumedProcOk(env, m.h, m.used, m'.db, pid, p);
    FindingOwnerStable(env, pid, m'.procs[pid], m'.db, m.used, m'.used, m'.h);
    SameTables(m.db, m'.db, m.used);
    OldRowsKept(m, m', pid);
    RowsTogether(m, m');
    hide Sound;
    Assemble(env, m, m', pid);
  }

  lemma ConsumingProc(env: Env, m: Machine, pid: nat)
    requires pid in m.procs && m.procs[pid].Consuming? && ProcSound(env, pid, m.procs[pid], m.db, m.used, m.h)
    ensures var p := m.procs[pid];
            p.code.id in m.h.issued && m.h.issued[p.code.id] == p.code
            && JudgeCode(env, p.client, p.code, p.redirectUri, p.verifier, p.now) == Exchangeable
  {
  }

  lemma FindingOwnerStable(env: Env, pid: nat, p: Proc, db: Db, used: set<string>, used': set<string>, h: History)
    requires p.FindingOwner? && ProcSound(env, pid, p, db, used, h)
    ensures ProcSound(env, pid, p, db, used', h)
  {
  }

  /** The rows of the three tables, put together. */
  lemma RowsTogether(m: Machine, m': Machine)
    requires forall k :: k in m'.db.accessTokens ==>
               m'.db.accessTokens[k].id == k && AccessSound(m'.db.accessTokens[k], m'.h, m'.procs)
    requires forall k :: k in m'.db.refreshTokens ==>
               m'.db.refreshTokens[k].id == k && RefreshSound(m'.db.refreshTokens[k], m'.used, m'.h)
    requires forall k :: k in m'.db.codes ==> m'.db.codes[k].id == k && CodeSound(m'.db.codes[k], m'.h)
    ensures RowsSound(m')
  {
  }

  lemma SameTables(db: Db, db': Db, used: set<string>)
    requires db'.accessTokens == db.accessTokens && db'.refreshTokens == db.refreshTokens
    ensures RowsKept(db, db', used)
  {
  }

  // ---------- Minting the first access token of a family ----------

  function FirstAccess(p: Proc, at: Time, id: string, value: string): AccessToken
    requires p.MintingAccess?
  {
    NewAccess(p.client, p.userId, p.scopes, p.codeId, id, value, at)
  }

  lemma GrantMove(env: Env, m: Machine, pid: nat, at: Time, id: string, value: string)
    requires pid in m.procs && m.procs[pid].MintingAccess?
             && Move(env, m.db, m.procs[pid], at, id, value).proc != Done(false)
    ensures var p, access := m.procs[pid], FirstAccess(m.procs[pid], at, id, value);
            var next := Move(env, m.db, p, at, id, value).proc;
            && access.id == id && access.clientId == p.client.id && access.userId == p.userId
            && access.scopes == p.scopes && access.codeId == p.codeId
            && (next == MintingRefresh(p.client, access) || next == Done(true))
            && RunStep(env, m, pid, at, id, value)
               == Machine(m.db.(accessTokens := m.db.accessTokens[id := access]), m.used + {id, value},
                          m.procs[pid := next],
                          GrantRecorded(m.h, pid, p, next, id))
  {
    hide GrantRecorded;
  }

  lemma GrantGrows(h: History, used: set<string>, pid: nat, p: Proc, next: Proc, id: string)
    requires KeysOk(h, used) && p.MintingAccess? && id !in used
             && MayMint(pid, p.client, p.userId, p.scopes, p.codeId, h)
    ensures var h' := GrantRecorded(h, pid, p, next, id); Grows(h, h') && SettledKept(h, h') && StoredRightsKept(h, h')
  {
    GrantKeepsRights(h, used, pid, p, next, id);
    hide SettledKept, StoredRightsKept;
  }

  lemma GrantKeepsRights(h: History, used: set<string>, pid: nat, p: Proc, next: Proc, id: string)
    requires KeysOk(h, used) && p.MintingAccess? && id !in used
    ensures var h' := GrantRecorded(h, pid, p, next, id); SettledKept(h, h') && StoredRightsKept(h, h')
  {
  }

  lemma GrantSpares(h: History, used: set<string>, pid: nat, p: Proc, next: Proc, id: string, q: nat)
    requires KeysOk(h, used) && p.MintingAccess? && id !in used
             && MayMint(pid, p.client, p.userId, p.scopes, p.codeId, h) && q != pid
    ensures Spares(q, h, GrantRecorded(h, pid, p, next, id))
  {
  }

  lemma GrantKeys(h: History, used: set<string>, pid: nat, p: Proc, next: Proc, id: string, value: string)
    requires KeysOk(h, used) && p.MintingAccess? && FreshValues(used, id, value)
             && MayMint(pid, p.client, p.userId, p.scopes, p.codeId, h)
    ensures KeysOk(GrantRecorded(h, pid, p, next, id), used + {id, value})
  {
  }

  lemma GrantFacts(h: History, pid: nat, p: Proc, next: Proc, id: string)
    requires p.MintingAccess? && MayMint(pid, p.client, p.userId, p.scopes, p.codeId, h)
    ensures var h' := GrantRecorded(h, pid, p, next, id);
            && TermsOk(h', id) && h'.first == h.first && h'.consumedBy == h.consumedBy
            && h'.terms == h.terms[id := Terms(p.client.id, p.userId, p.scopes, p.codeId)]
  {
  }

  lemma GrantHistoryOk(env: Env, h: History, used: set<string>, pid: nat, p: Proc, next: Proc, id: string,
      value: string)
    requires HistoryOk(env, h, used) && p.MintingAccess? && FreshValues(used, id, value)
             && MayMint(pid, p.client, p.userId, p.scopes, p.codeId, h)
    ensures var h' := GrantRecorded(h, pid, p, next, id);
            HistoryOk(env, h', used + {id, value}) && Grows(h, h') && SettledKept(h, h') && StoredRightsKept(h, h')
  {
    var h' := GrantRecorded(h, pid, p, next, id);
    hide KeysOk, AllTermsOk, AllFirstOk, AllConsumptionsOk, TermsOk, FirstOk, ConsumptionOk, Grows, SettledKept,
      StoredRightsKept,
      GrantRecorded, MayMint;
    GrantKeys(h, used, pid, p, next, id, value);
    GrantGrows(h, used, pid, p, next, id);
    GrantFacts(h, pid, p, next, id);
    SettledDomain(h, h');
    OldHistoryKept(env, h, h');
  }

  lemma GrantRowSound(h: History, procs: map<nat, Proc>, pid: nat, p: Proc, next: Proc, at: Time, id: string,
      value: string)
    requires p.MintingAccess?
    ensures AccessSound(FirstAccess(p, at, id, value), GrantRecorded(h, pid, p, next, id), procs)
  {
  }

  lemma GrantProcSound(env: Env, h: History, used: set<string>, db: Db, pid: nat, p: Proc, next: Proc, at: Time,
      id: string, value: string)
    requires HistoryOk(env, h, used) && p.MintingAccess? && FreshValues(used, id, value)
             && MayMint(pid, p.client, p.userId, p.scopes, p.codeId, h)
    requires next == MintingRefresh(p.client, FirstAccess(p, at, id, value)) || next == Done(true)
    ensures ProcSound(env, pid, next, db, used + {id, value}, GrantRecorded(h, pid, p, next, id))
  {
    assert id !in h.first by {
      hide AllTermsOk, AllConsumptionsOk, GrantRecorded, MayMint;
    }
    hide KeysOk, AllTermsOk, AllFirstOk, AllConsumptionsOk;
  }

  lemma AccessAdded(db: Db, t: AccessToken, used: set<string>)
    requires t.id !in used
    ensures RowsKept(db, db.(accessTokens := db.accessTokens[t.id := t]), used)
  {
  }

  lemma MintingAccessStep(env: Env, m: Machine, pid: nat, at: Time, id: string, value: string)
    requires Sound(env, m) && pid in m.procs && FreshValues(m.used, id, value)
    requires m.procs[pid].MintingAccess? && Move(env, m.db, m.procs[pid], at, id, value).proc != Done(false)
    ensures Sound(env, RunStep(env, m, pid, at, id, value)) && Grows(m.h, RunStep(env, m, pid, at, id, value).h)
  {
    var p, m', access := m.procs[pid], RunStep(env, m, pid, at, id, value), FirstAccess(m.procs[pid], at, id, value);
    var next := Move(env, m.db, p, at, id, value).proc;
    hide RunStep, Move, FirstAccess, GrantRecorded, HistoryOk, Grows, Spares, SettledKept, StoredRightsKept,
      AccessSound, RefreshSound, CodeSound,
      RowsSound, RowsKept, ProcSound, MayMint, FreshValues;
    GrantMove(env, m, pid, at, id, value);
    ProcOf(env, m, pid);
    MintingAccessProc(env, m, pid);
    NoEmptyIds(env, m);
    FreshGrows(m.used, id, value);
    IdIsNew(m.used, id, value);
    HistoryKeys(env, m.h, m.used);
    GrantHistoryOk(env, m.h, m.used, pid, p, next, id, value);
    forall q | q in m.procs && q != pid ensures Spares(q, m.h, m'.h) {
      GrantSpares(m.h, m.used, pid, p, next, id, q);
    }
    GrantRowSound(m.h, m'.procs, pid, p, next, at, id, value);
    GrantProcSound(env, m.h, m.used, m'.db, pid, p, next, at, id, value);
    AccessAdded(m.db, access, m.used);
    GrantConsumptions(m.h, pid, p, next, id);
    RowsWithAccess(m, m', pid, access);
    hide Sound, KeysOk;
    Assemble(env, m, m', pid);
  }

  lemma GrantConsumptions(h: History, pid: nat, p: Proc, next: Proc, id: string)
    requires p.MintingAccess?
    ensures GrantRecorded(h, pid, p, next, id).consumedBy == h.consumedBy
  {
  }

  lemma MintingAccessProc(env: Env, m: Machine, pid: nat)
    requires pid in m.procs && m.procs[pid].MintingAccess? && ProcSound(env, pid, m.procs[pid], m.db, m.used, m.h)
    ensures var p := m.procs[pid]; MayMint(pid, p.client, p.userId, p.scopes, p.codeId, m.h)
  {
  }

  lemma IdIsNew(used: set<string>, id: string, value: string)
    requires FreshValues(used, id, value)
    ensures id !in used
  {
  }

  lemma HistoryKeys(env: Env, h: History, used: set<string>)
    requires HistoryOk(env, h, used)
    ensures KeysOk(h, used)
  {
  }
}
