/** The steps that hand on the right to a refresh token keep the invariant. */
module ConcurrencyRotations {
  import opened Identity
  import opened Database
  import opened AccountRules
  import opened OAuthRules
  import opened Interleaving
  import opened Concurrency
  import opened ConcurrencyInvariant
  import opened ConcurrencySteps
  import opened ConcurrencyWrites

  lemma RefreshAdded(db: Db, t: RefreshToken, used: set<string>)
    requires t.id !in used
    ensures RowsKept(db, db.(refreshTokens := db.refreshTokens[t.id := t]), used)
  {
  }

  // ---------- Minting the first refresh token of a family ----------

  function FirstIssued(h: History, client: Client, access: AccessToken, at: Time, id: string, value: string): History {
    h.(family := h.family[id := access.id], first := h.first[access.id := NewRefresh(client, access, id, value, at)],
       holder := h.holder[access.id := Stored(id)])
  }

  lemma FirstMove(env: Env, m: Machine, pid: nat, at: Time, id: string, value: string)
    requires pid in m.procs && m.procs[pid].MintingRefresh?
             && Move(env, m.db, m.procs[pid], at, id, value).proc != Done(false)
    ensures var p := m.procs[pid]; var r := NewRefresh(p.client, p.access, id, value, at);
            && r.id == id
            && RunStep(env, m, pid, at, id, value)
               == Machine(m.db.(refreshTokens := m.db.refreshTokens[id := r]), m.used + {id, value},
                          m.procs[pid := Done(true)],
                          FirstIssued(m.h, p.client, p.access, at, id, value))
  {
  }

  lemma FirstGrows(h: History, used: set<string>, pid: nat, client: Client, access: AccessToken, at: Time, id: string,
      value: string)
    requires KeysOk(h, used) && id !in used && MintingRefreshOk(pid, client, access, h)
    ensures var h' := FirstIssued(h, client, access, at, id, value);
            Grows(h, h') && SettledKept(h, h') && StoredRightsKept(h, h')
  {
    hide NewRefresh;
  }

  lemma FirstSpares(h: History, pid: nat, client: Client, access: AccessToken, at: Time, id: string, value: string,
      q: nat)
    requires MintingRefreshOk(pid, client, access, h) && q != pid
    ensures Spares(q, h, FirstIssued(h, client, access, at, id, value))
  {
    hide NewRefresh;
  }

  lemma FirstKeys(h: History, used: set<string>, pid: nat, client: Client, access: AccessToken, at: Time, id: string,
      value: string)
    requires KeysOk(h, used) && FreshValues(used, id, value) && access.id in h.terms
    ensures KeysOk(FirstIssued(h, client, access, at, id, value), used + {id, value})
  {
    hide NewRefresh;
  }

  lemma FirstFacts(h: History, pid: nat, client: Client, access: AccessToken, at: Time, id: string, value: string)
    requires MintingRefreshOk(pid, client, access, h)
    ensures var h' := FirstIssued(h, client, access, at, id, value);
            FirstOk(h', access.id) && h'.terms == h.terms && h'.consumedBy == h.consumedBy
  {
  }

  lemma FirstHistoryOk(env: Env, h: History, used: set<string>, pid: nat, client: Client, access: AccessToken,
      at: Time, id: string, value: string)
    requires HistoryOk(env, h, used) && FreshValues(used, id, value) && MintingRefreshOk(pid, client, access, h)
             && access.id in h.terms
    ensures var h' := FirstIssued(h, client, access, at, id, value);
            HistoryOk(env, h', used + {id, value}) && Grows(h, h') && SettledKept(h, h') && StoredRightsKept(h, h')
            && h'.consumedBy == h.consumedBy
  {
    var h' := FirstIssued(h, client, access, at, id, value);
    assert h'.first == h.first[access.id := NewRefresh(client, access, id, value, at)];
    hide KeysOk, AllTermsOk, AllFirstOk, AllConsumptionsOk, TermsOk, FirstOk, ConsumptionOk, Grows, SettledKept,
      StoredRightsKept,
      FirstIssued, MintingRefreshOk, NewRefresh;
    IdIsNew(used, id, value);
    FirstKeys(h, used, pid, client, access, at, id, value);
    FirstGrows(h, used, pid, client, access, at, id, value);
    FirstFacts(h, pid, client, access, at, id, value);
    SettledDomain(h, h');
    OldHistoryKept(env, h, h');
  }

  lemma FirstRowSound(h: History, used: set<string>, pid: nat, client: Client, access: AccessToken, at: Time,
      id: string, value: string)
    requires MintingRefreshOk(pid, client, access, h) && access.id in used
    ensures RefreshSound(NewRefresh(client, access, id, value, at), used + {id, value},
                         FirstIssued(h, client, access, at, id, value))
  {
  }

  lemma MintingRefreshProc(env: Env, m: Machine, pid: nat)
    requires pid in m.procs && m.procs[pid].MintingRefresh? && ProcSound(env, pid, m.procs[pid], m.db, m.used, m.h)
    ensures var p := m.procs[pid];
            MintingRefreshOk(pid, p.client, p.access, m.h) && p.access.id in m.used && p.access.id in m.h.terms
  {
  }

  lemma DoneIsSound(env: Env, pid: nat, ok: bool, db: Db, used: set<string>, h: History)
    ensures ProcSound(env, pid, Done(ok), db, used, h)
  {
  }

  lemma MintingRefreshStep(env: Env, m: Machine, pid: nat, at: Time, id: string, value: string)
    requires Sound(env, m) && pid in m.procs && FreshValues(m.used, id, value)
    requires m.procs[pid].MintingRefresh? && Move(env, m.db, m.procs[pid], at, id, value).proc != Done(false)
    ensures Sound(env, RunStep(env, m, pid, at, id, value)) && Grows(m.h, RunStep(env, m, pid, at, id, value).h)
  {
    var p, m' := m.procs[pid], RunStep(env, m, pid, at, id, value);
    hide RunStep, Move, NewRefresh, FirstIssued, HistoryOk, Grows, Spares, SettledKept, StoredRightsKept, AccessSound,
      RefreshSound, CodeSound,
      RowsSound, RowsKept, ProcSound, MintingRefreshOk, FreshValues, KeysOk;
    FirstMove(env, m, pid, at, id, value);
    ProcOf(env, m, pid);
    MintingRefreshProc(env, m, pid);
    NoEmptyIds(env, m);
    FreshGrows(m.used, id, value);
    IdIsNew(m.used, id, value);
    FirstHistoryOk(env, m.h, m.used, pid, p.client, p.access, at, id, value);
    forall q | q in m.procs && q != pid ensures Spares(q, m.h, m'.h) {
      FirstSpares(m.h, pid, p.client, p.access, at, id, value, q);
    }
    FirstRowSound(m.h, m.used, pid, p.client, p.access, at, id, value);
    DoneIsSound(env, pid, true, m'.db, m'.used, m'.h);
    RefreshAdded(m.db, NewRefresh(p.client, p.access, id, value, at), m.used);
    RowsWithRefresh(m, m', pid, NewRefresh(p.client, p.access, id, value, at));
    hide Sound;
    Assemble(env, m, m', pid);
  }

  // ---------- Replacing the access token ----------

  function Replaced(h: History, pid: nat, rt: RefreshToken, id: string): History
    requires rt.id in h.family
  {
    h.(family := h.family[id := h.family[rt.id]], owner := h.owner[id := pid])
  }

  lemma ReplacingMove(env: Env, m: Machine, pid: nat, at: Time, id: string, value: string)
    requires pid in m.procs && m.procs[pid].Replacing? && m.procs[pid].rt.id in m.h.family
    requires Move(env, m.db, m.procs[pid], at, id, value).proc != Done(false)
    ensures var p := m.procs[pid];
            var access := NewAccess(p.client, p.rt.userId, p.scopes, p.rt.codeId, id, value, at);
            && access.id == id && access.clientId == p.client.id && access.userId == p.rt.userId
            && access.scopes == p.scopes && access.codeId == p.rt.codeId
            && RunStep(env, m, pid, at, id, value)
               == Machine(m.db.(accessTokens := m.db.accessTokens[id := access]), m.used + {id, value},
                          m.procs[pid := if p.rt.usage == OneTime then RotatingOut(p.rt, id, p.now)
                                         else Touching(p.rt, id, p.now)],
                          Replaced(m.h, pid, p.rt, id))
  {
  }

  lemma SameGrantsHistoryOk(env: Env, h: History, used: set<string>, h': History, used': set<string>)
    requires HistoryOk(env, h, used) && KeysOk(h', used') && Grows(h, h')
             && (forall f :: f in h.settled ==> f in h'.settled)
    requires h'.terms == h.terms && h'.first == h.first && h'.consumedBy == h.consumedBy
    ensures HistoryOk(env, h', used')
  {
    hide KeysOk, AllTermsOk, AllFirstOk, AllConsumptionsOk, TermsOk, FirstOk, ConsumptionOk, Grows;
    OldHistoryKept(env, h, h');
  }

  lemma ReplacedKeys(h: History, used: set<string>, pid: nat, rt: RefreshToken, id: string, value: string)
    requires KeysOk(h, used) && FreshValues(used, id, value) && rt.id in h.family
    ensures KeysOk(Replaced(h, pid, rt, id), used + {id, value})
  {
  }

  lemma ReplacedGrows(h: History, used: set<string>, pid: nat, rt: RefreshToken, id: string)
    requires KeysOk(h, used) && id !in used && rt.id in h.family
    ensures var h' := Replaced(h, pid, rt, id);
            && Grows(h, h') && SettledKept(h, h') && StoredRightsKept(h, h') && (forall q :: Spares(q, h, h'))
            && h'.terms == h.terms && h'.first == h.first && h'.consumedBy == h.consumedBy
  {
  }

  lemma FamilyIsGranted(env: Env, h: History, used: set<string>, rt: RefreshToken)
    requires HistoryOk(env, h, used) && Copied(rt, used, h)
    ensures var f := h.family[rt.id];
            && f in h.terms && f in h.settled && f in h.first
            && h.terms[f] == Terms(rt.clientId, rt.userId, rt.scopes, rt.codeId) && h.first[f].usage == rt.usage
  {
    hide AllConsumptionsOk, ConsumptionOk;
    assert FirstOk(h, h.family[rt.id]) && TermsOk(h, h.family[rt.id]);
  }

  lemma ReplacedRowSound(env: Env, h: History, used: set<string>, procs: map<nat, Proc>, pid: nat, p: Proc,
      access: AccessToken, id: string)
    requires HistoryOk(env, h, used) && p.Replacing? && Copied(p.rt, used, h) && p.rt.clientId == p.client.id
             && (forall s :: s in p.scopes ==> s in p.rt.scopes)
    requires access.id == id && access.clientId == p.client.id && access.userId == p.rt.userId
             && access.scopes == p.scopes && access.codeId == p.rt.codeId
    requires pid in procs && (p.rt.usage == OneTime ==> Owns(procs[pid], id))
    ensures AccessSound(access, Replaced(h, pid, p.rt, id), procs)
  {
    FamilyIsGranted(env, h, used, p.rt);
    hide HistoryOk, SameGrant;
  }

  lemma ReplacedProcSound(env: Env, h: History, used: set<string>, db: Db, pid: nat, p: Proc, access: AccessToken,
      id: string, value: string)
    requires KeysOk(h, used) && p.Replacing? && ProcSound(env, pid, p, db, used, h) && FreshValues(used, id, value)
    ensures var next := if p.rt.usage == OneTime then RotatingOut(p.rt, id, p.now) else Touching(p.rt, id, p.now);
            ProcSound(env, pid, next, db.(accessTokens := db.accessTokens[id := access]), used + {id, value},
                      Replaced(h, pid, p.rt, id))
  {
    hide KeysOk, SameGrant;
    assert p.rt.id in used && p.rt.accessTokenId in used;
  }

  lemma ReplacingProc(env: Env, m: Machine, pid: nat)
    requires pid in m.procs && m.procs[pid].Replacing? && ProcSound(env, pid, m.procs[pid], m.db, m.used, m.h)
    ensures var p := m.procs[pid];
            && p.rt.id in m.h.family && Copied(p.rt, m.used, m.h) && p.rt.clientId == p.client.id
            && (forall s :: s in p.scopes ==> s in p.rt.scopes)
  {
  }

  lemma ReplacingStep(env: Env, m: Machine, pid: nat, at: Time, id: string, value: string)
    requires Sound(env, m) && pid in m.procs && FreshValues(m.used, id, value)
    requires m.procs[pid].Replacing? && Move(env, m.db, m.procs[pid], at, id, value).proc != Done(false)
    ensures Sound(env, RunStep(env, m, pid, at, id, value)) && Grows(m.h, RunStep(env, m, pid, at, id, value).h)
  {
    var p, m' := m.procs[pid], RunStep(env, m, pid, at, id, value);
    hide RunStep, Move, NewAccess, Replaced, HistoryOk, Grows, Spares, SettledKept, StoredRightsKept, AccessSound,
      RefreshSound, CodeSound,
      RowsSound, RowsKept, ProcSound, FreshValues, KeysOk, Copied;
    ProcOf(env, m, pid);
    ReplacingProc(env, m, pid);
    ReplacingMove(env, m, pid, at, id, value);
    var access := NewAccess(p.client, p.rt.userId, p.scopes, p.rt.codeId, id, value, at);
    NoEmptyIds(env, m);
    FreshGrows(m.used, id, value);
    IdIsNew(m.used, id, value);
    HistoryKeys(env, m.h, m.used);
    ReplacedKeys(m.h, m.used, pid, p.rt, id, value);
    ReplacedGrows(m.h, m.used, pid, p.rt, id);
    SettledDomain(m.h, m'.h);
    SameGrantsHistoryOk(env, m.h, m.used, m'.h, m'.used);
    ReplacedRowSound(env, m.h, m.used, m'.procs, pid, p, access, id);
    ReplacedProcSound(env, m.h, m.used, m.db, pid, p, access, id, value);
    AccessAdded(m.db, access, m.used);
    RowsWithAccess(m, m', pid, access);
    hide Sound;
    Assemble(env, m, m', pid);
  }

  // ---------- Rotating out ----------

  function HandedOver(h: History, pid: nat, rt: RefreshToken, accessId: string): History
    requires rt.id in h.family
  {
    h.(holder := h.holder[h.family[rt.id] := Pending(pid)], settled := h.settled[h.family[rt.id] := accessId])
  }

  lemma RotatingOutMove(env: Env, m: Machine, pid: nat, at: Time, id: string, value: string)
    requires pid in m.procs && m.procs[pid].RotatingOut? && m.procs[pid].rt.id in m.h.family
    requires Move(env, m.db, m.procs[pid], at, id, value).proc.RotatingIn?
    ensures var p := m.procs[pid];
            && p.rt.id in m.db.refreshTokens
            && RunStep(env, m, pid, at, id, value)
               == Machine(m.db.(refreshTokens := m.db.refreshTokens - {p.rt.id}), m.used + {id, value},
                          m.procs[pid := RotatingIn(p.rt, p.accessId, p.now)], HandedOver(m.h, pid, p.rt, p.accessId))
  {
  }

  /** The refresh token that is rotated out has the right of its family until now. */
  ghost predicate HasStoredRight(rt: RefreshToken, h: History) {
    && rt.id in h.family && h.family[rt.id] in h.holder && h.holder[h.family[rt.id]] == Stored(rt.id)
    && h.family[rt.id] in h.settled && h.settled[h.family[rt.id]] == rt.accessTokenId
  }

  /** What a request that rotates out knows. */
  ghost predicate ReadyToRotate(pid: nat, p: Proc, m: Machine)
    requires p.RotatingOut?
  {
    && Copied(p.rt, m.used, m.h) && p.rt.usage == OneTime && p.rt.accessTokenId !in m.db.accessTokens
    && p.accessId in m.used && Minted(p.accessId, p.rt, m.h) && p.accessId in m.h.owner && m.h.owner[p.accessId] == pid
  }

  lemma RotatingOutProc(env: Env, m: Machine, pid: nat)
    requires pid in m.procs && m.procs[pid].RotatingOut? && ProcSound(env, pid, m.procs[pid], m.db, m.used, m.h)
    ensures ReadyToRotate(pid, m.procs[pid], m)
    ensures m.procs[pid].rt.id in m.db.refreshTokens ==> m.db.refreshTokens[m.procs[pid].rt.id] == m.procs[pid].rt
  {
    hide SameGrant;
  }

  lemma RightOfStored(rt: RefreshToken, used: set<string>, h: History)
    requires RefreshSound(rt, used, h) && rt.usage == OneTime
    ensures HasStoredRight(rt, h)
  {
    hide SameGrant;
  }

  lemma HandedOverGrows(h: History, used: set<string>, pid: nat, rt: RefreshToken, accessId: string)
    requires KeysOk(h, used) && HasStoredRight(rt, h) && accessId in used
    ensures var h' := HandedOver(h, pid, rt, accessId);
            && Grows(h, h') && KeysOk(h', used) && (forall q :: q != pid ==> Spares(q, h, h'))
            && (forall f :: f in h.settled ==> f in h'.settled)
            && h'.terms == h.terms && h'.first == h.first && h'.consumedBy == h.consumedBy
  {
  }

  lemma KeysOkGrows(h: History, used: set<string>, used': set<string>)
    requires KeysOk(h, used) && used <= used' && "" !in used'
    ensures KeysOk(h, used')
  {
  }

  /** Access tokens of the family are the one just minted, or belong to other requests: the one
      that was settled before is gone. */
  lemma HandedOverAccess(t: AccessToken, h: History, procs: map<nat, Proc>, pid: nat, p: Proc)
    requires AccessSound(t, h, procs) && pid in procs && procs[pid] == p && p.RotatingOut?
    requires HasStoredRight(p.rt, h) && Minted(p.accessId, p.rt, h) && t.id != p.rt.accessTokenId
    requires h.family[p.rt.id] in h.first && h.first[h.family[p.rt.id]].usage == OneTime
    ensures AccessSound(t, HandedOver(h, pid, p.rt, p.accessId), procs[pid := RotatingIn(p.rt, p.accessId, p.now)])
  {
  }

  lemma HandedOverRefresh(t: RefreshToken, used: set<string>, h: History, used': set<string>, pid: nat,
      rt: RefreshToken, accessId: string)
    requires RefreshSound(t, used, h) && HasStoredRight(rt, h) && t.id != rt.id && used <= used'
    ensures RefreshSound(t, used', HandedOver(h, pid, rt, accessId))
  {
    hide SameGrant;
  }

  lemma HandedOverAccessRows(m: Machine, m': Machine, pid: nat)
    requires RowsSound(m) && pid in m.procs && m.procs[pid].RotatingOut? && HasStoredRight(m.procs[pid].rt, m.h)
    requires ReadyToRotate(pid, m.procs[pid], m)
    requires var p := m.procs[pid];
             && p.rt.id in m.h.family && m'.db.accessTokens == m.db.accessTokens
             && m'.procs == m.procs[pid := RotatingIn(p.rt, p.accessId, p.now)]
             && m'.h == HandedOver(m.h, pid, p.rt, p.accessId)
    ensures forall k :: k in m'.db.accessTokens ==>
              m'.db.accessTokens[k].id == k && AccessSound(m'.db.accessTokens[k], m'.h, m'.procs)
  {
    var p := m.procs[pid];
    hide Copied, HasStoredRight, Minted, AccessSound, RefreshSound, CodeSound, HandedOver;
    OneTimeFamily(p.rt, m.used, m.h);
    forall k | k in m'.db.accessTokens
      ensures m'.db.accessTokens[k].id == k && AccessSound(m'.db.accessTokens[k], m'.h, m'.procs)
    {
      HandedOverAccess(m.db.accessTokens[k], m.h, m.procs, pid, p);
    }
  }

  lemma HandedOverRows(env: Env, m: Machine, m': Machine, pid: nat)
    requires RowsSound(m) && m.used <= m'.used && pid in m.procs && m.procs[pid].RotatingOut?
             && HasStoredRight(m.procs[pid].rt, m.h)
    requires ReadyToRotate(pid, m.procs[pid], m)
    requires var p := m.procs[pid];
             && p.rt.id in m.h.family && m'.db == m.db.(refreshTokens := m.db.refreshTokens - {p.rt.id})
             && m'.procs == m.procs[pid := RotatingIn(p.rt, p.accessId, p.now)]
             && m'.h == HandedOver(m.h, pid, p.rt, p.accessId)
    ensures RowsSound(m')
  {
    var p := m.procs[pid];
    assert m'.h.consumedBy == m.h.consumedBy && Grows(m.h, m'.h);
    hide Grows, Copied, HasStoredRight, Minted, AccessSound, RefreshSound, CodeSound, HandedOver, ReadyToRotate;
    HandedOverAccessRows(m, m', pid);
    forall k | k in m'.db.refreshTokens
      ensures m'.db.refreshTokens[k].id == k && RefreshSound(m'.db.refreshTokens[k], m'.used, m'.h)
    {
      HandedOverRefresh(m.db.refreshTokens[k], m.used, m.h, m'.used, pid, p.rt, p.accessId);
    }
    OldCodesKept(m, m');
  }

  lemma RotatingInIsSound(env: Env, pid: nat, p: Proc, m: Machine, db: Db, used': set<string>)
    requires p.RotatingOut? && HasStoredRight(p.rt, m.h) && ReadyToRotate(pid, p, m) && m.used <= used'
             && p.rt.id in m.h.family
    ensures ProcSound(env, pid, RotatingIn(p.rt, p.accessId, p.now), db, used', HandedOver(m.h, pid, p.rt, p.accessId))
  {
    hide SameGrant;
  }

  lemma OneTimeFamily(rt: RefreshToken, used: set<string>, h: History)
    requires Copied(rt, used, h)
    ensures h.family[rt.id] in h.first && h.first[h.family[rt.id]].usage == rt.usage
  {
  }

  lemma RefreshRemoved(db: Db, id: string, used: set<string>)
    ensures RowsKept(db, db.(refreshTokens := db.refreshTokens - {id}), used)
  {
  }

  lemma RotatingOutStep(env: Env, m: Machine, pid: nat, at: Time, id: string, value: string)
    requires Sound(env, m) && pid in m.procs && FreshValues(m.used, id, value)
    requires m.procs[pid].RotatingOut? && Move(env, m.db, m.procs[pid], at, id, value).proc.RotatingIn?
    ensures Sound(env, RunStep(env, m, pid, at, id, value)) && Grows(m.h, RunStep(env, m, pid, at, id, value).h)
  {
    var p, m' := m.procs[pid], RunStep(env, m, pid, at, id, value);
    assert p.rt.id in m.db.refreshTokens;
    hide RunStep, Move, HandedOver, HistoryOk, Grows, Spares, RowsSound, RefreshSound, RowsKept, ProcSound,
      FreshValues, KeysOk, Copied,
      HasStoredRight, Minted;
    ProcOf(env, m, pid);
    RotatingOutProc(env, m, pid);
    StoredRow(m, p.rt.id);
    RightOfStored(p.rt, m.used, m.h);
    InFamily(p.rt, m.h);
    RotatingOutMove(env, m, pid, at, id, value);
    NoEmptyIds(env, m);
    FreshGrows(m.used, id, value);
    HistoryKeys(env, m.h, m.used);
    HandedOverGrows(m.h, m.used, pid, p.rt, p.accessId);
    KeysOkGrows(m'.h, m.used, m'.used);
    SameGrantsHistoryOk(env, m.h, m.used, m'.h, m'.used);
    HandedOverRows(env, m, m', pid);
    RotatingInIsSound(env, pid, p, m, m'.db, m'.used);
    RefreshRemoved(m.db, p.rt.id, m.used);
    hide Sound, ReadyToRotate;
    Assemble(env, m, m', pid);
  }

  lemma InFamily(rt: RefreshToken, h: History)
    requires HasStoredRight(rt, h)
    ensures rt.id in h.family
  {
  }

  // ---------- Rotating in ----------

  function TakenOver(h: History, rt: RefreshToken, id: string): History
    requires rt.id in h.family
  {
    h.(family := h.family[id := h.family[rt.id]], holder := h.holder[h.family[rt.id] := Stored(id)])
  }

  lemma RotatingInMove(env: Env, m: Machine, pid: nat, at: Time, id: string, value: string)
    requires pid in m.procs && m.procs[pid].RotatingIn? && m.procs[pid].rt.id in m.h.family
    requires Move(env, m.db, m.procs[pid], at, id, value).proc != Done(false)
    ensures var p := m.procs[pid];
            var r := Rotated(p.rt, p.accessId, id, value, p.now);
            && r.id == id
            && RunStep(env, m, pid, at, id, value)
               == Machine(m.db.(refreshTokens := m.db.refreshTokens[id := r]), m.used + {id, value},
                          m.procs[pid := Done(true)],
                          TakenOver(m.h, p.rt, id))
  {
  }

  lemma TakenOverGrows(h: History, used: set<string>, pid: nat, rt: RefreshToken, accessId: string, id: string,
      value: string)
    requires KeysOk(h, used) && FreshValues(used, id, value) && rt.id in h.family
             && HasRight(pid, h.family[rt.id], accessId, h)
    ensures var h' := TakenOver(h, rt, id);
            && Grows(h, h') && KeysOk(h', used + {id, value}) && SettledKept(h, h') && StoredRightsKept(h, h')
            && h'.terms == h.terms && h'.first == h.first && h'.consumedBy == h.consumedBy
  {
  }

  lemma TakenOverSpares(h: History, pid: nat, rt: RefreshToken, accessId: string, id: string, q: nat)
    requires rt.id in h.family && HasRight(pid, h.family[rt.id], accessId, h) && q != pid
    ensures Spares(q, h, TakenOver(h, rt, id))
  {
  }

  lemma TakenOverRow(h: History, used: set<string>, pid: nat, rt: RefreshToken, accessId: string, id: string,
      value: string, now: Time)
    requires Copied(rt, used, h) && accessId in used && HasRight(pid, h.family[rt.id], accessId, h)
    ensures RefreshSound(Rotated(rt, accessId, id, value, now), used + {id, value}, TakenOver(h, rt, id))
  {
  }

  lemma RotatingInProc(env: Env, m: Machine, pid: nat)
    requires pid in m.procs && m.procs[pid].RotatingIn? && ProcSound(env, pid, m.procs[pid], m.db, m.used, m.h)
    ensures var p := m.procs[pid];
            Copied(p.rt, m.used, m.h) && p.rt.id in m.h.family && p.accessId in m.used
            && HasRight(pid, m.h.family[p.rt.id], p.accessId, m.h)
  {
  }

  lemma RotatingInStep(env: Env, m: Machine, pid: nat, at: Time, id: string, value: string)
    requires Sound(env, m) && pid in m.procs && FreshValues(m.used, id, value)
    requires m.procs[pid].RotatingIn? && Move(env, m.db, m.procs[pid], at, id, value).proc != Done(false)
    ensures Sound(env, RunStep(env, m, pid, at, id, value)) && Grows(m.h, RunStep(env, m, pid, at, id, value).h)
  {
    var p, m' := m.procs[pid], RunStep(env, m, pid, at, id, value);
    hide RunStep, Move, Rotated, TakenOver, HistoryOk, Grows, Spares, SettledKept, StoredRightsKept, AccessSound,
      RefreshSound, CodeSound,
      RowsSound, RowsKept, ProcSound, FreshValues, KeysOk, Copied, HasRight;
    ProcOf(env, m, pid);
    RotatingInProc(env, m, pid);
    RotatingInMove(env, m, pid, at, id, value);
    NoEmptyIds(env, m);
    FreshGrows(m.used, id, value);
    IdIsNew(m.used, id, value);
    HistoryKeys(env, m.h, m.used);
    TakenOverGrows(m.h, m.used, pid, p.rt, p.accessId, id, value);
    forall q | q in m.procs && q != pid ensures Spares(q, m.h, m'.h) {
      TakenOverSpares(m.h, pid, p.rt, p.accessId, id, q);
    }
    SettledDomain(m.h, m'.h);
    SameGrantsHistoryOk(env, m.h, m.used, m'.h, m'.used);
    TakenOverRow(m.h, m.used, pid, p.rt, p.accessId, id, value, p.now);
    DoneIsSound(env, pid, true, m'.db, m'.used, m'.h);
    RefreshAdded(m.db, Rotated(p.rt, p.accessId, id, value, p.now), m.used);
    RowsWithRefresh(m, m', pid, Rotated(p.rt, p.accessId, id, value, p.now));
    hide Sound;
    Assemble(env, m, m', pid);
  }

  // ---------- Touching ----------

  lemma TouchingMove(env: Env, m: Machine, pid: nat, at: Time, id: string, value: string)
    requires pid in m.procs && m.procs[pid].Touching?
             && Move(env, m.db, m.procs[pid], at, id, value).proc != Done(false)
    ensures var p := m.procs[pid];
            var r := Reused(p.rt, p.accessId, p.now);
            && r.id == p.rt.id && p.rt.id in m.db.refreshTokens
            && RunStep(env, m, pid, at, id, value)
               == Machine(m.db.(refreshTokens := m.db.refreshTokens[r.id := r]), m.used + {id, value},
                          m.procs[pid := Done(true)], m.h)
  {
  }

  lemma TouchedRow(h: History, used: set<string>, rt: RefreshToken, stored: RefreshToken, accessId: string, now: Time)
    requires Copied(rt, used, h) && accessId in used && rt.usage != OneTime && RefreshSound(stored, used, h)
             && stored.id == rt.id
    ensures RefreshSound(Reused(rt, accessId, now), used, h) && stored.usage != OneTime
  {
  }

  lemma TouchingProc(env: Env, m: Machine, pid: nat)
    requires pid in m.procs && m.procs[pid].Touching? && ProcSound(env, pid, m.procs[pid], m.db, m.used, m.h)
    ensures var p := m.procs[pid]; Copied(p.rt, m.used, m.h) && p.accessId in m.used && p.rt.usage != OneTime
  {
  }

  lemma ReusableOverwritten(db: Db, r: RefreshToken, used: set<string>)
    requires r.id in db.refreshTokens && db.refreshTokens[r.id].usage != OneTime
    ensures RowsKept(db, db.(refreshTokens := db.refreshTokens[r.id := r]), used)
  {
  }

  lemma TouchingStep(env: Env, m: Machine, pid: nat, at: Time, id: string, value: string)
    requires Sound(env, m) && pid in m.procs && FreshValues(m.used, id, value)
    requires m.procs[pid].Touching? && Move(env, m.db, m.procs[pid], at, id, value).proc != Done(false)
    ensures Sound(env, RunStep(env, m, pid, at, id, value)) && Grows(m.h, RunStep(env, m, pid, at, id, value).h)
  {
    var p, m' := m.procs[pid], RunStep(env, m, pid, at, id, value);
    hide RunStep, Move, Reused, HistoryOk, Grows, Spares, SettledKept, StoredRightsKept, RefreshSound, RowsSound,
      RowsKept, ProcSound, FreshValues, Copied;
    ProcOf(env, m, pid);
    TouchingProc(env, m, pid);
    TouchingMove(env, m, pid, at, id, value);
    NoEmptyIds(env, m);
    FreshGrows(m.used, id, value);
    HistoryOkGrows(env, m.h, m.used, m'.used);
    SameHistoryGrows(m.h);
    StoredRow(m, p.rt.id);
    TouchedRow(m.h, m.used, p.rt, m.db.refreshTokens[p.rt.id], p.accessId, p.now);
    SameHistoryKeepsRights(m.h);
    SameHistoryKeepsRefresh(Reused(p.rt, p.accessId, p.now), m.h, m.used, m'.used);
    RowsWithRefresh(m, m', pid, Reused(p.rt, p.accessId, p.now));
    DoneIsSound(env, pid, true, m'.db, m'.used, m'.h);
    ReusableOverwritten(m.db, Reused(p.rt, p.accessId, p.now), m.used);
    hide Sound;
    Assemble(env, m, m', pid);
  }

  lemma StoredRow(m: Machine, k: string)
    requires RowsSound(m) && k in m.db.refreshTokens
    ensures m.db.refreshTokens[k].id == k && RefreshSound(m.db.refreshTokens[k], m.used, m.h)
  {
    hide AccessSound, RefreshSound, CodeSound;
  }

  lemma SameHistoryKeepsRights(h: History)
    ensures SettledKept(h, h) && StoredRightsKept(h, h)
  {
  }
}
