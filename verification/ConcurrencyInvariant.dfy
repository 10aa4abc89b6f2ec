/** The invariant of interleaved requests, and why each part of it survives the steps of others. */
module ConcurrencyInvariant {
  import opened Identity
  import opened Database
  import opened AccountRules
  import opened OAuthRules
  import opened Interleaving
  import opened Concurrency

  // ---------- History ----------

  ghost predicate TermsOk(h: History, f: string)
    requires f in h.terms
  {
    var t := h.terms[f];
    && f in h.family && h.family[f] == f && f in h.settled
    && (t.codeId != "" ==>
          && t.codeId in h.codeFamily && h.codeFamily[t.codeId] == f && t.codeId in h.issued
          && h.issued[t.codeId].clientId == t.clientId && h.issued[t.codeId].userId == t.userId
          && h.issued[t.codeId].scopes == t.scopes)
  }

  ghost predicate FirstOk(h: History, f: string)
    requires f in h.first
  {
    var r := h.first[f];
    && f in h.terms && h.terms[f] == Terms(r.clientId, r.userId, r.scopes, r.codeId)
    && r.expiresAt == r.createdAt + r.lifetime
  }

  ghost predicate ConsumptionOk(env: Env, h: History, c: string) {
    && c in h.issued && c in h.presented
    && var p := h.presented[c];
       JudgeCode(env, p.client, h.issued[c], p.redirectUri, p.verifier, p.now) == Exchangeable
  }

  /** Which ids the history knows. */
  ghost predicate KeysOk(h: History, used: set<string>) {
    && "" !in used
    && (forall k :: k in h.family ==> k in used && h.family[k] in h.terms)
    && (forall f :: f in h.terms ==> f in used)
    && (forall c :: c in h.issued ==> c in used && h.issued[c].id == c && h.issued[c].consumedAt.None?)
    && (forall c :: c in h.presented ==> c in h.consumedBy)
    && (forall c :: c in h.codeFamily ==> c in h.consumedBy)
    && (forall f :: f in h.holder ==> f in used)
    && (forall f :: f in h.settled ==> f in used)
    && (forall a :: a in h.owner ==> a in used)
  }

  ghost predicate AllTermsOk(h: History) { forall f :: f in h.terms ==> TermsOk(h, f) }

  ghost predicate AllFirstOk(h: History) { forall f :: f in h.first ==> FirstOk(h, f) }

  ghost predicate AllConsumptionsOk(env: Env, h: History) { forall c :: c in h.consumedBy ==> ConsumptionOk(env, h, c) }

  ghost predicate HistoryOk(env: Env, h: History, used: set<string>) {
    KeysOk(h, used) && AllTermsOk(h) && AllFirstOk(h) && AllConsumptionsOk(env, h)
  }

  // ---------- Rows ----------

  /** The request is refreshing, has minted this access token, and has not settled it yet. */
  predicate Owns(p: Proc, id: string) {
    (p.RotatingOut? || p.BackingOut?) && p.accessId == id
  }

  predicate Owned(h: History, procs: map<nat, Proc>, id: string) {
    id in h.owner && h.owner[id] in procs && Owns(procs[h.owner[id]], id)
  }

  /** The family was issued with reusable refresh tokens. */
  predicate Reusable(h: History, f: string) {
    f in h.first && h.first[f].usage != OneTime
  }

  ghost predicate AccessSound(t: AccessToken, h: History, procs: map<nat, Proc>) {
    && t.id in h.family
    && var f := h.family[t.id];
       && f in h.terms && f in h.settled
       && t.clientId == h.terms[f].clientId && t.userId == h.terms[f].userId && t.codeId == h.terms[f].codeId
       && (forall s :: s in t.scopes ==> s in h.terms[f].scopes)
       && (Reusable(h, f) || t.id == h.settled[f] || Owned(h, procs, t.id))
  }

  /** What never changes in a family, and what its expiration is. */
  predicate SameGrant(t: RefreshToken, first: RefreshToken) {
    && t.clientId == first.clientId && t.userId == first.userId && t.scopes == first.scopes && t.codeId == first.codeId
    && t.usage == first.usage && t.expiration == first.expiration && t.lifetime == first.lifetime
    && (t.expiration == Absolute ==> t.expiresAt == first.createdAt + first.lifetime)
    && (t.expiration == Sliding ==> t.expiresAt == t.updatedAt + t.lifetime)
  }

  ghost predicate Copied(t: RefreshToken, used: set<string>, h: History) {
    && t.id in used && t.accessTokenId in used && t.id in h.family
    && h.family[t.id] in h.first && SameGrant(t, h.first[h.family[t.id]])
  }

  ghost predicate RefreshSound(t: RefreshToken, used: set<string>, h: History) {
    && Copied(t, used, h)
    && var f := h.family[t.id];
       && f in h.holder && h.holder[f] == Stored(t.id)
       && (t.usage == OneTime ==> f in h.settled && h.settled[f] == t.accessTokenId)
  }

  ghost predicate CodeSound(c: AuthorizationCode, h: History) {
    && c.id in h.issued && c.(consumedAt := None) == h.issued[c.id]
    && (c.consumedAt.None? ==> c.id !in h.consumedBy)
  }

  ghost predicate RowsSound(m: Machine) {
    && (forall k :: k in m.db.accessTokens ==>
          m.db.accessTokens[k].id == k && AccessSound(m.db.accessTokens[k], m.h, m.procs))
    && (forall k :: k in m.db.refreshTokens ==>
          m.db.refreshTokens[k].id == k && RefreshSound(m.db.refreshTokens[k], m.used, m.h))
    && (forall k :: k in m.db.codes ==> m.db.codes[k].id == k && CodeSound(m.db.codes[k], m.h))
  }

  // ---------- Requests ----------

  /** A one-time refresh token does not change while it is stored. */
  ghost predicate Unchanged(t: RefreshToken, db: Db) {
    t.usage == OneTime && t.id in db.refreshTokens ==> db.refreshTokens[t.id] == t
  }

  ghost predicate RefreshingOk(client: Client, t: RefreshToken, scopes: seq<string>, db: Db, used: set<string>,
      h: History) {
    && Copied(t, used, h) && Unchanged(t, db) && t.clientId == client.id && (forall s :: s in scopes ==> s in t.scopes)
  }

  /** The request may mint tokens for the code: it consumed it, and has not minted any yet. */
  ghost predicate MayMint(pid: nat, client: Client, userId: string, scopes: seq<string>, codeId: string, h: History) {
    codeId != "" ==>
      && codeId in h.consumedBy && h.consumedBy[codeId] == pid && codeId !in h.codeFamily && codeId in h.issued
      && h.issued[codeId].clientId == client.id && h.issued[codeId].userId == userId
      && h.issued[codeId].scopes == scopes
  }

  /** The request has the right to store a refresh token of the family. */
  ghost predicate HasRight(pid: nat, f: string, accessId: string, h: History) {
    f in h.holder && h.holder[f] == Pending(pid) && f in h.settled && h.settled[f] == accessId
  }

  ghost predicate MintingRefreshOk(pid: nat, client: Client, access: AccessToken, h: History) {
    && access.id in h.terms && HasRight(pid, access.id, access.id, h) && access.id !in h.first
    && h.terms[access.id] == Terms(access.clientId, access.userId, access.scopes, access.codeId)
    && access.clientId == client.id
    && (access.codeId != "" ==> access.codeId in h.consumedBy && h.consumedBy[access.codeId] == pid)
  }

  ghost predicate Minted(accessId: string, t: RefreshToken, h: History) {
    accessId in h.family && t.id in h.family && h.family[accessId] == h.family[t.id]
  }

  ghost predicate ProcSound(env: Env, pid: nat, p: Proc, db: Db, used: set<string>, h: History) {
    match p
    case Consuming(client, code, redirectUri, verifier, now) =>
      code.id in h.issued && h.issued[code.id] == code
      && JudgeCode(env, client, code, redirectUri, verifier, now) == Exchangeable
    case FindingOwner(client, code) => code.id != "" && MayMint(pid, client, code.userId, code.scopes, code.id, h)
    case MintingAccess(client, userId, scopes, codeId, _) => MayMint(pid, client, userId, scopes, codeId, h)
    case MintingRefresh(client, access) => access.id in used && MintingRefreshOk(pid, client, access, h)
    case CheckingOwner(client, rt, scopes, _) => RefreshingOk(client, rt, scopes, db, used, h)
    case Dropping(client, rt, scopes, _) => RefreshingOk(client, rt, scopes, db, used, h)
    case Replacing(client, rt, scopes, _) =>
      RefreshingOk(client, rt, scopes, db, used, h) && rt.accessTokenId !in db.accessTokens
    case RotatingOut(rt, accessId, _) =>
      && Copied(rt, used, h) && Unchanged(rt, db) && rt.usage == OneTime && rt.accessTokenId !in db.accessTokens
      && accessId in used && Minted(accessId, rt, h) && accessId in h.owner && h.owner[accessId] == pid
    case RotatingIn(rt, accessId, _) =>
      Copied(rt, used, h) && rt.usage == OneTime && accessId in used && Minted(accessId, rt, h)
      && HasRight(pid, h.family[rt.id], accessId, h)
    case BackingOut(accessId) => accessId in h.owner && h.owner[accessId] == pid
    case Touching(rt, accessId, _) => Copied(rt, used, h) && rt.usage != OneTime && accessId in used
    case _ => true
  }

  ghost predicate Sound(env: Env, m: Machine) {
    && HistoryOk(env, m.h, m.used) && RowsSound(m)
    && forall q :: q in m.procs ==> ProcSound(env, q, m.procs[q], m.db, m.used, m.h)
  }

  // ---------- What a step leaves alone ----------

  /** The history only grows, apart from the right of a family moving on. */
  ghost predicate Grows(h: History, h': History) {
    && Within(h.issued, h'.issued) && Within(h.consumedBy, h'.consumedBy) && Within(h.codeFamily, h'.codeFamily)
    && Within(h.family, h'.family) && Within(h.terms, h'.terms) && Within(h.first, h'.first)
    && Within(h.owner, h'.owner)
    && Within(h.presented, h'.presented)
  }

  /** What request q relies on is left alone. */
  ghost predicate Spares(q: nat, h: History, h': History) {
    && (forall c :: c in h'.codeFamily && c !in h.codeFamily ==> c in h.consumedBy && h.consumedBy[c] != q)
    && (forall f :: f in h.holder && h.holder[f] == Pending(q) ==>
          && f in h'.holder && h'.holder[f] == Pending(q) && (f in h'.first ==> f in h.first)
          && (f in h.settled ==> f in h'.settled && h'.settled[f] == h.settled[f]))
  }

  /** New rows have new keys, and one-time refresh tokens are not overwritten. */
  ghost predicate RowsKept(db: Db, db': Db, used: set<string>) {
    && (forall k :: k in db'.accessTokens && k !in db.accessTokens ==> k !in used)
    && (forall k :: k in db'.refreshTokens ==>
          || (k in db.refreshTokens
              && (db'.refreshTokens[k] == db.refreshTokens[k] || db.refreshTokens[k].usage != OneTime))
          || k !in used)
  }

  lemma CopyStable(t: RefreshToken, db: Db, used: set<string>, h: History, db': Db, used': set<string>, h': History)
    requires Copied(t, used, h) && Grows(h, h') && used <= used' && RowsKept(db, db', used)
    ensures Copied(t, used', h') && (Unchanged(t, db) ==> Unchanged(t, db'))
    ensures t.accessTokenId !in db.accessTokens ==> t.accessTokenId !in db'.accessTokens
  {
  }

  lemma RightStable(pid: nat, f: string, accessId: string, h: History, h': History)
    requires HasRight(pid, f, accessId, h) && Spares(pid, h, h')
    ensures HasRight(pid, f, accessId, h') && (f !in h.first ==> f !in h'.first)
  {
  }

  lemma MayMintStable(pid: nat, client: Client, userId: string, scopes: seq<string>, codeId: string, h: History,
      h': History)
    requires MayMint(pid, client, userId, scopes, codeId, h) && Grows(h, h') && Spares(pid, h, h')
    ensures MayMint(pid, client, userId, scopes, codeId, h')
  {
  }

  lemma MintedStable(accessId: string, t: RefreshToken, h: History, h': History)
    requires Minted(accessId, t, h) && Grows(h, h')
    ensures Minted(accessId, t, h')
  {
  }

  lemma GrowsAt(h: History, h': History, id: string)
    requires Grows(h, h')
    ensures id in h.family ==> id in h'.family && h'.family[id] == h.family[id]
    ensures id in h.owner ==> id in h'.owner && h'.owner[id] == h.owner[id]
  {
  }

  predicate IsRefreshing(p: Proc) {
    p.CheckingOwner? || p.Dropping? || p.Replacing? || p.RotatingOut? || p.RotatingIn? || p.Touching?
  }

  lemma RefresherStable(env: Env, q: nat, p: Proc, db: Db, used: set<string>, h: History, db': Db, used': set<string>,
      h': History)
    requires ProcSound(env, q, p, db, used, h) && Grows(h, h') && Spares(q, h, h') && used <= used'
             && RowsKept(db, db', used)
    requires IsRefreshing(p)
    ensures ProcSound(env, q, p, db', used', h')
  {
    assert p.RotatingIn? ==> p.rt.id in h.family;
    hide Copied, Unchanged, HasRight, Minted, Spares, RowsKept, Grows;
    GrowsAt(h, h', p.rt.id);
    GrowsAt(h, h', if p.RotatingOut? then p.accessId else p.rt.id);
    CopyStable(p.rt, db, used, h, db', used', h');
    if p.RotatingIn? {
      RightStable(q, h.family[p.rt.id], p.accessId, h, h');
    }
    if p.RotatingOut? || p.RotatingIn? {
      MintedStable(p.accessId, p.rt, h, h');
    }
  }

  lemma ExchangerStable(env: Env, q: nat, p: Proc, db: Db, used: set<string>, h: History, db': Db, used': set<string>,
      h': History)
    requires ProcSound(env, q, p, db, used, h) && Grows(h, h') && Spares(q, h, h') && used <= used'
             && RowsKept(db, db', used)
    requires !IsRefreshing(p)
    ensures ProcSound(env, q, p, db', used', h')
  {
    hide HasRight, MayMint, Spares, RowsKept, JudgeCode;
    if p.MintingRefresh? {
      RightStable(q, p.access.id, p.access.id, h, h');
    }
    if p.FindingOwner? {
      MayMintStable(q, p.client, p.code.userId, p.code.scopes, p.code.id, h, h');
    }
    if p.MintingAccess? {
      MayMintStable(q, p.client, p.userId, p.scopes, p.codeId, h, h');
    }
  }

  /** A request is not disturbed by a step that spares it. */
  lemma ProcStable(env: Env, q: nat, p: Proc, db: Db, used: set<string>, h: History, db': Db, used': set<string>,
      h': History)
    requires ProcSound(env, q, p, db, used, h) && Grows(h, h') && Spares(q, h, h') && used <= used'
             && RowsKept(db, db', used)
    ensures ProcSound(env, q, p, db', used', h')
  {
    hide ProcSound, Grows, Spares, RowsKept;
    if IsRefreshing(p) {
      RefresherStable(env, q, p, db, used, h, db', used', h');
    } else {
      ExchangerStable(env, q, p, db, used, h, db', used', h');
    }
  }

  lemma AccessStable(t: AccessToken, h: History, procs: map<nat, Proc>, h': History, procs': map<nat, Proc>)
    requires AccessSound(t, h, procs) && Grows(h, h')
    requires var f := h.family[t.id];
             || Reusable(h, f)
             || (f in h'.settled && h'.settled[f] == t.id)
             || Owned(h', procs', t.id)
             || (f in h'.settled && h'.settled[f] == h.settled[f]
                 && (Owned(h, procs, t.id) ==> Owned(h', procs', t.id)))
    requires h.family[t.id] in h'.settled
    ensures AccessSound(t, h', procs')
  {
  }

  lemma RefreshStable(t: RefreshToken, used: set<string>, h: History, used': set<string>, h': History)
    requires RefreshSound(t, used, h) && Grows(h, h') && used <= used'
    requires var f := h.family[t.id];
             f in h'.holder && h'.holder[f] == h.holder[f]
             && (f in h.settled ==> f in h'.settled && h'.settled[f] == h.settled[f])
    ensures RefreshSound(t, used', h')
  {
  }

  // ---------- Putting the parts together ----------

  lemma OthersStaySound(env: Env, m: Machine, m': Machine, pid: nat)
    requires forall q :: q in m.procs ==> ProcSound(env, q, m.procs[q], m.db, m.used, m.h)
    requires Grows(m.h, m'.h) && (forall q :: q in m.procs && q != pid ==> Spares(q, m.h, m'.h))
    requires RowsKept(m.db, m'.db, m.used) && m.used <= m'.used
    requires pid in m'.procs && m'.procs == m.procs[pid := m'.procs[pid]]
             && ProcSound(env, pid, m'.procs[pid], m'.db, m'.used, m'.h)
    ensures forall q :: q in m'.procs ==> ProcSound(env, q, m'.procs[q], m'.db, m'.used, m'.h)
  {
    hide ProcSound, Grows, Spares, RowsKept;
    forall q | q in m'.procs ensures ProcSound(env, q, m'.procs[q], m'.db, m'.used, m'.h) {
      if q != pid {
        ProcStable(env, q, m.procs[q], m.db, m.used, m.h, m'.db, m'.used, m'.h);
      }
    }
  }

  lemma SameHistoryGrows(h: History)
    ensures Grows(h, h) && forall q :: Spares(q, h, h)
  {
  }

  lemma DeletionsKeepRows(db: Db, db': Db, used: set<string>)
    requires TokensShrink(db, db')
    ensures RowsKept(db, db', used)
  {
  }

  lemma HistoryOkGrows(env: Env, h: History, used: set<string>, used': set<string>)
    requires HistoryOk(env, h, used) && used <= used' && "" !in used'
    ensures HistoryOk(env, h, used')
  {
    hide AllTermsOk, AllFirstOk, AllConsumptionsOk;
  }

  /** Rows stay sound when some are deleted and the history does not change. */
  lemma RowsShrink(m: Machine, m': Machine, pid: nat)
    requires RowsSound(m) && TokensShrink(m.db, m'.db) && m'.h == m.h && m.used <= m'.used
    requires pid in m'.procs && m'.procs == m.procs[pid := m'.procs[pid]]
    requires pid in m.procs ==> forall k :: k in m'.db.accessTokens && Owns(m.procs[pid], k) ==> Owns(m'.procs[pid], k)
    ensures RowsSound(m')
  {
    hide Grows, AccessSound, RefreshSound, CodeSound, Owns;
    SameHistoryGrows(m.h);
    forall k | k in m'.db.accessTokens
      ensures m'.db.accessTokens[k].id == k && AccessSound(m'.db.accessTokens[k], m'.h, m'.procs)
    {
      SameHistoryKeepsAccess(m.db.accessTokens[k], m.h, m.procs, m'.procs);
    }
    forall k | k in m'.db.refreshTokens
      ensures m'.db.refreshTokens[k].id == k && RefreshSound(m'.db.refreshTokens[k], m'.used, m'.h)
    {
      SameHistoryKeepsRefresh(m.db.refreshTokens[k], m.h, m.used, m'.used);
    }
  }

  lemma SameHistoryKeepsAccess(t: AccessToken, h: History, procs: map<nat, Proc>, procs': map<nat, Proc>)
    requires AccessSound(t, h, procs) && (Owned(h, procs, t.id) ==> Owned(h, procs', t.id))
    ensures AccessSound(t, h, procs')
  {
  }

  lemma SameHistoryKeepsRefresh(t: RefreshToken, h: History, used: set<string>, used': set<string>)
    requires RefreshSound(t, used, h) && used <= used'
    ensures RefreshSound(t, used', h)
  {
  }

  /** A step that deletes at most and records nothing. */
  lemma QuietStep(env: Env, m: Machine, m': Machine, pid: nat)
    requires Sound(env, m) && TokensShrink(m.db, m'.db) && m'.h == m.h && m.used <= m'.used && "" !in m'.used
    requires pid in m'.procs && m'.procs == m.procs[pid := m'.procs[pid]]
             && ProcSound(env, pid, m'.procs[pid], m'.db, m'.used, m'.h)
    requires pid in m.procs ==> forall k :: k in m'.db.accessTokens && Owns(m.procs[pid], k) ==> Owns(m'.procs[pid], k)
    ensures Sound(env, m')
  {
    hide HistoryOk, RowsSound, ProcSound, Grows, Spares, RowsKept, TokensShrink, Owns;
    SameHistoryGrows(m.h);
    DeletionsKeepRows(m.db, m'.db, m.used);
    HistoryOkGrows(env, m.h, m.used, m'.used);
    RowsShrink(m, m', pid);
    OthersStaySound(env, m, m', pid);
  }
}
