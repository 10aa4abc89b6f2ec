/** Agreement between the steps of an interleaving: codes are exchanged at most once, by a request
    that was entitled to it; tokens trace back to the code; families never change. */
module ConcurrencyAgreement {
  import opened Identity
  import opened Database
  import opened AccountRules
  import opened OAuthRules
  import opened Conditions
  import opened Verdicts
  import opened Interleaving
  import opened Concurrency
  import opened ConcurrencyInvariant
  import opened ConcurrencySteps
  import opened ConcurrencyRotations
  import opened ConcurrencyTheorems

  // ---------- What lasts ----------

  lemma GrowsTransitively(a: History, b: History, c: History)
    requires Grows(a, b) && Grows(b, c)
    ensures Grows(a, c)
  {
  }

  lemma {:induction false} HistoryLasts(env: Env, ms: seq<Machine>, es: seq<Event>, i: nat, j: nat)
    requires Trace(env, ms, es) && i <= j < |ms|
    ensures Grows(ms[i].h, ms[j].h)
    decreases j
  {
    hide Sound, Grows, StepTo, Possible, Starting;
    if i == j {
      SameHistoryGrows(ms[i].h);
    } else {
      HistoryLasts(env, ms, es, i, j - 1);
      ReachableIsSound(env, ms, es, j - 1);
      EventSound(env, ms[j - 1], es[j - 1]);
      GrowsTransitively(ms[i].h, ms[j - 1].h, ms[j].h);
    }
  }

  lemma EventLasts(env: Env, m: Machine, e: Event, p: nat)
    requires Possible(m, e)
    ensures m.used <= StepTo(env, m, e).used
    ensures p in m.procs && m.procs[p].Done? ==> p in StepTo(env, m, e).procs && StepTo(env, m, e).procs[p].Done?
  {
    hide CreateCode, NewCode, Recorded;
  }

  lemma {:induction false} DoneLasts(env: Env, ms: seq<Machine>, es: seq<Event>, i: nat, j: nat, p: nat)
    requires Trace(env, ms, es) && i <= j < |ms|
    ensures ms[i].used <= ms[j].used
    ensures p in ms[i].procs && ms[i].procs[p].Done? ==> p in ms[j].procs && ms[j].procs[p].Done?
    decreases j
  {
    hide StepTo, Possible, Starting;
    if i < j {
      DoneLasts(env, ms, es, i, j - 1, p);
      EventLasts(env, ms[j - 1], es[j - 1], p);
    }
  }

  // ---------- At most one exchange per code ----------

  /** The event is the store call that marks the code as used. */
  ghost predicate Consumes(env: Env, m: Machine, e: Event, c: string) {
    && e.Run? && e.pid in m.procs && m.procs[e.pid].Consuming? && m.procs[e.pid].code.id == c
    && Move(env, m.db, m.procs[e.pid], e.at, e.id, e.value).proc.FindingOwner?
  }

  lemma ConsumptionIsRecorded(env: Env, m: Machine, e: Event, c: string)
    requires Sound(env, m) && Possible(m, e) && Consumes(env, m, e, c)
    ensures c !in m.h.consumedBy
    ensures var h := StepTo(env, m, e).h; c in h.consumedBy && h.consumedBy[c] == e.pid
  {
    ConsumingRow(env, m, m.procs[e.pid]);
    hide Sound;
  }

  lemma ConsumingRow(env: Env, m: Machine, p: Proc)
    requires Sound(env, m) && p.Consuming? && p.code.id in m.db.codes && m.db.codes[p.code.id].consumedAt.None?
    ensures p.code.id !in m.h.consumedBy
  {
    hide HistoryOk, ProcSound, AccessSound, RefreshSound;
    assert CodeSound(m.db.codes[p.code.id], m.h);
  }

  /** A code is marked as used at most once, however many requests present it. */
  lemma ConsumedOnce(env: Env, ms: seq<Machine>, es: seq<Event>, i: nat, j: nat, c: string)
    requires Trace(env, ms, es) && i < j < |es| && Consumes(env, ms[i], es[i], c)
    ensures !Consumes(env, ms[j], es[j], c)
  {
    ReachableIsSound(env, ms, es, i);
    ReachableIsSound(env, ms, es, j);
    HistoryLasts(env, ms, es, i + 1, j);
    assert Possible(ms[i], es[i]) && Possible(ms[j], es[j]) && ms[i + 1] == StepTo(env, ms[i], es[i]);
    hide Trace, Sound, StepTo, Possible, Consumes;
    ConsumptionIsRecorded(env, ms[i], es[i], c);
    if Consumes(env, ms[j], es[j], c) {
      ConsumptionIsRecorded(env, ms[j], es[j], c);
    }
  }

  /** The event completes a successful exchange of the code. */
  ghost predicate Wins(env: Env, m: Machine, e: Event, c: string) {
    && c != "" && e.Run? && e.pid in m.procs
    && Move(env, m.db, m.procs[e.pid], e.at, e.id, e.value).proc == Done(true)
    && ((m.procs[e.pid].MintingAccess? && m.procs[e.pid].codeId == c)
        || (m.procs[e.pid].MintingRefresh? && m.procs[e.pid].access.codeId == c))
  }

  lemma WinnerConsumedIt(env: Env, m: Machine, e: Event, c: string)
    requires Sound(env, m) && Wins(env, m, e, c)
    ensures c in m.h.consumedBy && m.h.consumedBy[c] == e.pid && !m.procs[e.pid].Done?
  {
    ProcOf(env, m, e.pid);
    hide Sound, Move;
  }

  lemma WinnerIsDone(env: Env, m: Machine, e: Event, c: string)
    requires Possible(m, e) && Wins(env, m, e, c)
    ensures e.pid in StepTo(env, m, e).procs && StepTo(env, m, e).procs[e.pid].Done?
  {
    hide Move, Recorded;
  }

  /** Each authorization code yields at most one successful exchange. */
  lemma AtMostOneExchange(env: Env, ms: seq<Machine>, es: seq<Event>, i: nat, j: nat, c: string)
    requires Trace(env, ms, es) && i < j < |es| && Wins(env, ms[i], es[i], c)
    ensures !Wins(env, ms[j], es[j], c)
  {
    ReachableIsSound(env, ms, es, i);
    ReachableIsSound(env, ms, es, j);
    HistoryLasts(env, ms, es, i, j);
    assert Possible(ms[i], es[i]) && ms[i + 1] == StepTo(env, ms[i], es[i]);
    WinnerIsDone(env, ms[i], es[i], c);
    DoneLasts(env, ms, es, i + 1, j, es[i].pid);
    hide Trace, Sound, StepTo, Possible, Wins;
    WinnerConsumedIt(env, ms[i], es[i], c);
    if Wins(env, ms[j], es[j], c) {
      WinnerConsumedIt(env, ms[j], es[j], c);
    }
  }

  // ---------- Back to the authorization endpoint ----------

  /** The event issued the code with this id. */
  ghost predicate Issues(env: Env, m: Machine, e: Event, code: AuthorizationCode) {
    e.IssueCode? && e.id == code.id && code == NewCode(e.req, e.userId, e.id, e.value, e.at)
  }

  lemma IssuedNowOrBefore(env: Env, m: Machine, e: Event, c: string)
    requires Possible(m, e) && c in StepTo(env, m, e).h.issued
    ensures (c in m.h.issued && m.h.issued[c] == StepTo(env, m, e).h.issued[c])
            || Issues(env, m, e, StepTo(env, m, e).h.issued[c])
  {
    if e.Run? {
      RecordingKeepsIssued(m.h, e.pid, m.procs[e.pid], Move(env, m.db, m.procs[e.pid], e.at, e.id, e.value).proc,
                           e.at, e.id, e.value);
    }
    hide CreateCode, Move, Recorded, TokensShrink, NewCode;
  }

  lemma RecordingKeepsIssued(h: History, pid: nat, p: Proc, next: Proc, at: Time, id: string, value: string)
    ensures Recorded(h, pid, p, next, at, id, value).issued == h.issued
  {
    hide NewRefresh;
  }

  lemma IssueDraws(env: Env, m: Machine, e: Event)
    requires Possible(m, e) && e.IssueCode?
    ensures e.id in StepTo(env, m, e).used && e.id !in m.used
  {
    hide CreateCode, NewCode;
  }

  /** A code in the history was issued by an earlier event. */
  lemma {:induction false} IssuedByAnEvent(env: Env, ms: seq<Machine>, es: seq<Event>, i: nat,
      c: string) returns (k: nat)
    requires Trace(env, ms, es) && i < |ms| && c in ms[i].h.issued
    ensures k < i && Issues(env, ms[k], es[k], ms[i].h.issued[c])
    decreases i
  {
    hide StepTo, Possible, Issues;
    if i == 0 {
      assert false;
    } else {
      IssuedNowOrBefore(env, ms[i - 1], es[i - 1], c);
      k := i - 1;
      if !Issues(env, ms[i - 1], es[i - 1], ms[i].h.issued[c]) {
        k := IssuedByAnEvent(env, ms, es, i - 1, c);
      }
    }
  }

  /** No two events issue a code with the same id. */
  lemma IssuedOnce(env: Env, ms: seq<Machine>, es: seq<Event>, j: nat, k: nat)
    requires Trace(env, ms, es) && j < |es| && k < |es| && es[j].IssueCode? && es[k].IssueCode? && es[j].id == es[k].id
    ensures j == k
  {
    hide StepTo, Possible, Starting;
    IssueDraws(env, ms[j], es[j]);
    IssueDraws(env, ms[k], es[k]);
    if j < k {
      DoneLasts(env, ms, es, j + 1, k, 0);
    } else if k < j {
      DoneLasts(env, ms, es, k + 1, j, 0);
    }
  }

  // ---------- Back to the request ----------

  lemma LookingStep(env: Env, m: Machine, e: Event, q: nat)
    requires Possible(m, e) && q in StepTo(env, m, e).procs && StepTo(env, m, e).procs[q].Looking?
    ensures var p := StepTo(env, m, e).procs[q]; e == Begin(q, p) || (q in m.procs && m.procs[q] == p)
  {
    hide Recorded, TokensShrink, NewCode, CreateCode, LookStep, LookUpStep, CreateAccessToken, CreateRefreshToken,
      UpdateRefreshToken, ConsumeCode, DeleteRefreshToken, DeleteAccessToken;
    if e.Run? && e.pid == q {
      NobodyLooksAgain(env, m.db, m.procs[q], e.at, e.id, e.value);
    }
  }

  lemma NobodyLooksAgain(env: Env, db: Db, p: Proc, at: Time, id: string, value: string)
    ensures !Move(env, db, p, at, id, value).proc.Looking? || Move(env, db, p, at, id, value).proc == p
  {
  }

  /** A request that is about to look up a code began so. */
  lemma {:induction false} LookingWasBegun(env: Env, ms: seq<Machine>, es: seq<Event>, i: nat, q: nat) returns (b: nat)
    requires Trace(env, ms, es) && i < |ms| && q in ms[i].procs && ms[i].procs[q].Looking?
    ensures b < i && es[b] == Begin(q, ms[i].procs[q])
    decreases i
  {
    hide StepTo, Possible;
    if i == 0 {
      assert false;
    } else {
      LookingStep(env, ms[i - 1], es[i - 1], q);
      b := i - 1;
      if es[i - 1] != Begin(q, ms[i].procs[q]) {
        b := LookingWasBegun(env, ms, es, i - 1, q);
      }
    }
  }

  /** The request looked up this code with the value that it presented. */
  ghost predicate LookedUp(before: Proc, p: Proc)
    requires p.Consuming?
  {
    && before.Looking? && before.client == p.client && before.redirectUri == p.redirectUri
    && before.verifier == p.verifier && HashToken(before.value) == p.code.codeHash
  }

  lemma ConsumingStep(env: Env, m: Machine, e: Event, q: nat)
    requires Possible(m, e) && q in StepTo(env, m, e).procs && StepTo(env, m, e).procs[q].Consuming?
    ensures var p := StepTo(env, m, e).procs[q]; q in m.procs && (m.procs[q] == p || LookedUp(m.procs[q], p))
  {
    hide Recorded, TokensShrink, NewCode, CreateCode, LookUpStep, CreateAccessToken, CreateRefreshToken,
      UpdateRefreshToken, ConsumeCode, DeleteRefreshToken, DeleteAccessToken, JudgeCode, LookStep, LookedUp;
    if e.Run? && e.pid == q {
      OnlyLookingLeadsToConsuming(env, m.db, m.procs[q], e.at, e.id, e.value);
    }
  }

  lemma OnlyLookingLeadsToConsuming(env: Env, db: Db, p: Proc, at: Time, id: string, value: string)
    ensures var next := Move(env, db, p, at, id, value).proc; next.Consuming? ==> LookedUp(p, next)
  {
    hide JudgeCode;
  }

  /** A request that is about to mark a code as used began with the value of this code. */
  lemma {:induction false} ConsumingWasBegun(env: Env, ms: seq<Machine>, es: seq<Event>, i: nat, q: nat)
    returns (b: nat, value: string)
    requires Trace(env, ms, es) && i < |ms| && q in ms[i].procs && ms[i].procs[q].Consuming?
    ensures var p := ms[i].procs[q];
            b < i && es[b] == Begin(q, Looking(p.client, value, p.redirectUri, p.verifier))
            && HashToken(value) == p.code.codeHash
    decreases i
  {
    hide StepTo, Possible;
    if i == 0 {
      assert false;
    } else {
      ConsumingStep(env, ms[i - 1], es[i - 1], q);
      if LookedUp(ms[i - 1].procs[q], ms[i].procs[q]) {
        b := LookingWasBegun(env, ms, es, i - 1, q);
        value := ms[i - 1].procs[q].value;
      } else {
        b, value := ConsumingWasBegun(env, ms, es, i - 1, q);
      }
    }
  }

  /** The request was about to mark this code as used, with what the history says it presented. */
  ghost predicate Presents(p: Proc, c: string, presented: Presentation) {
    && p.Consuming? && p.code.id == c
    && presented == Presentation(p.client, p.redirectUri, p.verifier, p.now)
  }

  lemma PresentationStep(env: Env, m: Machine, e: Event, c: string)
    requires Possible(m, e) && c in StepTo(env, m, e).h.consumedBy && c in StepTo(env, m, e).h.presented
    ensures var h := StepTo(env, m, e).h;
            || (c in m.h.consumedBy && c in m.h.presented && h.consumedBy[c] == m.h.consumedBy[c]
                && h.presented[c] == m.h.presented[c])
            || (h.consumedBy[c] in m.procs && Presents(m.procs[h.consumedBy[c]], c, h.presented[c]))
            || (c in m.h.consumedBy) != (c in m.h.presented)
  {
    if e.Run? {
      var p := m.procs[e.pid];
      var next := Move(env, m.db, p, e.at, e.id, e.value).proc;
      if p.Consuming? && next.FindingOwner? {
        RecordingPresents(m.h, e.pid, p, next, e.at, e.id, e.value);
      } else {
        OthersKeepConsumers(m.h, e.pid, p, next, e.at, e.id, e.value);
        OthersKeepPresentations(m.h, e.pid, p, next, e.at, e.id, e.value);
      }
    }
    hide Move, Recorded, TokensShrink, NewCode, CreateCode;
  }

  lemma RecordingPresents(h: History, pid: nat, p: Proc, next: Proc, at: Time, id: string, value: string)
    requires p.Consuming? && next.FindingOwner?
    ensures Recorded(h, pid, p, next, at, id, value)
            == h.(consumedBy := h.consumedBy[p.code.id := pid],
                  presented := h.presented[p.code.id := Presentation(p.client, p.redirectUri, p.verifier, p.now)])
  {
    hide NewRefresh, GrantRecorded;
  }

  lemma OthersKeepConsumers(h: History, pid: nat, p: Proc, next: Proc, at: Time, id: string, value: string)
    requires !p.Consuming? || !next.FindingOwner?
    ensures Recorded(h, pid, p, next, at, id, value).consumedBy == h.consumedBy
  {
    hide NewRefresh;
  }

  lemma OthersKeepPresentations(h: History, pid: nat, p: Proc, next: Proc, at: Time, id: string, value: string)
    requires !p.Consuming? || !next.FindingOwner?
    ensures Recorded(h, pid, p, next, at, id, value).presented == h.presented
  {
    hide NewRefresh;
  }

  /** A consumption in the history goes back to a state in which the request was about to make it. */
  lemma {:induction false} ConsumerPresented(env: Env, ms: seq<Machine>, es: seq<Event>, i: nat, c: string)
    returns (j: nat)
    requires Trace(env, ms, es) && i < |ms| && c in ms[i].h.consumedBy && c in ms[i].h.presented
    ensures j < i && ms[i].h.consumedBy[c] in ms[j].procs
    ensures Presents(ms[j].procs[ms[i].h.consumedBy[c]], c, ms[i].h.presented[c])
    decreases i
  {
    hide StepTo, Possible, Presents, Sound;
    if i == 0 {
      assert false;
    } else {
      PresentationStep(env, ms[i - 1], es[i - 1], c);
      BothAreRecorded(env, ms, es, i - 1, c);
      j := i - 1;
      var q := ms[i].h.consumedBy[c];
      if !(q in ms[j].procs && Presents(ms[j].procs[q], c, ms[i].h.presented[c])) {
        j := ConsumerPresented(env, ms, es, i - 1, c);
      }
    }
  }

  lemma BothAreRecorded(env: Env, ms: seq<Machine>, es: seq<Event>, i: nat, c: string)
    requires Trace(env, ms, es) && i < |ms|
    ensures c in ms[i].h.consumedBy <==> c in ms[i].h.presented
  {
    hide RowsSound, ProcSound, AllTermsOk, AllFirstOk, JudgeCode, StepTo, Possible, Starting;
    ReachableIsSound(env, ms, es, i);
    assert c in ms[i].h.consumedBy ==> ConsumptionOk(env, ms[i].h, c);
  }

  lemma ConsumingKnowsTheCode(env: Env, m: Machine, q: nat)
    requires Sound(env, m) && q in m.procs && m.procs[q].Consuming?
    ensures var code := m.procs[q].code; code.id in m.h.issued && m.h.issued[code.id] == code
  {
    hide HistoryOk, RowsSound, JudgeCode;
    assert ProcSound(env, q, m.procs[q], m.db, m.used, m.h);
  }

  lemma IssuedLasts(a: History, b: History, c: string)
    requires Grows(a, b) && c in a.issued
    ensures c in b.issued && b.issued[c] == a.issued[c]
  {
  }

  // ---------- Entitled to ----------

  /** Injective agreement: a successful exchange was entitled to. The code was issued earlier, by
      exactly one event, and the request that wins began with the value of this code and with the
      client, redirection URI and proof key that the code, as it was issued, asks for; and the code
      had not expired when the request looked. */
  lemma WinnerWasEntitled(env: Env, ms: seq<Machine>, es: seq<Event>, i: nat, c: string)
    returns (k: nat, b: nat, value: string)
    requires Trace(env, ms, es) && i < |es| && Wins(env, ms[i], es[i], c)
    ensures k < i && c in ms[i].h.issued && c in ms[i].h.presented && Issues(env, ms[k], es[k], ms[i].h.issued[c])
    ensures c in ms[i].h.consumedBy && ms[i].h.consumedBy[c] == es[i].pid
    ensures var p := ms[i].h.presented[c];
            && b < i && es[b] == Begin(es[i].pid, Looking(p.client, value, p.redirectUri, p.verifier))
            && HashToken(value) == ms[i].h.issued[c].codeHash
            && Entitled(env, ms[i].h.issued[c], p.client, p.redirectUri, p.verifier, p.now)
  {
    assert i < |ms|;
    hide Sound, Trace, Wins, Issues, Entitled, StepTo, Possible, Grows;
    ReachableIsSound(env, ms, es, i);
    WinnerConsumedIt(env, ms[i], es[i], c);
    ConsumptionWasJudged(env, ms[i], c);
    k := IssuedByAnEvent(env, ms, es, i, c);
    var j := ConsumerPresented(env, ms, es, i, c);
    b, value := ConsumingWasBegun(env, ms, es, j, es[i].pid);
    ReachableIsSound(env, ms, es, j);
    ConsumingKnowsTheCode(env, ms[j], es[i].pid);
    HistoryLasts(env, ms, es, j, i);
    IssuedLasts(ms[j].h, ms[i].h, c);
  }

  lemma ConsumptionWasJudged(env: Env, m: Machine, c: string)
    requires Sound(env, m) && c in m.h.consumedBy
    ensures c in m.h.issued && c in m.h.presented
    ensures var p := m.h.presented[c]; Entitled(env, m.h.issued[c], p.client, p.redirectUri, p.verifier, p.now)
  {
    assert ConsumptionOk(env, m.h, c) by {
      hide RowsSound, ProcSound, KeysOk, AllTermsOk, AllFirstOk, ConsumptionOk;
    }
    hide Sound;
    var p := m.h.presented[c];
    CodeVerdictMeans(env, p.client, m.h.issued[c], p.redirectUri, p.verifier, p.now);
  }

  // ---------- A refresh mints what it was asked for ----------

  predicate Refreshing(p: Proc) {
    p.CheckingOwner? || p.Dropping? || p.Replacing?
  }

  ghost predicate SameRefresh(before: Proc, p: Proc)
    requires Refreshing(p)
  {
    Refreshing(before) && before.client == p.client && before.rt == p.rt && before.scopes == p.scopes
    && before.now == p.now
  }

  /** The request looked up this token with the value and the scope that it presented. */
  ghost predicate FoundToken(before: Proc, p: Proc)
    requires Refreshing(p)
  {
    && before.LookingUp? && before.client == p.client && HashToken(before.refreshValue) == p.rt.tokenHash
    && JudgeRefresh(p.client, p.rt, before.scope, p.now) == Ok(p.scopes)
  }

  lemma OnlyLookupsLeadToRefreshing(env: Env, db: Db, p: Proc, at: Time, id: string, value: string)
    ensures var next := Move(env, db, p, at, id, value).proc;
            && (Refreshing(next) ==> SameRefresh(p, next) || FoundToken(p, next))
            && (next.LookingUp? ==> next == p)
  {
    hide JudgeRefresh, JudgeCode, OwnerActive, CreateAccessToken, CreateRefreshToken, UpdateRefreshToken, ConsumeCode,
      DeleteRefreshToken, DeleteAccessToken, WithoutAccess;
  }

  lemma RefreshingStep(env: Env, m: Machine, e: Event, q: nat)
    requires Possible(m, e) && q in StepTo(env, m, e).procs
    ensures var p := StepTo(env, m, e).procs[q];
            && (Refreshing(p) ==>
                  q in m.procs && (m.procs[q] == p || SameRefresh(m.procs[q], p) || FoundToken(m.procs[q], p)))
            && (p.LookingUp? ==> e == Begin(q, p) || (q in m.procs && m.procs[q] == p))
  {
    hide Recorded, TokensShrink, NewCode, CreateCode, Move, FoundToken, SameRefresh;
    if e.Run? && e.pid == q {
      OnlyLookupsLeadToRefreshing(env, m.db, m.procs[q], e.at, e.id, e.value);
    }
  }

  lemma {:induction false} LookupWasBegun(env: Env, ms: seq<Machine>, es: seq<Event>, i: nat, q: nat) returns (b: nat)
    requires Trace(env, ms, es) && i < |ms| && q in ms[i].procs && ms[i].procs[q].LookingUp?
    ensures b < i && es[b] == Begin(q, ms[i].procs[q])
    decreases i
  {
    hide StepTo, Possible, FoundToken, SameRefresh;
    if i == 0 {
      assert false;
    } else {
      RefreshingStep(env, ms[i - 1], es[i - 1], q);
      b := i - 1;
      if es[i - 1] != Begin(q, ms[i].procs[q]) {
        b := LookupWasBegun(env, ms, es, i - 1, q);
      }
    }
  }

  lemma {:induction false} RefreshWasBegun(env: Env, ms: seq<Machine>, es: seq<Event>, i: nat, q: nat)
    returns (b: nat, value: string, scope: string)
    requires Trace(env, ms, es) && i < |ms| && q in ms[i].procs && Refreshing(ms[i].procs[q])
    ensures var p := ms[i].procs[q];
            && b < i && es[b] == Begin(q, LookingUp(p.client, value, scope)) && HashToken(value) == p.rt.tokenHash
            && JudgeRefresh(p.client, p.rt, scope, p.now) == Ok(p.scopes)
    decreases i
  {
    hide StepTo, Possible, JudgeRefresh;
    if i == 0 {
      assert false;
    } else {
      RefreshingStep(env, ms[i - 1], es[i - 1], q);
      var before := ms[i - 1].procs[q];
      if FoundToken(before, ms[i].procs[q]) {
        b := LookupWasBegun(env, ms, es, i - 1, q);
        value, scope := before.refreshValue, before.scope;
      } else {
        b, value, scope := RefreshWasBegun(env, ms, es, i - 1, q);
      }
    }
  }

  /** An access token that a refresh mints, whatever happens in between, has exactly the scopes that
      the request named when it began, or those of the token that it presented when it named none;
      they were within the grant and allowed to the client, and the token was usable. */
  lemma RefreshMintsWhatWasAsked(env: Env, ms: seq<Machine>, es: seq<Event>, i: nat)
    returns (b: nat, value: string, scope: string)
    requires Trace(env, ms, es) && i < |es| && es[i].Run? && es[i].pid in ms[i].procs
    requires ms[i].procs[es[i].pid].Replacing?
    requires Move(env, ms[i].db, ms[i].procs[es[i].pid], es[i].at, es[i].id, es[i].value).proc != Done(false)
    ensures var p := ms[i].procs[es[i].pid];
            && b < i && es[b] == Begin(es[i].pid, LookingUp(p.client, value, scope))
            && HashToken(value) == p.rt.tokenHash && Usable(p.client, p.rt, p.now) && WithinGrant(p.client, p.rt, scope)
            && es[i].id in ms[i + 1].db.accessTokens
            && var t := ms[i + 1].db.accessTokens[es[i].id];
               && t.scopes == Wanted(p.rt, scope) && t.clientId == p.client.id && t.userId == p.rt.userId
               && t.codeId == p.rt.codeId && t.tokenHash == HashToken(es[i].value)
  {
    var p := ms[i].procs[es[i].pid];
    b, value, scope := RefreshWasBegun(env, ms, es, i, es[i].pid);
    RefreshVerdictMeans(p.client, p.rt, scope, p.now);
    assert ms[i + 1] == StepTo(env, ms[i], es[i]);
    hide Trace, JudgeRefresh, Usable, WithinGrant, Wanted, Recorded;
    ReplacementIsStored(env, ms[i], es[i]);
  }

  lemma ReplacementIsStored(env: Env, m: Machine, e: Event)
    requires e.Run? && Possible(m, e) && m.procs[e.pid].Replacing?
    requires Move(env, m.db, m.procs[e.pid], e.at, e.id, e.value).proc != Done(false)
    ensures var p, rows := m.procs[e.pid], StepTo(env, m, e).db.accessTokens;
            && e.id in rows && rows[e.id].scopes == p.scopes && rows[e.id].clientId == p.client.id
            && rows[e.id].userId == p.rt.userId && rows[e.id].codeId == p.rt.codeId
            && rows[e.id].tokenHash == HashToken(e.value)
  {
    hide Recorded, AccessHashTaken;
  }

  /** Every access token that carries a code id traces back to the code, which exactly one earlier
      event issued: same client, same user, and no scope beyond it; and the code passed its checks. */
  lemma AccessTokensTraceToTheCode(env: Env, ms: seq<Machine>, es: seq<Event>, i: nat, t: AccessToken) returns (k: nat)
    requires Trace(env, ms, es) && i < |ms| && t.id in ms[i].db.accessTokens && ms[i].db.accessTokens[t.id] == t
             && t.codeId != ""
    ensures t.codeId in ms[i].h.issued && k < i && Issues(env, ms[k], es[k], ms[i].h.issued[t.codeId])
    ensures var code := ms[i].h.issued[t.codeId];
            t.clientId == code.clientId && t.userId == code.userId && (forall s :: s in t.scopes ==> s in code.scopes)
    ensures t.codeId in ms[i].h.consumedBy
  {
    hide Sound, Trace, Issues;
    ReachableIsSound(env, ms, es, i);
    AccessTrace(env, ms[i], t);
    k := IssuedByAnEvent(env, ms, es, i, t.codeId);
  }

  lemma AccessTrace(env: Env, m: Machine, t: AccessToken)
    requires Sound(env, m) && t.id in m.db.accessTokens && m.db.accessTokens[t.id] == t
    ensures t.id in m.h.family && m.h.family[t.id] in m.h.terms
    ensures var terms := m.h.terms[m.h.family[t.id]];
            t.clientId == terms.clientId && t.userId == terms.userId && t.codeId == terms.codeId
            && (forall s :: s in t.scopes ==> s in terms.scopes)
    ensures t.codeId != "" ==>
              && t.codeId in m.h.issued && t.codeId in m.h.consumedBy
              && var code := m.h.issued[t.codeId];
                 t.clientId == code.clientId && t.userId == code.userId
                 && (forall s :: s in t.scopes ==> s in code.scopes)
  {
    assert AccessSound(t, m.h, m.procs) by {
      hide HistoryOk, ProcSound, AccessSound, RefreshSound, CodeSound;
    }
    HistoryTerms(env, m.h, m.used, m.h.family[t.id]);
    hide ProcSound, RowsSound, AllTermsOk, AllFirstOk, AllConsumptionsOk;
  }

  /** The same for refresh tokens, which keep the scopes of the code. */
  lemma RefreshTokensTraceToTheCode(env: Env, ms: seq<Machine>, es: seq<Event>, i: nat,
      t: RefreshToken) returns (k: nat)
    requires Trace(env, ms, es) && i < |ms| && t.id in ms[i].db.refreshTokens && ms[i].db.refreshTokens[t.id] == t
             && t.codeId != ""
    ensures t.codeId in ms[i].h.issued && k < i && Issues(env, ms[k], es[k], ms[i].h.issued[t.codeId])
    ensures var code := ms[i].h.issued[t.codeId];
            t.clientId == code.clientId && t.userId == code.userId && t.scopes == code.scopes
  {
    hide Sound, Trace, Issues;
    ReachableIsSound(env, ms, es, i);
    RefreshTrace(env, ms[i], t);
    k := IssuedByAnEvent(env, ms, es, i, t.codeId);
  }

  lemma RefreshTrace(env: Env, m: Machine, t: RefreshToken)
    requires Sound(env, m) && t.id in m.db.refreshTokens && m.db.refreshTokens[t.id] == t
    ensures t.id in m.h.family && m.h.family[t.id] in m.h.first && m.h.family[t.id] in m.h.terms
    ensures SameGrant(t, m.h.first[m.h.family[t.id]])
    ensures m.h.terms[m.h.family[t.id]] == Terms(t.clientId, t.userId, t.scopes, t.codeId)
    ensures t.codeId != "" ==>
              && t.codeId in m.h.issued
              && var code := m.h.issued[t.codeId];
                 t.clientId == code.clientId && t.userId == code.userId && t.scopes == code.scopes
  {
    StoredRow(m, t.id);
    FamilyIsGranted(env, m.h, m.used, t);
    HistoryTerms(env, m.h, m.used, m.h.family[t.id]);
    hide Sound, SameGrant;
  }

  // ---------- Families never change ----------

  lemma FirstLasts(a: History, b: History, id: string)
    requires Grows(a, b) && id in a.family && a.family[id] in a.first
    ensures id in b.family && b.family[id] == a.family[id] && a.family[id] in b.first
            && b.first[a.family[id]] == a.first[a.family[id]]
  {
  }

  lemma SameGrantAgrees(r: RefreshToken, s: RefreshToken, first: RefreshToken)
    requires SameGrant(r, first) && SameGrant(s, first)
    ensures r.clientId == s.clientId && r.userId == s.userId && r.scopes == s.scopes && r.codeId == s.codeId
    ensures r.usage == s.usage && r.expiration == s.expiration && r.lifetime == s.lifetime
    ensures s.expiration == Absolute ==> s.expiresAt == r.expiresAt && s.expiresAt == first.createdAt + s.lifetime
    ensures s.expiration == Sliding ==>
              s.expiresAt == s.updatedAt + s.lifetime && r.expiresAt == r.updatedAt + r.lifetime
  {
  }

  /** Along touches and rotations the client, user, scopes, code, usage, expiration policy and
      lifetime of a family stay the same. An absolute expiration stays the first issue time plus the
      lifetime; a sliding one is always the last use plus the lifetime. */
  lemma FamiliesNeverChange(env: Env, ms: seq<Machine>, es: seq<Event>, i: nat, j: nat, r: RefreshToken,
      s: RefreshToken)
    requires Trace(env, ms, es) && i <= j < |ms|
    requires r.id in ms[i].db.refreshTokens && ms[i].db.refreshTokens[r.id] == r
    requires s.id in ms[j].db.refreshTokens && ms[j].db.refreshTokens[s.id] == s
    ensures r.id in ms[j].h.family && s.id in ms[j].h.family && ms[j].h.family[s.id] in ms[j].h.first
    ensures ms[j].h.family[r.id] == ms[j].h.family[s.id] ==>
              && r.clientId == s.clientId && r.userId == s.userId && r.scopes == s.scopes && r.codeId == s.codeId
              && r.usage == s.usage && r.expiration == s.expiration && r.lifetime == s.lifetime
              && (s.expiration == Absolute ==> s.expiresAt == r.expiresAt
                                               && s.expiresAt == ms[j].h.first[ms[j].h.family[s.id]].createdAt
                                                  + s.lifetime)
              && (s.expiration == Sliding ==>
                    s.expiresAt == s.updatedAt + s.lifetime && r.expiresAt == r.updatedAt + r.lifetime)
  {
    ReachableIsSound(env, ms, es, i);
    ReachableIsSound(env, ms, es, j);
    HistoryLasts(env, ms, es, i, j);
    hide Trace, Sound, Grows, SameGrant;
    RefreshTrace(env, ms[i], r);
    RefreshTrace(env, ms[j], s);
    FirstLasts(ms[i].h, ms[j].h, r.id);
    if ms[j].h.family[r.id] == ms[j].h.family[s.id] {
      SameGrantAgrees(r, s, ms[j].h.first[ms[j].h.family[s.id]]);
    }
  }

  /** An access token never has a scope that the refresh tokens of its family do not have, and has
      the same client, user and code, whichever of the two is looked at first. */
  lemma AccessStaysWithinTheGrant(env: Env, ms: seq<Machine>, es: seq<Event>, i: nat, j: nat, t: AccessToken,
      r: RefreshToken)
    requires Trace(env, ms, es) && i < |ms| && j < |ms|
    requires t.id in ms[i].db.accessTokens && ms[i].db.accessTokens[t.id] == t
    requires r.id in ms[j].db.refreshTokens && ms[j].db.refreshTokens[r.id] == r
    ensures t.id in ms[i].h.family && r.id in ms[j].h.family
    ensures ms[i].h.family[t.id] == ms[j].h.family[r.id] ==>
              && t.clientId == r.clientId && t.userId == r.userId && t.codeId == r.codeId
              && (forall s :: s in t.scopes ==> s in r.scopes)
  {
    ReachableIsSound(env, ms, es, i);
    ReachableIsSound(env, ms, es, j);
    if i <= j {
      HistoryLasts(env, ms, es, i, j);
    } else {
      HistoryLasts(env, ms, es, j, i);
    }
    hide Trace, Sound;
    AccessTrace(env, ms[i], t);
    RefreshTrace(env, ms[j], r);
  }
}
