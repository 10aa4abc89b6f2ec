/** Why ConcurrencyTheorems.AtMostOneAccessToken speaks of one-time refresh tokens: an interleaving of
    two uses of one reusable refresh token that leaves two access tokens of the same code behind. */
module PileUp {
  import opened Identity
  import opened Database
  import opened AccountRules
  import opened OAuthRules
  import opened Interleaving
  import opened Concurrency
  import opened ConcurrencyInvariant
  import opened ConcurrencyTheorems

  // ---------- Names ----------

  /** Names of different lengths are different, so longer names are new. The n-th event of the trace, from
      zero, draws Name(2 * n + 1) and Name(2 * n + 2). */
  function Name(n: nat): string { seq(n, i => 'x') }

  lemma NamesDiffer(a: nat, b: nat)
    ensures |Name(a)| == a && |Name(b)| == b && (a != b ==> Name(a) != Name(b))
  {
  }

  // ---------- The rows ----------

  const CLIENT := Client("client", "client", Confidential, "", [], [], [],
                         [AuthorizationCodeGrantType, RefreshTokenGrantType], false, false, true, 0, 0, ReUse,
                         Sliding, 0, 0, 0)

  const USER := User("user", "user", "user", "user", "user", "", true, true, "", 0, None, None, 0, 0)

  const CODE := NewCode(AuthorizeRequest(CLIENT, "", "", CodeResponse, [], "", ""), "user", Name(1), Name(2), 0)

  function Access(n: nat): AccessToken { NewAccess(CLIENT, "user", [], Name(1), Name(n), Name(n + 1), 0) }

  const REFRESH := NewRefresh(CLIENT, Access(11), Name(13), Name(14), 0)

  // ---------- The contents, one after the other ----------

  const BEFORE := EMPTY.(clients := map["client" := CLIENT], users := map["user" := USER])
  const ISSUED := BEFORE.(codes := map[Name(1) := CODE])
  const CONSUMED := BEFORE.(codes := map[Name(1) := CODE.(consumedAt := Some(0))])
  const MINTED := CONSUMED.(accessTokens := map[Name(11) := Access(11)])
  const GRANTED := MINTED.(refreshTokens := map[Name(13) := REFRESH])
  const DROPPED := GRANTED.(accessTokens := map[])
  const REPLACED := DROPPED.(accessTokens := map[Name(31) := Access(31)])
  const PILED_UP := DROPPED.(accessTokens := map[Name(31) := Access(31), Name(33) := Access(33)])
  const TOUCHED := PILED_UP.(refreshTokens := map[Name(13) := Reused(REFRESH, Name(31), 0)])
  const AFTERWARDS := PILED_UP.(refreshTokens := map[Name(13) := Reused(REFRESH, Name(33), 0)])

  // ---------- The store calls of the exchange ----------

  /** A store call at the n-th event. */
  ghost function MoveAt(env: Env, db: Db, p: Proc, n: nat): Moved {
    Move(env, db, p, 0, Name(2 * n + 1), Name(2 * n + 2))
  }

  lemma CodeIsFound(env: Env)
    ensures MoveAt(env, ISSUED, Looking(CLIENT, Name(2), "", ""), 2)
            == Moved(ISSUED, Consuming(CLIENT, CODE, "", "", 0))
  {
    hide Name;
    assert Name(1) in ISSUED.codes && ISSUED.codes[Name(1)] == CODE;
  }

  lemma CodeIsConsumed(env: Env)
    ensures MoveAt(env, ISSUED, Consuming(CLIENT, CODE, "", "", 0), 3) == Moved(CONSUMED, FindingOwner(CLIENT, CODE))
  {
    hide Name;
  }

  lemma OwnerIsActive(env: Env, db: Db)
    requires db.users == map["user" := USER]
    ensures OwnerActive(env, db, "user")
  {
  }

  lemma OwnerIsFound(env: Env)
    ensures MoveAt(env, CONSUMED, FindingOwner(CLIENT, CODE), 4)
            == Moved(CONSUMED, MintingAccess(CLIENT, "user", [], Name(1), true))
  {
    hide Name, OwnerActive;
    OwnerIsActive(env, CONSUMED);
  }

  lemma FirstIsMinted(env: Env)
    ensures MoveAt(env, CONSUMED, MintingAccess(CLIENT, "user", [], Name(1), true), 5)
            == Moved(MINTED, MintingRefresh(CLIENT, Access(11)))
  {
    assert Access(11).id == Name(11);
    hide Name, NewAccess;
  }

  lemma RefreshIsMinted(env: Env)
    ensures MoveAt(env, MINTED, MintingRefresh(CLIENT, Access(11)), 6) == Moved(GRANTED, Done(true))
  {
    hide Name, NewAccess;
  }

  // ---------- The store calls of the two refreshes ----------

  lemma TokenIsFound(env: Env, n: nat)
    ensures MoveAt(env, GRANTED, LookingUp(CLIENT, Name(14), ""), n)
            == Moved(GRANTED, CheckingOwner(CLIENT, REFRESH, [], 0))
  {
    hide Name, NewAccess;
    assert Access(11).userId == "user" && Access(11).scopes == [] by { AccessFields(11); }
    assert Name(13) in GRANTED.refreshTokens && GRANTED.refreshTokens[Name(13)] == REFRESH;
  }

  lemma AccessFields(n: nat)
    ensures Access(n).id == Name(n) && Access(n).tokenHash == HashToken(Name(n + 1))
    ensures Access(n).userId == "user" && Access(n).scopes == [] && Access(n).codeId == Name(1)
  {
  }

  lemma OwnerIsChecked(env: Env, n: nat)
    ensures MoveAt(env, GRANTED, CheckingOwner(CLIENT, REFRESH, [], 0), n)
            == Moved(GRANTED, Dropping(CLIENT, REFRESH, [], 0))
  {
    hide Name, NewAccess, OwnerActive;
    AccessFields(11);
    OwnerIsActive(env, GRANTED);
  }

  /** Both requests delete the access token that they saw: the second finds it gone. */
  lemma TokenIsDropped(env: Env, n: nat)
    ensures MoveAt(env, GRANTED, Dropping(CLIENT, REFRESH, [], 0), n)
            == Moved(DROPPED, Replacing(CLIENT, REFRESH, [], 0))
    ensures MoveAt(env, DROPPED, Dropping(CLIENT, REFRESH, [], 0), n)
            == Moved(DROPPED, Replacing(CLIENT, REFRESH, [], 0))
  {
    AccessFields(11);
    NamesDiffer(0, 11);
    hide Name, NewAccess;
  }

  /** And both store a new one. */
  lemma TokensAreReplaced(env: Env)
    ensures MoveAt(env, DROPPED, Replacing(CLIENT, REFRESH, [], 0), 15)
            == Moved(REPLACED, Touching(REFRESH, Name(31), 0))
    ensures MoveAt(env, REPLACED, Replacing(CLIENT, REFRESH, [], 0), 16)
            == Moved(PILED_UP, Touching(REFRESH, Name(33), 0))
  {
    AccessFields(11);
    AccessFields(31);
    AccessFields(33);
    NamesDiffer(31, 33);
    NamesDiffer(32, 34);
    assert REPLACED.accessTokens[Name(33) := Access(33)] == PILED_UP.accessTokens;
    hide Name;
  }

  lemma TokenIsTouched(env: Env, n: nat)
    ensures MoveAt(env, PILED_UP, Touching(REFRESH, Name(31), 0), n) == Moved(TOUCHED, Done(true))
  {
    hide Name, NewAccess;
  }

  /** The last one to save wins the link, and the other access token stays. */
  lemma TokenIsTouchedAgain(env: Env, n: nat)
    ensures MoveAt(env, TOUCHED, Touching(REFRESH, Name(33), 0), n) == Moved(AFTERWARDS, Done(true))
  {
    hide Name, NewAccess;
  }

  // ---------- The trace ----------

  /** The trace so far ends with these contents and requests, and only short names were drawn. */
  ghost predicate Ends(env: Env, ms: seq<Machine>, es: seq<Event>, db: Db, procs: map<nat, Proc>) {
    && Trace(env, ms, es) && ms[|es|].db == db && ms[|es|].procs == procs
    && forall s :: s in ms[|es|].used ==> |s| <= 2 * |es|
  }

  lemma Extended(env: Env, ms: seq<Machine>, es: seq<Event>, e: Event)
    requires Trace(env, ms, es) && Possible(ms[|es|], e)
    ensures Trace(env, ms + [StepTo(env, ms[|es|], e)], es + [e])
  {
    hide StepTo, Possible, Starting;
    var ns, fs := ms + [StepTo(env, ms[|es|], e)], es + [e];
    forall i | 0 <= i < |fs| ensures Possible(ns[i], fs[i]) && ns[i + 1] == StepTo(env, ns[i], fs[i]) {
      if i < |es| {
        assert ns[i] == ms[i] && fs[i] == es[i] && ns[i + 1] == ms[i + 1];
      }
    }
  }

  lemma NamesAreFresh(used: set<string>, n: nat)
    requires forall s :: s in used ==> |s| <= 2 * n
    ensures FreshValues(used, Name(2 * n + 1), Name(2 * n + 2))
    ensures forall s :: s in used + {Name(2 * n + 1), Name(2 * n + 2)} ==> |s| <= 2 * n + 2
  {
    NamesDiffer(2 * n + 1, 2 * n + 2);
  }

  /** What an event does, as far as the contents, the requests and the names go. */
  ghost predicate Does(env: Env, m: Machine, e: Event, n: nat, db: Db, procs: map<nat, Proc>) {
    && Possible(m, e)
    && var next := StepTo(env, m, e);
       next.db == db && next.procs == procs && forall s :: s in next.used ==> |s| <= 2 * n + 2
  }

  lemma Appended(env: Env, ms: seq<Machine>, es: seq<Event>, e: Event, db: Db, procs: map<nat, Proc>)
    returns (ns: seq<Machine>, fs: seq<Event>)
    requires Trace(env, ms, es) && Does(env, ms[|es|], e, |es|, db, procs)
    ensures Ends(env, ns, fs, db, procs) && |fs| == |es| + 1 && fs[|es|] == e && ms <= ns && es <= fs
  {
    Extended(env, ms, es, e);
    ns, fs := ms + [StepTo(env, ms[|es|], e)], es + [e];
    assert ns[|fs|] == StepTo(env, ms[|es|], e);
    hide Trace, StepTo, Possible;
  }

  /** A request begins. */
  lemma Arrives(env: Env, ms: seq<Machine>, es: seq<Event>, db: Db, procs: map<nat, Proc>, pid: nat, p: Proc,
      after: map<nat, Proc>) returns (ns: seq<Machine>, fs: seq<Event>)
    requires Ends(env, ms, es, db, procs) && pid !in procs && Starts(p) && after == procs[pid := p]
    ensures Ends(env, ns, fs, db, after) && |fs| == |es| + 1
  {
    hide Trace;
    ns, fs := Appended(env, ms, es, Begin(pid, p), db, after);
  }

  lemma RunDoes(env: Env, m: Machine, n: nat, pid: nat, b: Db, p: Proc)
    requires pid in m.procs && MoveAt(env, m.db, m.procs[pid], n) == Moved(b, p)
    requires forall s :: s in m.used ==> |s| <= 2 * n
    ensures Does(env, m, Run(pid, 0, Name(2 * n + 1), Name(2 * n + 2)), n, b, m.procs[pid := p])
  {
    NamesAreFresh(m.used, n);
    hide Name, Move, Recorded, FreshValues;
  }

  /** A request makes its next store call. */
  lemma GoesOn(env: Env, ms: seq<Machine>, es: seq<Event>, db: Db, procs: map<nat, Proc>, pid: nat, b: Db, p: Proc,
      after: map<nat, Proc>) returns (ns: seq<Machine>, fs: seq<Event>)
    requires Ends(env, ms, es, db, procs) && pid in procs && MoveAt(env, db, procs[pid], |es|) == Moved(b, p)
    requires after == procs[pid := p]
    ensures Ends(env, ns, fs, b, after) && |fs| == |es| + 1 && ms <= ns && es <= fs
    ensures fs[|es|].Run? && fs[|es|].pid == pid
  {
    assert |ms| == |es| + 1;
    hide Trace, Does, MoveAt, Name;
    RunDoes(env, ms[|es|], |es|, pid, b, p);
    ns, fs := Appended(env, ms, es, Run(pid, 0, Name(2 * |es| + 1), Name(2 * |es| + 2)), b, after);
  }

  lemma CodeIsIssued(env: Env) returns (ms: seq<Machine>, es: seq<Event>)
    ensures Ends(env, ms, es, ISSUED, map[]) && |es| == 1
  {
    var m := Machine(BEFORE, {}, map[], NO_HISTORY);
    var e := IssueCode(AuthorizeRequest(CLIENT, "", "", CodeResponse, [], "", ""), "user", Name(1), Name(2), 0);
    NamesAreFresh({}, 0);
    assert Trace(env, [m], []);
    Extended(env, [m], [], e);
    ms, es := [m] + [StepTo(env, m, e)], [] + [e];
    hide Name;
  }

  lemma CodeIsUsed(env: Env) returns (ms: seq<Machine>, es: seq<Event>)
    ensures Ends(env, ms, es, CONSUMED, map[0 := FindingOwner(CLIENT, CODE)]) && |es| == 4
  {
    var looking, consuming := Looking(CLIENT, Name(2), "", ""), Consuming(CLIENT, CODE, "", "", 0);
    var finding := FindingOwner(CLIENT, CODE);
    assert Starts(looking);
    hide *;
    ms, es := CodeIsIssued(env);
    ms, es := Arrives(env, ms, es, ISSUED, map[], 0, looking, map[0 := looking]);
    CodeIsFound(env);
    ms, es := GoesOn(env, ms, es, ISSUED, map[0 := looking], 0, ISSUED, consuming, map[0 := consuming]);
    CodeIsConsumed(env);
    ms, es := GoesOn(env, ms, es, ISSUED, map[0 := consuming], 0, CONSUMED, finding, map[0 := finding]);
  }

  lemma CodeIsExchanged(env: Env) returns (ms: seq<Machine>, es: seq<Event>)
    ensures Ends(env, ms, es, GRANTED, map[0 := Done(true)]) && |es| == 7
  {
    hide *;
    var finding, minting := FindingOwner(CLIENT, CODE), MintingAccess(CLIENT, "user", [], Name(1), true);
    var mintingRefresh := MintingRefresh(CLIENT, Access(11));
    ms, es := CodeIsUsed(env);
    OwnerIsFound(env);
    ms, es := GoesOn(env, ms, es, CONSUMED, map[0 := finding], 0, CONSUMED, minting, map[0 := minting]);
    FirstIsMinted(env);
    ms, es := GoesOn(env, ms, es, CONSUMED, map[0 := minting], 0, MINTED, mintingRefresh, map[0 := mintingRefresh]);
    RefreshIsMinted(env);
    ms, es := GoesOn(env, ms, es, MINTED, map[0 := mintingRefresh], 0, GRANTED, Done(true), map[0 := Done(true)]);
  }

  function Two(p: Proc, q: Proc): map<nat, Proc> { map[0 := Done(true), 1 := p, 2 := q] }

  lemma TwoChange(p: Proc, q: Proc, r: Proc)
    ensures Two(p, q).Keys == {0, 1, 2} && Two(p, q)[1] == p && Two(p, q)[2] == q
    ensures Two(r, q) == Two(p, q)[1 := r] && Two(p, r) == Two(p, q)[2 := r]
    ensures Two(p, q) == map[0 := Done(true), 1 := p][2 := q]
  {
  }

  /** Both requests are at the same place, and make the same store call one after the other. */
  lemma BothGoOn(env: Env, ms: seq<Machine>, es: seq<Event>, db: Db, p: Proc, b: Db, q: Proc, c: Db, r: Proc)
    returns (ns: seq<Machine>, fs: seq<Event>)
    requires Ends(env, ms, es, db, Two(p, p))
    requires MoveAt(env, db, p, |es|) == Moved(b, q) && MoveAt(env, b, p, |es| + 1) == Moved(c, r)
    ensures Ends(env, ns, fs, c, Two(q, r)) && |fs| == |es| + 2
  {
    hide *;
    TwoChange(p, p, q);
    ns, fs := GoesOn(env, ms, es, db, Two(p, p), 1, b, q, Two(q, p));
    TwoChange(q, p, r);
    ns, fs := GoesOn(env, ns, fs, b, Two(q, p), 2, c, r, Two(q, r));
  }

  lemma BothArrive(env: Env) returns (ms: seq<Machine>, es: seq<Event>)
    ensures var p := LookingUp(CLIENT, Name(14), ""); Ends(env, ms, es, GRANTED, Two(p, p)) && |es| == 9
  {
    var p := LookingUp(CLIENT, Name(14), "");
    assert Starts(p);
    hide *;
    ms, es := CodeIsExchanged(env);
    ms, es := Arrives(env, ms, es, GRANTED, map[0 := Done(true)], 1, p, map[0 := Done(true), 1 := p]);
    TwoChange(p, p, p);
    ms, es := Arrives(env, ms, es, GRANTED, map[0 := Done(true), 1 := p], 2, p, Two(p, p));
  }

  /** The interleaving: both requests look the token up before either deletes its access token, and so
      on, step by step. */
  lemma BothRefresh(env: Env) returns (ms: seq<Machine>, es: seq<Event>)
    ensures Ends(env, ms, es, AFTERWARDS, Two(Done(true), Done(true))) && |es| == 19
  {
    hide *;
    ms, es := BothArrive(env);
    var lookingUp, checking := LookingUp(CLIENT, Name(14), ""), CheckingOwner(CLIENT, REFRESH, [], 0);
    var dropping, replacing := Dropping(CLIENT, REFRESH, [], 0), Replacing(CLIENT, REFRESH, [], 0);
    var one, other := Touching(REFRESH, Name(31), 0), Touching(REFRESH, Name(33), 0);
    TokenIsFound(env, 9);
    TokenIsFound(env, 10);
    ms, es := BothGoOn(env, ms, es, GRANTED, lookingUp, GRANTED, checking, GRANTED, checking);
    OwnerIsChecked(env, 11);
    OwnerIsChecked(env, 12);
    ms, es := BothGoOn(env, ms, es, GRANTED, checking, GRANTED, dropping, GRANTED, dropping);
    TokenIsDropped(env, 13);
    TokenIsDropped(env, 14);
    ms, es := BothGoOn(env, ms, es, GRANTED, dropping, DROPPED, replacing, DROPPED, replacing);
    TokensAreReplaced(env);
    ms, es := BothGoOn(env, ms, es, DROPPED, replacing, REPLACED, one, PILED_UP, other);
    TokenIsTouched(env, 17);
    TokenIsTouchedAgain(env, 18);
    TwoChange(one, other, Done(true));
    ms, es := GoesOn(env, ms, es, PILED_UP, Two(one, other), 1, TOUCHED, Done(true), Two(Done(true), other));
    TwoChange(Done(true), other, Done(true));
    ms, es := GoesOn(env, ms, es, TOUCHED, Two(Done(true), other), 2, AFTERWARDS, Done(true),
                     Two(Done(true), Done(true)));
  }

  lemma TwoAreLeft()
    ensures Name(31) != Name(33) && Name(31) in AFTERWARDS.accessTokens && Name(33) in AFTERWARDS.accessTokens
    ensures AFTERWARDS.accessTokens[Name(31)].codeId == AFTERWARDS.accessTokens[Name(33)].codeId != ""
  {
    NamesDiffer(31, 33);
    NamesDiffer(0, 1);
    AccessFields(31);
    AccessFields(33);
    hide Name, Access;
  }

  /** Where AtMostOneAccessToken does not apply: two tokens that are left show a reusable family. */
  lemma FamilyIsReusable(env: Env, ms: seq<Machine>, es: seq<Event>, i: nat, j: string, k: string)
    requires Trace(env, ms, es) && i < |ms| && Quiescent(ms[i]) && j != k
    requires j in ms[i].db.accessTokens && k in ms[i].db.accessTokens
    requires ms[i].db.accessTokens[j].codeId == ms[i].db.accessTokens[k].codeId != ""
    ensures j in ms[i].h.family && Reusable(ms[i].h, ms[i].h.family[j])
  {
    hide Trace, Sound, Reusable;
    ReachableIsSound(env, ms, es, i);
    AccessTokenIsSettled(env, ms[i], j);
    if !Reusable(ms[i].h, ms[i].h.family[j]) {
      AtMostOneAccessToken(env, ms, es, i, j, k);
    }
  }

  lemma NobodyIsLeft(env: Env, ms: seq<Machine>, es: seq<Event>, db: Db)
    requires Ends(env, ms, es, db, Two(Done(true), Done(true)))
    ensures Trace(env, ms, es) && |ms| == |es| + 1 && Quiescent(ms[|es|]) && ms[|es|].db == db
  {
    assert |ms| == |es| + 1;
    hide Trace;
  }

  /** Two uses of one reusable refresh token that interleave: afterwards no request is in flight, and
      two access tokens carry the id of the same code. */
  lemma AccessTokensPileUp(env: Env) returns (ms: seq<Machine>, es: seq<Event>, j: string, k: string)
    ensures Trace(env, ms, es) && Quiescent(ms[|es|]) && j != k
    ensures var m := ms[|es|];
            && j in m.db.accessTokens && k in m.db.accessTokens
            && m.db.accessTokens[j].codeId == m.db.accessTokens[k].codeId != ""
            && j in m.h.family && Reusable(m.h, m.h.family[j])
  {
    hide *;
    ms, es := BothRefresh(env);
    NobodyIsLeft(env, ms, es, AFTERWARDS);
    TwoAreLeft();
    j, k := Name(31), Name(33);
    FamilyIsReusable(env, ms, es, |es|, j, k);
  }
}
