/** Why ConcurrencyReplay.RevocationIsFinal asks that nobody else carries the grant: two requests present
    the same code, and the one that comes late is through with its revocation before the other one has
    minted anything. Afterwards the tokens of a code that was presented twice are stored. */
module ReplayRace {
  import opened Identity
  import opened Database
  import opened AccountRules
  import opened OAuthRules
  import opened Interleaving
  import opened Concurrency
  import opened ConcurrencyTheorems
  import opened ConcurrencyReplay
  import opened PileUp

  // ---------- The contents ----------

  const RACED := CONSUMED.(accessTokens := map[Name(21) := Access(21)])
  const WON := RACED.(refreshTokens := map[Name(23) := NewRefresh(CLIENT, Access(21), Name(23), Name(24), 0)])

  function First(p: Proc, q: Proc): map<nat, Proc> { map[0 := p, 1 := q] }

  lemma FirstChange(p: Proc, q: Proc, r: Proc)
    ensures First(p, q).Keys == {0, 1} && First(p, q)[0] == p && First(p, q)[1] == q
    ensures First(r, q) == First(p, q)[0 := r] && First(p, r) == First(p, q)[1 := r]
    ensures First(p, q) == map[0 := p][1 := q]
  {
  }

  // ---------- The store calls ----------

  lemma BothFindTheCode(env: Env, n: nat)
    ensures MoveAt(env, ISSUED, Looking(CLIENT, Name(2), "", ""), n)
            == Moved(ISSUED, Consuming(CLIENT, CODE, "", "", 0))
  {
    hide Name;
    assert Name(1) in ISSUED.codes && ISSUED.codes[Name(1)] == CODE;
  }

  lemma OneConsumesIt(env: Env, n: nat)
    ensures MoveAt(env, ISSUED, Consuming(CLIENT, CODE, "", "", 0), n) == Moved(CONSUMED, FindingOwner(CLIENT, CODE))
    ensures MoveAt(env, CONSUMED, Consuming(CLIENT, CODE, "", "", 0), n) == Moved(CONSUMED, RevokingRefresh(Name(1)))
  {
    hide Name;
  }

  /** There is nothing to revoke yet. */
  lemma NothingIsRevoked(env: Env, n: nat)
    ensures MoveAt(env, CONSUMED, RevokingRefresh(Name(1)), n) == Moved(CONSUMED, RevokingAccess(Name(1)))
    ensures MoveAt(env, CONSUMED, RevokingAccess(Name(1)), n) == Moved(CONSUMED, Done(false))
  {
    hide Name;
  }

  lemma TheOtherMints(env: Env)
    ensures MoveAt(env, CONSUMED, FindingOwner(CLIENT, CODE), 9)
            == Moved(CONSUMED, MintingAccess(CLIENT, "user", [], Name(1), true))
    ensures MoveAt(env, CONSUMED, MintingAccess(CLIENT, "user", [], Name(1), true), 10)
            == Moved(RACED, MintingRefresh(CLIENT, Access(21)))
    ensures MoveAt(env, RACED, MintingRefresh(CLIENT, Access(21)), 11) == Moved(WON, Done(true))
  {
    AccessFields(21);
    hide Name, NewAccess, OwnerActive;
    OwnerIsActive(env, CONSUMED);
  }

  // ---------- The trace ----------

  lemma BothConsume(env: Env) returns (ms: seq<Machine>, es: seq<Event>)
    ensures Ends(env, ms, es, CONSUMED, First(FindingOwner(CLIENT, CODE), RevokingRefresh(Name(1)))) && |es| == 7
  {
    var looking, consuming := Looking(CLIENT, Name(2), "", ""), Consuming(CLIENT, CODE, "", "", 0);
    var finding, revoking := FindingOwner(CLIENT, CODE), RevokingRefresh(Name(1));
    assert Starts(looking);
    hide *;
    ms, es := CodeIsIssued(env);
    ms, es := Arrives(env, ms, es, ISSUED, map[], 0, looking, map[0 := looking]);
    FirstChange(looking, looking, consuming);
    ms, es := Arrives(env, ms, es, ISSUED, map[0 := looking], 1, looking, First(looking, looking));
    BothFindTheCode(env, 3);
    ms, es := GoesOn(env, ms, es, ISSUED, First(looking, looking), 0, ISSUED, consuming, First(consuming, looking));
    BothFindTheCode(env, 4);
    FirstChange(consuming, looking, consuming);
    ms, es := GoesOn(env, ms, es, ISSUED, First(consuming, looking), 1, ISSUED, consuming, First(consuming, consuming));
    OneConsumesIt(env, 5);
    FirstChange(consuming, consuming, finding);
    ms, es := GoesOn(env, ms, es, ISSUED, First(consuming, consuming), 0, CONSUMED, finding, First(finding, consuming));
    OneConsumesIt(env, 6);
    FirstChange(finding, consuming, revoking);
    ms, es := GoesOn(env, ms, es, CONSUMED, First(finding, consuming), 1, CONSUMED, revoking, First(finding, revoking));
  }

  lemma TheLateOneIsThrough(env: Env, ms: seq<Machine>, es: seq<Event>) returns (ns: seq<Machine>, fs: seq<Event>)
    requires |es| == 7 && Ends(env, ms, es, CONSUMED, First(FindingOwner(CLIENT, CODE), RevokingRefresh(Name(1))))
    ensures Ends(env, ns, fs, CONSUMED, First(FindingOwner(CLIENT, CODE), Done(false))) && |fs| == 9
    ensures ms <= ns && es <= fs && fs[7].Run? && fs[7].pid == 1
  {
    var finding, revoking, last := FindingOwner(CLIENT, CODE), RevokingRefresh(Name(1)), RevokingAccess(Name(1));
    hide *;
    NothingIsRevoked(env, 7);
    FirstChange(finding, revoking, last);
    ns, fs := GoesOn(env, ms, es, CONSUMED, First(finding, revoking), 1, CONSUMED, last, First(finding, last));
    NothingIsRevoked(env, 8);
    FirstChange(finding, last, Done(false));
    ns, fs := GoesOn(env, ns, fs, CONSUMED, First(finding, last), 1, CONSUMED, Done(false),
                     First(finding, Done(false)));
  }

  lemma TheOtherIsThrough(env: Env, ms: seq<Machine>, es: seq<Event>) returns (ns: seq<Machine>, fs: seq<Event>)
    requires |es| == 9 && Ends(env, ms, es, CONSUMED, First(FindingOwner(CLIENT, CODE), Done(false)))
    ensures Ends(env, ns, fs, WON, First(Done(true), Done(false))) && |fs| == 12 && ms <= ns && es <= fs
  {
    var finding, minting := FindingOwner(CLIENT, CODE), MintingAccess(CLIENT, "user", [], Name(1), true);
    var mintingRefresh, done := MintingRefresh(CLIENT, Access(21)), Done(false);
    hide *;
    TheOtherMints(env);
    FirstChange(finding, done, minting);
    ns, fs := GoesOn(env, ms, es, CONSUMED, First(finding, done), 0, CONSUMED, minting, First(minting, done));
    FirstChange(minting, done, mintingRefresh);
    ns, fs := GoesOn(env, ns, fs, CONSUMED, First(minting, done), 0, RACED, mintingRefresh,
                     First(mintingRefresh, done));
    FirstChange(mintingRefresh, done, Done(true));
    ns, fs := GoesOn(env, ns, fs, RACED, First(mintingRefresh, done), 0, WON, Done(true), First(Done(true), done));
  }

  lemma TokensAreLeft()
    ensures Name(21) in WON.accessTokens && WON.accessTokens[Name(21)].codeId == Name(1)
    ensures Name(23) in WON.refreshTokens && WON.refreshTokens[Name(23)].codeId == Name(1)
  {
    AccessFields(21);
    hide Name, Access;
  }

  lemma BothAreThrough(env: Env, ms: seq<Machine>, es: seq<Event>, db: Db, p: Proc, q: Proc)
    requires Ends(env, ms, es, db, First(p, q))
    ensures Trace(env, ms, es) && |ms| == |es| + 1 && ms[|es|].db == db && ms[|es|].procs == First(p, q)
    ensures p.Done? && q.Done? ==> Quiescent(ms[|es|])
  {
    assert |ms| == |es| + 1;
    hide Trace;
  }

  /** The revocation of the late request, from its first store call at event i on, ends with nothing in
      flight and with an access token and a refresh token of the code c that was presented twice. */
  lemma RevocationComesTooEarly(env: Env) returns (ms: seq<Machine>, es: seq<Event>, i: nat, c: string)
    ensures Trace(env, ms, es) && i < |es| < |ms| && Quiescent(ms[|es|])
    ensures es[i].Run? && es[i].pid in ms[i].procs && ms[i].procs[es[i].pid] == RevokingRefresh(c)
    ensures !NobodyCarries(ms[i].procs, c) && !NoAccess(ms[|es|].db, c) && !NoRefresh(ms[|es|].db, c)
  {
    hide *;
    var ms7, es7 := BothConsume(env);
    var ms9, es9 := TheLateOneIsThrough(env, ms7, es7);
    ms, es := TheOtherIsThrough(env, ms9, es9);
    i, c := 7, Name(1);
    BothAreThrough(env, ms7, es7, CONSUMED, FindingOwner(CLIENT, CODE), RevokingRefresh(c));
    BothAreThrough(env, ms, es, WON, Done(true), Done(false));
    assert ms[7] == ms9[7] == ms7[7] && es[7] == es9[7];
    FirstChange(FindingOwner(CLIENT, CODE), RevokingRefresh(c), Done(false));
    TokensAreLeft();
    CarriedAndLeft(ms[7].procs, WON, c);
  }

  lemma CarriedAndLeft(procs: map<nat, Proc>, db: Db, c: string)
    requires 0 in procs && procs[0] == FindingOwner(CLIENT, CODE) && c == Name(1)
    requires Name(21) in db.accessTokens && db.accessTokens[Name(21)].codeId == c
    requires Name(23) in db.refreshTokens && db.refreshTokens[Name(23)].codeId == c
    ensures !NobodyCarries(procs, c) && !NoAccess(db, c) && !NoRefresh(db, c)
  {
    assert Carries(procs[0], c);
  }
}
