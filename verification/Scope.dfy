/** The scope parameter of RFC 6749 section 3.3: parsing, printing and comparing
    space-delimited scope lists (pkg/identity/scope.go). */
module Scope {

  // ---------- strings.Split and strings.Join with a single space ----------

  function SplitSpaces(s: string): (fields: seq<string>)
    ensures |fields| >= 1
  {
    if s == "" then [""]
    else
      var rest := SplitSpaces(s[1..]);
      if s[0] == ' ' then [""] + rest else [[s[0]] + rest[0]] + rest[1..]
  }

  /** FormatScope: strings.Join(scopes, " "). */
  function FormatScope(scopes: seq<string>): string {
    if |scopes| == 0 then ""
    else if |scopes| == 1 then scopes[0]
    else scopes[0] + " " + FormatScope(scopes[1..])
  }

  // ---------- Parsing ----------

  /** The fields ParseScope keeps, read from the left: a field is kept when it is not empty
      and does not occur further left. */
  function KeepFirst(fields: seq<string>): (kept: seq<string>)
    ensures forall x :: x in kept <==> x in fields && x != ""
  {
    if |fields| == 0 then []
    else
      var front, last := fields[..|fields| - 1], fields[|fields| - 1];
      assert fields == front + [last];
      if last == "" || last in front then KeepFirst(front) else KeepFirst(front) + [last]
  }

  function ParsedScopes(scope: string): seq<string> {
    KeepFirst(SplitSpaces(scope))
  }

  method ParseScope(scope: string) returns (result: seq<string>)
    ensures result == ParsedScopes(scope)
  {
    var fields := SplitSpaces(scope);
    result := [];
    var seen: set<string> := {};
    for i := 0 to |fields|
      invariant result == KeepFirst(fields[..i])
      invariant forall x :: x in seen <==> x in fields[..i] && x != ""
    {
      var field := fields[i];
      assert fields[..i + 1] == fields[..i] + [field];
      if field == "" || field in seen {
        continue;
      }
      seen := seen + {field};
      result := result + [field];
    }
    assert fields[..|fields|] == fields;
  }

  // ---------- What parsing means ----------

  predicate Distinct(xs: seq<string>) {
    forall i, j :: 0 <= i < j < |xs| ==> xs[i] != xs[j]
  }

  predicate IsField(x: string) {
    x != "" && ' ' !in x
  }

  predicate AllFields(xs: seq<string>) {
    forall x :: x in xs ==> IsField(x)
  }

  /** kept is fields read at the positions pos, and pos lists, in increasing order, exactly the
      positions that hold the first occurrence of a non-empty field. */
  ghost predicate FirstOccurrencesAt(fields: seq<string>, kept: seq<string>, pos: seq<nat>) {
    && |pos| == |kept|
    && (forall k :: 0 <= k < |pos| ==> pos[k] < |fields| && kept[k] == fields[pos[k]])
    && (forall j, k :: 0 <= j < k < |pos| ==> pos[j] < pos[k])
    && (forall i: nat :: i < |fields| ==> (i in pos <==> fields[i] != "" && fields[i] !in fields[..i]))
  }

  lemma {:induction false} KeepsExactlyFirstOccurrences(fields: seq<string>) returns (pos: seq<nat>)
    ensures FirstOccurrencesAt(fields, KeepFirst(fields), pos)
  {
    if |fields| == 0 {
      pos := [];
    } else {
      var n := |fields| - 1;
      var front := fields[..n];
      assert fields == front + [fields[n]];
      var before := KeepsExactlyFirstOccurrences(front);
      assert forall i: nat :: i < n ==> front[..i] == fields[..i] && front[i] == fields[i];
      assert n !in before;
      if fields[n] == "" || fields[n] in front {
        pos := before;
      } else {
        pos := before + [n];
        assert forall i :: i in pos <==> i in before || i == n;
      }
    }
  }

  lemma {:induction false} KeptIsDistinct(fields: seq<string>)
    ensures Distinct(KeepFirst(fields))
  {
    if |fields| > 0 {
      KeptIsDistinct(fields[..|fields| - 1]);
    }
  }

  lemma {:induction false} SplitHasNoSpaces(s: string)
    ensures forall x :: x in SplitSpaces(s) ==> ' ' !in x
  {
    if s != "" {
      SplitHasNoSpaces(s[1..]);
      var rest := SplitSpaces(s[1..]);
      assert rest[0] in rest;
      forall x | x in SplitSpaces(s) ensures ' ' !in x {
        if s[0] != ' ' && x == [s[0]] + rest[0] {
        } else {
          assert x in rest || x == "";
        }
      }
    }
  }

  lemma ParsedIsClean(s: string)
    ensures AllFields(ParsedScopes(s)) && Distinct(ParsedScopes(s))
  {
    SplitHasNoSpaces(s);
    KeptIsDistinct(SplitSpaces(s));
  }

  // ---------- Round trips ----------

  lemma {:induction false} SplitWord(x: string, rest: string)
    requires ' ' !in x
    ensures SplitSpaces(x + " " + rest) == [x] + SplitSpaces(rest)
  {
    var s := x + " " + rest;
    if x == "" {
      assert s[1..] == rest;
    } else {
      assert s[1..] == x[1..] + " " + rest;
      SplitWord(x[1..], rest);
      assert [s[0]] + x[1..] == x;
    }
  }

  lemma {:induction false} SplitLastWord(x: string)
    requires ' ' !in x
    ensures SplitSpaces(x) == [x]
  {
    if x != "" {
      SplitLastWord(x[1..]);
      assert [x[0]] + x[1..] == x;
    }
  }

  lemma {:induction false} SplitUndoesJoin(xs: seq<string>)
    requires |xs| > 0 && forall x :: x in xs ==> ' ' !in x
    ensures SplitSpaces(FormatScope(xs)) == xs
  {
    if |xs| == 1 {
      SplitLastWord(xs[0]);
    } else {
      SplitUndoesJoin(xs[1..]);
      SplitWord(xs[0], FormatScope(xs[1..]));
    }
  }

  lemma {:induction false} KeepFirstOfClean(xs: seq<string>)
    requires Distinct(xs) && "" !in xs
    ensures KeepFirst(xs) == xs
  {
    if |xs| > 0 {
      var n := |xs| - 1;
      KeepFirstOfClean(xs[..n]);
      assert xs[n] !in xs[..n];
      assert xs == xs[..n] + [xs[n]];
    }
  }

  /** Printing then parsing gives the list back exactly for the lists without duplicates
      whose entries are non-empty and free of spaces. */
  lemma RoundTripExactly(xs: seq<string>)
    ensures ParsedScopes(FormatScope(xs)) == xs <==> AllFields(xs) && Distinct(xs)
  {
    if AllFields(xs) && Distinct(xs) {
      if |xs| == 0 {
        assert SplitSpaces("") == [""];
        assert KeepFirst([""]) == KeepFirst([]);
      } else {
        SplitUndoesJoin(xs);
        KeepFirstOfClean(xs);
      }
    }
    ParsedIsClean(FormatScope(xs));
  }

  predicate IsValidScopeToken(scope: string) {
    && scope != ""
    && forall c :: c in scope ==> '\U{21}' <= c <= '\U{7E}' && c != '\U{22}' && c != '\U{5C}'
  }

  predicate ValidateScopeSyntax(scopes: seq<string>) {
    forall s :: s in scopes ==> IsValidScopeToken(s)
  }

  lemma ScopeRoundTrip(xs: seq<string>)
    requires ValidateScopeSyntax(xs) && Distinct(xs)
    ensures ParsedScopes(FormatScope(xs)) == xs
  {
    RoundTripExactly(xs);
  }

  /** Parsing is a normal form: printing the result and parsing it again changes nothing. */
  lemma ParseFormatParse(s: string)
    ensures ParsedScopes(FormatScope(ParsedScopes(s))) == ParsedScopes(s)
  {
    ParsedIsClean(s);
    RoundTripExactly(ParsedScopes(s));
  }

  // ---------- Comparison ----------

  predicate EqualLists(a: seq<string>, b: seq<string>) {
    |a| == |b| && forall x :: x in b ==> x in a
  }

  method ScopesEqual(a: seq<string>, b: seq<string>) returns (equal: bool)
    ensures equal == EqualLists(a, b)
  {
    if |a| != |b| {
      return false;
    }
    var members: set<string> := {};
    for i := 0 to |a|
      invariant forall x :: x in members <==> x in a[..i]
    {
      members := members + {a[i]};
    }
    assert a[..|a|] == a;
    for i := 0 to |b|
      invariant forall x :: x in b[..i] ==> x in a
    {
      if b[i] !in members {
        return false;
      }
    }
    assert b[..|b|] == b;
    return true;
  }

  function Elements(xs: seq<string>): set<string> {
    set x | x in xs
  }

  lemma {:induction false} DistinctCount(xs: seq<string>)
    requires Distinct(xs)
    ensures |Elements(xs)| == |xs|
  {
    if |xs| > 0 {
      var n := |xs| - 1;
      DistinctCount(xs[..n]);
      assert xs == xs[..n] + [xs[n]];
      assert Elements(xs) == Elements(xs[..n]) + {xs[n]};
      assert xs[n] !in Elements(xs[..n]);
    }
  }

  lemma SubsetOfSameSize(a: set<string>, b: set<string>)
    requires b <= a && |a| == |b|
    ensures a == b
  {
    assert |a - b| == |a| - |b|;
  }

  /** On parsed scope strings the comparison decides equality of the scope sets. */
  lemma ScopesEqualDecidesSetEquality(s: string, t: string)
    ensures EqualLists(ParsedScopes(s), ParsedScopes(t))
       <==> Elements(ParsedScopes(s)) == Elements(ParsedScopes(t))
  {
    var a, b := ParsedScopes(s), ParsedScopes(t);
    ParsedIsClean(s);
    ParsedIsClean(t);
    DistinctCount(a);
    DistinctCount(b);
    if EqualLists(a, b) {
      assert Elements(b) <= Elements(a);
      SubsetOfSameSize(Elements(a), Elements(b));
    }
    if Elements(a) == Elements(b) {
      forall x | x in b ensures x in a { assert x in Elements(b); }
    }
  }

  /** On lists with duplicates it does not: the order of the arguments matters. */
  lemma ScopesEqualNeedsParsedLists()
    ensures EqualLists(["a", "b"], ["a", "a"]) && !EqualLists(["a", "a"], ["a", "b"])
  {
    assert "b" in ["a", "b"];
  }
}
