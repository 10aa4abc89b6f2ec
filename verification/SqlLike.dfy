/** User search in the SQL store: the LIKE pattern built by escapeLike
    (store/sql/store.go, store/sql/users.go), against the substring test of the memory store. */
module SqlLike {

  const LIKE_ESCAPE := '!'

  // ---------- LIKE with an ESCAPE character, section 8.5 of ISO/IEC 9075-2 ----------

  datatype Option<+T> = None | Some(value: T)

  datatype PatternItem = AnyString | AnyChar | Literal(c: char)

  /** The items of a pattern. An escape character must be followed by '%', '_' or itself;
      any other use is an invalid escape sequence. */
  function ParsePattern(pattern: string, escape: char): Option<seq<PatternItem>> {
    if pattern == "" then Some([])
    else if pattern[0] == escape then
      if |pattern| >= 2 && (pattern[1] == escape || pattern[1] == '%' || pattern[1] == '_') then
        match ParsePattern(pattern[2..], escape)
        case None => None
        case Some(items) => Some([Literal(pattern[1])] + items)
      else None
    else
      match ParsePattern(pattern[1..], escape)
      case None => None
      case Some(items) =>
        var item := if pattern[0] == '%' then AnyString
                    else if pattern[0] == '_' then AnyChar
                    else Literal(pattern[0]);
        Some([item] + items)
  }

  ghost predicate Matches(x: string, items: seq<PatternItem>)
    decreases |items|
  {
    if items == [] then x == ""
    else match items[0]
      case AnyString => exists k :: 0 <= k <= |x| && Matches(x[k..], items[1..])
      case AnyChar => x != "" && Matches(x[1..], items[1..])
      case Literal(c) => x != "" && x[0] == c && Matches(x[1..], items[1..])
  }

  ghost predicate Like(x: string, pattern: string, escape: char) {
    var items := ParsePattern(pattern, escape);
    items.Some? && Matches(x, items.value)
  }

  // ---------- The two searches ----------

  function EscapeChar(c: char): string {
    if c == LIKE_ESCAPE || c == '%' || c == '_' then [LIKE_ESCAPE, c] else [c]
  }

  /** strings.NewReplacer("!", "!!", "%", "!%", "_", "!_").Replace(s) */
  function EscapeLike(s: string): string {
    if s == "" then "" else EscapeChar(s[0]) + EscapeLike(s[1..])
  }

  function SearchPattern(s: string): string {
    "%" + EscapeLike(s) + "%"
  }

  /** strings.Contains(x, s) */
  ghost predicate Contains(x: string, s: string) {
    exists k :: 0 <= k <= |x| && s <= x[k..]
  }

  function Literals(s: string): seq<PatternItem> {
    seq(|s|, i requires 0 <= i < |s| => Literal(s[i]))
  }

  function Prefixed(front: seq<PatternItem>, parsed: Option<seq<PatternItem>>): Option<seq<PatternItem>> {
    if parsed.None? then None else Some(front + parsed.value)
  }

  lemma EscapedCharIsLiteral(c: char, rest: string)
    ensures ParsePattern(EscapeChar(c) + rest, LIKE_ESCAPE) == Prefixed([Literal(c)], ParsePattern(rest, LIKE_ESCAPE))
  {
    var p := EscapeChar(c) + rest;
    assert p[|EscapeChar(c)|..] == rest;
  }

  lemma {:induction false} EscapedIsLiteral(s: string, tail: string)
    ensures ParsePattern(EscapeLike(s) + tail, LIKE_ESCAPE) == Prefixed(Literals(s), ParsePattern(tail, LIKE_ESCAPE))
  {
    hide ParsePattern;
    var parsed := ParsePattern(tail, LIKE_ESCAPE);
    if s == "" {
      assert EscapeLike(s) + tail == tail;
      assert parsed.Some? ==> Literals(s) + parsed.value == parsed.value;
    } else {
      var rest := EscapeLike(s[1..]) + tail;
      assert EscapeLike(s) + tail == EscapeChar(s[0]) + rest;
      EscapedCharIsLiteral(s[0], rest);
      EscapedIsLiteral(s[1..], tail);
      assert Literals(s) == [Literal(s[0])] + Literals(s[1..]);
      assert parsed.Some? ==> Literals(s) + parsed.value == [Literal(s[0])] + (Literals(s[1..]) + parsed.value);
    }
  }

  lemma {:induction false} MatchLiterals(x: string, s: string)
    ensures Matches(x, Literals(s) + [AnyString]) <==> s <= x
  {
    var items := Literals(s) + [AnyString];
    if s == "" {
      assert items == [AnyString];
      assert Matches(x[|x|..], items[1..]);
    } else {
      assert items[0] == Literal(s[0]);
      assert items[1..] == Literals(s[1..]) + [AnyString];
      if x != "" {
        MatchLiterals(x[1..], s[1..]);
        if s <= x { assert x[..|s|] == s; assert x[1..][..|s| - 1] == s[1..]; }
        if x[0] == s[0] && s[1..] <= x[1..] {
          assert s == [s[0]] + s[1..] && x == [x[0]] + x[1..];
        }
      }
    }
  }

  lemma PatternItems(s: string)
    ensures ParsePattern(SearchPattern(s), LIKE_ESCAPE) == Some([AnyString] + (Literals(s) + [AnyString]))
  {
    var p := SearchPattern(s);
    assert p[1..] == EscapeLike(s) + "%";
    assert "%"[1..] == "" && ParsePattern("", LIKE_ESCAPE) == Some([]);
    assert ParsePattern("%", LIKE_ESCAPE) == Some([AnyString]) by {
      assert [AnyString] + [] == [AnyString];
    }
    EscapedIsLiteral(s, "%");
  }

  /** The pattern is always well-formed, and a column value matches it exactly when the
      search string occurs in it. */
  lemma SearchPatternIsSubstringTest(x: string, s: string)
    ensures Like(x, SearchPattern(s), LIKE_ESCAPE) <==> Contains(x, s)
  {
    PatternItems(s);
    var tail := Literals(s) + [AnyString];
    var items := [AnyString] + tail;
    assert items[1..] == tail;
    forall k | 0 <= k <= |x| ensures Matches(x[k..], tail) <==> s <= x[k..] {
      MatchLiterals(x[k..], s);
    }
    assert Matches(x, items) <==> exists k :: 0 <= k <= |x| && Matches(x[k..], tail);
  }

  lemma WildcardIsItem(c: char, rest: string)
    requires c == '%' || c == '_'
    ensures ParsePattern([c] + rest, LIKE_ESCAPE)
            == Prefixed([if c == '%' then AnyString else AnyChar], ParsePattern(rest, LIKE_ESCAPE))
  {
    assert ([c] + rest)[1..] == rest;
  }

  lemma AnyLetterMatches()
    ensures Matches("a", [AnyString, AnyChar, AnyString])
  {
    var items := [AnyString, AnyChar, AnyString];
    assert items[1..] == [AnyChar, AnyString] && [AnyChar, AnyString][1..] == [AnyString] && [AnyString][1..] == [];
    assert Matches("", []) && ""[0..] == "";
    assert Matches("", [AnyString]);
    assert "a"[1..] == "" && Matches("a", [AnyChar, AnyString]);
    assert "a"[0..] == "a";
  }

  lemma WildcardsAreItems()
    ensures ParsePattern("%" + "_" + "%", LIKE_ESCAPE) == Some([AnyString, AnyChar, AnyString])
  {
    assert ParsePattern("", LIKE_ESCAPE) == Some([]);
    hide ParsePattern;
    assert ParsePattern("%", LIKE_ESCAPE) == Some([AnyString]) by {
      WildcardIsItem('%', "");
      assert "%" + "" == "%" && [AnyString] + [] == [AnyString];
    }
    assert ParsePattern("_%", LIKE_ESCAPE) == Some([AnyChar, AnyString]) by {
      WildcardIsItem('_', "%");
      assert "_" + "%" == "_%" && [AnyChar] + [AnyString] == [AnyChar, AnyString];
    }
    WildcardIsItem('%', "_%");
    assert "%" + "_%" == "%" + "_" + "%";
    assert [AnyString] + [AnyChar, AnyString] == [AnyString, AnyChar, AnyString];
  }

  lemma NotContained()
    ensures !Contains("a", "_")
  {
    forall k | 0 <= k <= 1 ensures !("_" <= "a"[k..]) {
      assert k == 0 ==> "a"[k..][0] == 'a';
    }
  }

  /** Without escapeLike the pattern would accept values that do not contain the search string. */
  lemma UnescapedPatternIsWrong()
    ensures Like("a", "%" + "_" + "%", LIKE_ESCAPE) && !Contains("a", "_")
  {
    hide ParsePattern, Matches, Contains;
    WildcardsAreItems();
    AnyLetterMatches();
    NotContained();
  }

  // ---------- ListUsers ----------

  datatype UserColumns = UserColumns(normalizedUsername: string, normalizedEmail: string)

  const USERNAME_COLUMN := "normalized_username"
  const EMAIL_COLUMN := "normalized_email"
  const LIKE_OPERATOR := " LIKE ? ESCAPE '"
  const OR := " OR "
  const WHERE := " WHERE "

  /** The position of the first occurrence of the separator, or the length of the text. */
  function First(text: string, separator: string): (i: nat)
    ensures i <= |text|
    ensures i < |text| ==> separator <= text[i..]
  {
    if text == "" || separator <= text then 0 else 1 + First(text[1..], separator)
  }

  /** A comparison of a column with a pattern, its one argument; None for any other text. */
  ghost function EvalLike(condition: string, arg: string, row: UserColumns): Option<bool> {
    var i := First(condition, " ");
    var column, rest := condition[..i], condition[i..];
    if |rest| != |LIKE_OPERATOR| + 2 || !(LIKE_OPERATOR <= rest) || rest[|rest| - 1] != '\'' then None
    else
      var escape := rest[|LIKE_OPERATOR|];
      if column == USERNAME_COLUMN then Some(Like(row.normalizedUsername, arg, escape))
      else if column == EMAIL_COLUMN then Some(Like(row.normalizedEmail, arg, escape))
      else None
  }

  /** A disjunction: each comparison consumes one argument, and all arguments must be used up. */
  ghost function EvalDisjunction(text: string, args: seq<string>, row: UserColumns): Option<bool>
    decreases |text|
  {
    if args == [] then None
    else
      var i := First(text, OR);
      var first := EvalLike(text[..i], args[0], row);
      if i == |text| then (if |args| == 1 then first else None)
      else
        var rest := EvalDisjunction(text[i + |OR|..], args[1..], row);
        if first.None? || rest.None? then None else Some(first.value || rest.value)
  }

  /** The where clause of ListUsers and its arguments, read as SQL: no clause, or a disjunction in
      parentheses. */
  ghost function EvalUserWhere(where: string, args: seq<string>, row: UserColumns): Option<bool> {
    if where == "" then (if args == [] then Some(true) else None)
    else if WHERE + "(" <= where && where[|where| - 1] == ')' && |where| > |WHERE| + 1 then
      EvalDisjunction(where[|WHERE| + 1..|where| - 1], args, row)
    else None
  }

  lemma {:induction false} FirstSpace(text: string, tail: string)
    requires ' ' !in text && (tail == "" || tail[0] == ' ')
    ensures First(text + tail, " ") == |text|
  {
    if text == "" {
      assert text + tail == tail;
    } else {
      assert (text + tail)[0] == text[0] && (text + tail)[1..] == text[1..] + tail;
      FirstSpace(text[1..], tail);
    }
  }

  lemma {:induction false} FirstOr(text: string, tail: string)
    requires 'O' !in text && (text == "" || text[|text| - 1] != ' ')
    requires tail == "" || OR <= tail
    ensures First(text + tail, OR) == |text|
  {
    if text == "" {
      assert text + tail == tail;
    } else {
      var t := text + tail;
      assert t[0] == text[0] && t[1..] == text[1..] + tail;
      if |text| > 1 {
        assert t[1] == text[1] && text[1] in text;
      }
      assert !(OR <= t);
      FirstOr(text[1..], tail);
    }
  }

  lemma LikeConditionMeans(column: string, arg: string, row: UserColumns)
    requires column == USERNAME_COLUMN || column == EMAIL_COLUMN
    ensures EvalLike(Comparison(column), arg, row)
            == var x := if column == USERNAME_COLUMN then row.normalizedUsername else row.normalizedEmail;
               Some(Like(x, arg, LIKE_ESCAPE))
  {
    hide Like;
    assert ' ' !in column;
    ComparisonParts(column);
  }

  lemma ComparisonParts(column: string)
    requires ' ' !in column
    ensures var condition := Comparison(column);
            && First(condition, " ") == |column| && condition[..|column|] == column
            && |condition[|column|..]| == |LIKE_OPERATOR| + 2 && LIKE_OPERATOR <= condition[|column|..]
            && condition[|column|..][|LIKE_OPERATOR|] == LIKE_ESCAPE
            && condition[|column|..][|LIKE_OPERATOR| + 1] == '\''
  {
    var tail := LIKE_OPERATOR + [LIKE_ESCAPE] + "'";
    assert Comparison(column) == column + tail;
    FirstSpace(column, tail);
    hide First;
    assert Comparison(column)[|column|..] == tail;
  }

  /** The filter of the memory store's ListUsers. */
  ghost predicate MemorySearchAccepts(lower: string -> string, filterSearch: string, row: UserColumns) {
    var search := lower(filterSearch);
    search == "" || Contains(row.normalizedUsername, search) || Contains(row.normalizedEmail, search)
  }

  lemma DisjunctionOfTwo(a: string, b: string, arg: string, row: UserColumns)
    requires PlainComparison(a) && PlainComparison(b)
    requires EvalLike(a, arg, row).Some? && EvalLike(b, arg, row).Some?
    ensures EvalDisjunction(a + (OR + b), [arg, arg], row)
            == Some(EvalLike(a, arg, row).value || EvalLike(b, arg, row).value)
  {
    hide EvalLike, First;
    var text := a + (OR + b);
    FirstOr(a, OR + b);
    FirstOr(b, "");
    assert text[..|a|] == a && text[|a| + |OR|..] == b;
    assert b + "" == b && b[..|b|] == b && [arg, arg][1..] == [arg];
    assert EvalDisjunction(b, [arg], row) == EvalLike(b, arg, row);
  }

  lemma InParentheses(text: string, args: seq<string>, row: UserColumns)
    ensures EvalUserWhere(WHERE + "(" + text + ")", args, row) == EvalDisjunction(text, args, row)
  {
    hide EvalDisjunction;
    var where := WHERE + "(" + text + ")";
    assert where[|WHERE| + 1..|where| - 1] == text;
  }

  /** A comparison that cannot be confused with the separator. */
  predicate PlainComparison(condition: string) {
    'O' !in condition && condition != "" && condition[|condition| - 1] != ' '
  }

  function Comparison(column: string): string {
    column + LIKE_OPERATOR + [LIKE_ESCAPE] + "'"
  }

  lemma SearchClauseMeans(pattern: string, row: UserColumns)
    ensures EvalUserWhere(WHERE + "(" + (Comparison(USERNAME_COLUMN) + (OR + Comparison(EMAIL_COLUMN))) + ")",
                          [pattern, pattern], row)
            == Some(Like(row.normalizedUsername, pattern, LIKE_ESCAPE)
                    || Like(row.normalizedEmail, pattern, LIKE_ESCAPE))
  {
    var username, email := Comparison(USERNAME_COLUMN), Comparison(EMAIL_COLUMN);
    assert PlainComparison(username) && PlainComparison(email);
    hide *;
    LikeConditionMeans(USERNAME_COLUMN, pattern, row);
    LikeConditionMeans(EMAIL_COLUMN, pattern, row);
    DisjunctionOfTwo(username, email, pattern, row);
    InParentheses(username + (OR + email), [pattern, pattern], row);
  }

  /** The clause is omitted for an empty search text; strings.ToLower maps only "" to "". */
  method UserSearchWhere(lower: string -> string, filterSearch: string) returns (where: string, args: seq<string>)
    requires forall s :: lower(s) == "" <==> s == ""
    ensures forall row :: EvalUserWhere(where, args, row) == Some(MemorySearchAccepts(lower, filterSearch, row))
  {
    where := "";
    args := [];
    if filterSearch != "" {
      var pattern := SearchPattern(lower(filterSearch));
      where := WHERE + "(" + (Comparison(USERNAME_COLUMN) + (OR + Comparison(EMAIL_COLUMN))) + ")";
      args := [pattern, pattern];
      forall row: UserColumns
        ensures EvalUserWhere(where, args, row) == Some(MemorySearchAccepts(lower, filterSearch, row))
      {
        SearchClauseMeans(pattern, row);
        SearchPatternIsSubstringTest(row.normalizedUsername, lower(filterSearch));
        SearchPatternIsSubstringTest(row.normalizedEmail, lower(filterSearch));
      }
    }
  }
}
