/** Placeholder rebinding for PostgreSQL (store/sql/store.go, rebind). */
module Rebind {

  datatype Dialect = Postgres | MySql | Sqlite

  /** No quoted string is open. */
  const NONE := '\0'

  /** The open quote after reading c. */
  function QuoteAfter(quote: char, c: char): char {
    if quote != NONE then (if c == quote then NONE else quote)
    else if c == '\'' || c == '"' then c
    else NONE
  }

  /** strconv.Itoa */
  function Itoa(n: nat): (s: string)
    ensures s != ""
  {
    var digit := ['0' + (n % 10) as char];
    if n < 10 then digit else Itoa(n / 10) + digit
  }

  lemma {:induction false} ItoaDigits(n: nat)
    ensures forall c :: c in Itoa(n) ==> IsDigit(c)
  {
    if n >= 10 {
      ItoaDigits(n / 10);
    }
  }

  predicate IsDigit(c: char) {
    '0' <= c <= '9'
  }

  // ---------- What rebind produces, position by position ----------

  /** The quote that is open just before position i. */
  function QuoteAt(query: string, i: nat): char
    requires i <= |query|
  {
    if i == 0 then NONE else QuoteAfter(QuoteAt(query, i - 1), query[i - 1])
  }

  /** Position i holds a placeholder: a question mark outside quotes. */
  predicate Hole(query: string, i: nat)
    requires i < |query|
  {
    QuoteAt(query, i) == NONE && query[i] == '?'
  }

  /** The number of placeholders before position i. */
  function Holes(query: string, i: nat): nat
    requires i <= |query|
  {
    if i == 0 then 0 else Holes(query, i - 1) + if Hole(query, i - 1) then 1 else 0
  }

  /** The k-th placeholder becomes $k, everything else is kept. */
  function Piece(query: string, i: nat): string
    requires i < |query|
  {
    if Hole(query, i) then "$" + Itoa(Holes(query, i) + 1) else [query[i]]
  }

  function Pieces(query: string, i: nat): string
    requires i <= |query|
  {
    if i == 0 then "" else Pieces(query, i - 1) + Piece(query, i - 1)
  }

  lemma {:induction false} NothingToBind(query: string, i: nat)
    requires i <= |query| && '?' !in query
    ensures Pieces(query, i) == query[..i]
  {
    if i > 0 {
      NothingToBind(query, i - 1);
      assert query[..i] == query[..i - 1] + [query[i - 1]];
    }
  }

  lemma PiecesStep(query: string, i: nat)
    requires i < |query|
    ensures Pieces(query, 0) == "" && Holes(query, 0) == 0 && QuoteAt(query, 0) == NONE
    ensures Hole(query, i) ==> Pieces(query, i + 1) == Pieces(query, i) + "$" + Itoa(Holes(query, i) + 1)
    ensures !Hole(query, i) ==> Pieces(query, i + 1) == Pieces(query, i) + [query[i]]
    ensures Holes(query, i + 1) == Holes(query, i) + if Hole(query, i) then 1 else 0
    ensures QuoteAt(query, i + 1) == QuoteAfter(QuoteAt(query, i), query[i])
  {
    hide Itoa;
    assert Pieces(query, i + 1) == Pieces(query, i) + Piece(query, i);
    if Hole(query, i) {
      var number := Itoa(Holes(query, i) + 1);
      assert Pieces(query, i) + ("$" + number) == Pieces(query, i) + "$" + number;
    }
  }

  method RebindQuery(dialect: Dialect, query: string) returns (result: string)
    ensures result == if dialect == Postgres then Pieces(query, |query|) else query
  {
    if dialect != Postgres || '?' !in query {
      if dialect == Postgres {
        NothingToBind(query, |query|);
        assert query[..|query|] == query;
      }
      return query;
    }
    hide Pieces, Holes, QuoteAt, Itoa;
    PiecesStep(query, 0);
    result := "";
    var n := 0;
    var quote := NONE;
    for i := 0 to |query|
      invariant result == Pieces(query, i)
      invariant quote == QuoteAt(query, i)
      invariant n == Holes(query, i)
    {
      PiecesStep(query, i);
      var c := query[i];
      if quote != NONE {
        if c == quote {
          quote := NONE;
        }
      } else if c == '\'' || c == '"' {
        quote := c;
      } else if c == '?' {
        n := n + 1;
        result := result + "$" + Itoa(n);
        continue;
      }
      result := result + [c];
    }
  }

  // ---------- The same text, read from the left ----------

  function Numbered(s: string, quote: char, n: nat): string {
    if s == "" then ""
    else if quote == NONE && s[0] == '?' then "$" + Itoa(n + 1) + Numbered(s[1..], NONE, n + 1)
    else [s[0]] + Numbered(s[1..], QuoteAfter(quote, s[0]), n)
  }

  lemma {:induction false} PiecesAreNumbered(query: string, i: nat)
    requires i <= |query|
    ensures Pieces(query, i) + Numbered(query[i..], QuoteAt(query, i), Holes(query, i)) == Numbered(query, NONE, 0)
  {
    hide *;
    if i == 0 {
      AtTheStart(query);
      assert query[0..] == query && "" + Numbered(query, NONE, 0) == Numbered(query, NONE, 0);
    } else {
      PiecesAreNumbered(query, i - 1);
      var tail := Numbered(query[i..], QuoteAt(query, i), Holes(query, i));
      NumberedFrom(query, i - 1);
      PiecesFrom(query, i - 1);
      Regroup(Pieces(query, i - 1), Piece(query, i - 1), tail);
    }
  }

  lemma AtTheStart(query: string)
    ensures Pieces(query, 0) == "" && Holes(query, 0) == 0 && QuoteAt(query, 0) == NONE
  {
  }

  lemma PiecesFrom(query: string, i: nat)
    requires i < |query|
    ensures Pieces(query, i + 1) == Pieces(query, i) + Piece(query, i)
  {
    hide Piece;
  }

  /** Reading on from position i writes its piece first. */
  lemma NumberedFrom(query: string, i: nat)
    requires i < |query|
    ensures Numbered(query[i..], QuoteAt(query, i), Holes(query, i))
            == Piece(query, i) + Numbered(query[i + 1..], QuoteAt(query, i + 1), Holes(query, i + 1))
  {
    PiecesStep(query, i);
    hide Pieces, Holes, QuoteAt, Itoa;
    assert query[i..][0] == query[i] && query[i..][1..] == query[i + 1..];
  }

  lemma Regroup(a: string, b: string, c: string)
    ensures a + (b + c) == (a + b) + c
  {
  }

  // ---------- Recovering the query ----------

  predicate NoUnquotedDollar(s: string, quote: char) {
    s == "" || (!(quote == NONE && s[0] == '$') && NoUnquotedDollar(s[1..], QuoteAfter(quote, s[0])))
  }

  /** Maps the k-th numbered placeholder $k back to a question mark. */
  function Unnumbered(t: string, quote: char, n: nat): string
    decreases |t|
  {
    if t == "" then ""
    else if quote == NONE && t[0] == '$' && Itoa(n + 1) <= t[1..] then
      "?" + Unnumbered(t[1 + |Itoa(n + 1)|..], NONE, n + 1)
    else [t[0]] + Unnumbered(t[1..], QuoteAfter(quote, t[0]), n)
  }

  lemma {:induction false} UnnumberedUndoesNumbered(s: string, quote: char, n: nat)
    requires NoUnquotedDollar(s, quote)
    ensures Unnumbered(Numbered(s, quote, n), quote, n) == s
  {
    hide Itoa, IsDigit;
    if s != "" {
      var t := Numbered(s, quote, n);
      if quote == NONE && s[0] == '?' {
        UnnumberedUndoesNumbered(s[1..], NONE, n + 1);
        var number, rest := Itoa(n + 1), Numbered(s[1..], NONE, n + 1);
        assert t == "$" + number + rest;
        assert t[1..] == number + rest;
        assert t[1 + |number|..] == rest;
        assert t[0] == '$' && number <= t[1..];
        assert Unnumbered(t, NONE, n) == "?" + Unnumbered(rest, NONE, n + 1);
        assert s == "?" + s[1..];
      } else {
        UnnumberedUndoesNumbered(s[1..], QuoteAfter(quote, s[0]), n);
        assert t[1..] == Numbered(s[1..], QuoteAfter(quote, s[0]), n);
        assert s == [s[0]] + s[1..];
      }
    }
  }

  /** rebind loses nothing: the numbers lead back to the query. */
  lemma RebindIsInvertible(query: string)
    requires NoUnquotedDollar(query, NONE)
    ensures Unnumbered(Pieces(query, |query|), NONE, 0) == query
  {
    PiecesAreNumbered(query, |query|);
    assert Pieces(query, |query|) + "" == Pieces(query, |query|);
    UnnumberedUndoesNumbered(query, NONE, 0);
  }

  // ---------- How PostgreSQL reads the numbers ----------

  /** The length of the longest run of digits at the front. */
  function DigitRun(t: string): (d: nat)
    ensures d <= |t| && forall i :: 0 <= i < d ==> IsDigit(t[i])
    ensures d < |t| ==> !IsDigit(t[d])
  {
    if t == "" || !IsDigit(t[0]) then 0 else 1 + DigitRun(t[1..])
  }

  /** A lexer takes all digits after '$' as one parameter number. */
  function Lexed(t: string, quote: char): string
    decreases |t|
  {
    if t == "" then ""
    else if quote == NONE && t[0] == '$' && DigitRun(t[1..]) > 0 then
      "?" + Lexed(t[1 + DigitRun(t[1..])..], NONE)
    else [t[0]] + Lexed(t[1..], QuoteAfter(quote, t[0]))
  }

  predicate NoDigitAfterHole(s: string, quote: char) {
    s == ""
    || (!(quote == NONE && s[0] == '?' && DigitRun(s[1..]) > 0) && NoDigitAfterHole(s[1..], QuoteAfter(quote, s[0])))
  }

  lemma {:induction false} DigitsStay(s: string, d: nat, n: nat)
    requires d == DigitRun(s)
    ensures DigitRun(Numbered(s, NONE, n)) == d && Numbered(s, NONE, n)[d..] == Numbered(s[d..], NONE, n)
  {
    if d > 0 {
      DigitsStay(s[1..], d - 1, n);
      var t := Numbered(s, NONE, n);
      assert t[1..] == Numbered(s[1..], NONE, n);
      assert s[d..] == s[1..][d - 1..];
    } else {
      assert s[0..] == s;
    }
  }

  lemma {:induction false} DigitsThenRun(number: string, rest: string)
    requires forall c :: c in number ==> IsDigit(c)
    ensures DigitRun(number + rest) == |number| + DigitRun(rest)
  {
    if number == "" {
      assert number + rest == rest;
    } else {
      assert (number + rest)[1..] == number[1..] + rest;
      DigitsThenRun(number[1..], rest);
    }
  }

  lemma LexedNumber(number: string, rest: string)
    requires number != "" && forall c :: c in number ==> IsDigit(c)
    ensures Lexed("$" + (number + rest), NONE) == "?" + Lexed(rest[DigitRun(rest)..], NONE)
  {
    hide DigitRun, IsDigit, Lexed;
    var body := number + rest;
    DigitsThenRun(number, rest);
    var t := "$" + body;
    assert t[0] == '$' && t[1..] == body;
    LexedDollar(t);
    assert t[1 + DigitRun(body)..] == rest[DigitRun(rest)..];
  }

  lemma LexedDollar(t: string)
    requires t != "" && t[0] == '$' && DigitRun(t[1..]) > 0
    ensures Lexed(t, NONE) == "?" + Lexed(t[1 + DigitRun(t[1..])..], NONE)
  {
    hide DigitRun, IsDigit;
  }

  lemma LexedHole(s: string, n: nat)
    requires s != "" && s[0] == '?'
    ensures Lexed(Numbered(s, NONE, n), NONE) == "?" + Lexed(Numbered(s[1..][DigitRun(s[1..])..], NONE, n + 1), NONE)
  {
    var tail, number := s[1..], Itoa(n + 1);
    assert Numbered(s, NONE, n) == "$" + (number + Numbered(tail, NONE, n + 1));
    ItoaDigits(n + 1);
    LexedNumber(number, Numbered(tail, NONE, n + 1));
    DigitsStay(tail, DigitRun(tail), n + 1);
  }

  lemma {:induction false} LexedRecoversExactly(s: string, quote: char, n: nat)
    requires NoUnquotedDollar(s, quote)
    ensures |Lexed(Numbered(s, quote, n), quote)| <= |s|
    ensures Lexed(Numbered(s, quote, n), quote) == s <==> NoDigitAfterHole(s, quote)
    decreases |s|
  {
    if s != "" {
      var t := Numbered(s, quote, n);
      if quote == NONE && s[0] == '?' {
        var d := DigitRun(s[1..]);
        LexedHole(s, n);
        DollarFreeTail(s[1..], d);
        LexedRecoversExactly(s[1..][d..], NONE, n + 1);
        if d == 0 {
          assert s[1..][0..] == s[1..];
          assert s == "?" + s[1..];
        }
      } else {
        assert t[1..] == Numbered(s[1..], QuoteAfter(quote, s[0]), n);
        LexedRecoversExactly(s[1..], QuoteAfter(quote, s[0]), n);
        assert s == [s[0]] + s[1..];
      }
    }
  }

  lemma {:induction false} DollarFreeTail(s: string, d: nat)
    requires NoUnquotedDollar(s, NONE) && d <= DigitRun(s)
    ensures NoUnquotedDollar(s[d..], NONE)
  {
    if d == 0 {
      assert s[0..] == s;
    } else {
      DollarFreeTail(s[1..], d - 1);
      assert s[d..] == s[1..][d - 1..];
    }
  }

  /** A server that reads all digits after '$' sees the placeholders of the query exactly when
      no placeholder is directly followed by a digit. */
  lemma PostgresReadsPlaceholders(query: string)
    requires NoUnquotedDollar(query, NONE)
    ensures Lexed(Pieces(query, |query|), NONE) == query <==> NoDigitAfterHole(query, NONE)
  {
    PiecesAreNumbered(query, |query|);
    assert Pieces(query, |query|) + "" == Pieces(query, |query|);
    LexedRecoversExactly(query, NONE, 0);
  }

  /** For instance: the query ?1 turns into $11, which reads as the eleventh parameter. */
  lemma DigitsRunTogether()
    ensures Pieces("?1", 2) == "$11" && Lexed("$11", NONE) == "?" && !NoDigitAfterHole("?1", NONE)
  {
    assert Itoa(1) == "1" && Pieces("?1", 0) == "" && Pieces("?1", 1) == "$1";
    assert "$11"[1..] == "11" && "11"[1..] == "1" && "1"[1..] == "" && DigitRun("11") == 2;
    assert "$11"[3..] == "";
    assert "?1"[1..] == "1";
  }
}
