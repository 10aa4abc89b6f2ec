/** The SQL form of token filters (store/sql/tokens.go, tokenWhere; store/sql/store.go, encTime),
    against the predicate of the memory store. */
module TokenWhere {
  import opened Identity

  // ---------- Stored times ----------

  const TWO_63: int := 0x8000_0000_0000_0000

  /** The zero time of Go, 0001-01-01 UTC. */
  const ZERO_TIME: Time := -62_135_596_800 * SECOND

  /** Times whose nanosecond count fits an int64: the years 1678 to 2262. */
  predicate Representable(t: Time) {
    -TWO_63 <= t < TWO_63
  }

  function EncTime(t: Time): (n: int)
    requires t == ZERO_TIME || Representable(t)
  {
    if t == ZERO_TIME then 0 else t
  }

  function DecTime(n: int): Time {
    if n == 0 then ZERO_TIME else n
  }

  /** Every storable time survives a round trip, except the epoch itself. */
  lemma TimeRoundTrip(t: Time)
    requires t == ZERO_TIME || Representable(t)
    ensures DecTime(EncTime(t)) == t <==> t != 0
  {
  }

  /** Comparing stored times agrees with comparing times, except that the zero time is stored
      among the times after it. */
  lemma StoredOrderAgrees(t: Time, bound: Time)
    requires t == ZERO_TIME || Representable(t)
    requires bound == ZERO_TIME || Representable(bound)
    ensures (EncTime(t) <= EncTime(bound)) == (t <= bound) <==> OrderAgrees(t, bound)
  {
  }

  // ---------- The where clause and its meaning ----------

  datatype Arg = Text(text: string) | Number(number: int)

  /** A token row, as stored. */
  datatype Row = Row(clientId: string, userId: string, codeId: string, expiresAt: int)

  const CLIENT_CONDITION := "client_id = ?"
  const USER_CONDITION := "user_id = ?"
  const CODE_CONDITION := "authorization_code_id = ?"
  const EXPIRY_CONDITION := "expires_at <= ?"
  const WHERE := " WHERE "
  const AND := " AND "

  /** One condition with its argument; None for text that is not one of the known conditions or
      for an argument of the wrong type. */
  function EvalCondition(condition: string, arg: Arg, row: Row): Option<bool> {
    if condition == CLIENT_CONDITION && arg.Text? then Some(row.clientId == arg.text)
    else if condition == USER_CONDITION && arg.Text? then Some(row.userId == arg.text)
    else if condition == CODE_CONDITION && arg.Text? then Some(row.codeId == arg.text)
    else if condition == EXPIRY_CONDITION && arg.Number? then Some(row.expiresAt <= arg.number)
    else None
  }

  /** The position of the first " AND " in the text, or its length. */
  function FirstAnd(text: string): (i: nat)
    ensures i <= |text|
    ensures i < |text| ==> AND <= text[i..]
  {
    if text == "" || AND <= text then 0 else 1 + FirstAnd(text[1..])
  }

  /** A conjunction: each condition consumes one argument, and all arguments must be used up. */
  function EvalConjunction(text: string, args: seq<Arg>, eval: (string, Arg) -> Option<bool>): Option<bool>
    decreases |text|
  {
    if args == [] then None
    else
      var i := FirstAnd(text);
      var first := eval(text[..i], args[0]);
      if i == |text| then (if |args| == 1 then first else None)
      else
        var rest := EvalConjunction(text[i + |AND|..], args[1..], eval);
        if first.None? || rest.None? then None else Some(first.value && rest.value)
  }

  function EvalWhere(where: string, args: seq<Arg>, row: Row): Option<bool> {
    if where == "" then (if args == [] then Some(true) else None)
    else if WHERE <= where then
      EvalConjunction(where[|WHERE|..], args, (condition, arg) => EvalCondition(condition, arg, row))
    else None
  }

  /** strings.Join(conditions, " AND ") */
  function JoinAnd(conditions: seq<string>): string {
    if |conditions| == 0 then ""
    else if |conditions| == 1 then conditions[0]
    else conditions[0] + AND + JoinAnd(conditions[1..])
  }

  // ---------- Building and reading conjunctions ----------

  /** A condition that cannot be confused with the separator. */
  predicate Plain(condition: string) {
    condition != "" && 'A' !in condition && condition[|condition| - 1] != ' '
  }

  /** Conditions and arguments are aligned, and each condition has a value. */
  predicate Aligned(conditions: seq<string>, args: seq<Arg>, eval: (string, Arg) -> Option<bool>) {
    && |conditions| == |args|
    && forall k :: 0 <= k < |conditions| ==> Plain(conditions[k]) && eval(conditions[k], args[k]).Some?
  }

  predicate AllHold(conditions: seq<string>, args: seq<Arg>, eval: (string, Arg) -> Option<bool>)
    requires |conditions| == |args|
  {
    |conditions| == 0
    || (eval(conditions[0], args[0]) == Some(true) && AllHold(conditions[1..], args[1..], eval))
  }

  lemma {:induction false} NoAndInside(c: string, tail: string)
    requires 'A' !in c && (c == "" || c[|c| - 1] != ' ')
    requires tail == "" || AND <= tail
    ensures FirstAnd(c + tail) == |c|
  {
    if c == "" {
      assert c + tail == tail;
    } else {
      var t := c + tail;
      assert t[0] == c[0];
      if |c| == 1 {
        assert c[0] != ' ';
      } else {
        assert t[1] == c[1] && c[1] in c;
      }
      assert !(AND <= t);
      assert t[1..] == c[1..] + tail;
      NoAndInside(c[1..], tail);
    }
  }

  lemma FirstCondition(c: string, rest: string, args: seq<Arg>, eval: (string, Arg) -> Option<bool>)
    requires Plain(c) && |args| > 0 && eval(c, args[0]).Some?
    ensures EvalConjunction(c, args[..1], eval) == eval(c, args[0])
    ensures EvalConjunction(c + (AND + rest), args, eval)
         == var tail := EvalConjunction(rest, args[1..], eval);
            if tail.None? then None else Some(eval(c, args[0]).value && tail.value)
  {
    hide FirstAnd;
    assert FirstAnd(c) == |c| by {
      NoAndInside(c, "");
      assert c + "" == c;
    }
    assert c[..|c|] == c;
    var text := c + (AND + rest);
    NoAndInside(c, AND + rest);
    assert text[..|c|] == c && text[|c| + |AND|..] == rest;
  }

  lemma {:induction false} JoinedConditionsHold(conditions: seq<string>, args: seq<Arg>,
      eval: (string, Arg) -> Option<bool>)
    requires |conditions| > 0 && Aligned(conditions, args, eval)
    ensures EvalConjunction(JoinAnd(conditions), args, eval) == Some(AllHold(conditions, args, eval))
  {
    hide FirstAnd, EvalConjunction, Plain;
    var c := conditions[0];
    assert Plain(c);
    if |conditions| == 1 {
      FirstCondition(c, "", args, eval);
      assert args[..1] == args && JoinAnd(conditions) == c;
      assert EvalConjunction(c, args, eval) == eval(c, args[0]);
      assert AllHold(conditions, args, eval) == (eval(c, args[0]) == Some(true));
    } else {
      var rest := JoinAnd(conditions[1..]);
      FirstCondition(c, rest, args, eval);
      assert JoinAnd(conditions) == c + (AND + rest);
      JoinedConditionsHold(conditions[1..], args[1..], eval);
    }
  }

  lemma {:induction false} AppendCondition(conditions: seq<string>, args: seq<Arg>,
      eval: (string, Arg) -> Option<bool>, c: string, a: Arg)
    requires |conditions| == |args|
    ensures AllHold(conditions + [c], args + [a], eval) == (AllHold(conditions, args, eval) && eval(c, a) == Some(true))
  {
    var cs, xs := conditions + [c], args + [a];
    if |conditions| == 0 {
      assert cs[1..] == [] && xs[1..] == [];
    } else {
      assert cs[1..] == conditions[1..] + [c] && xs[1..] == args[1..] + [a];
      AppendCondition(conditions[1..], args[1..], eval, c, a);
    }
  }

  // ---------- tokenWhere ----------

  predicate StorableFilter(f: TokenFilter) {
    f.expiredBefore.Some? ==> f.expiredBefore.value == ZERO_TIME || Representable(f.expiredBefore.value)
  }

  /** The filter on stored values. */
  predicate MatchStored(f: TokenFilter, row: Row)
    requires StorableFilter(f)
  {
    && (f.clientId != "" ==> row.clientId == f.clientId)
    && (f.userId != "" ==> row.userId == f.userId)
    && (f.codeId != "" ==> row.codeId == f.codeId)
    && (f.expiredBefore.Some? ==> row.expiresAt <= EncTime(f.expiredBefore.value))
  }

  function RowEval(row: Row): (string, Arg) -> Option<bool> {
    (condition, arg) => EvalCondition(condition, arg, row)
  }

  /** One step of building the clause: the conditions so far accept exactly the rows that the
      fields read so far (the filter f) accept. */
  ghost predicate Built(f: TokenFilter, conditions: seq<string>, args: seq<Arg>, row: Row)
    requires StorableFilter(f)
  {
    Aligned(conditions, args, RowEval(row)) && AllHold(conditions, args, RowEval(row)) == MatchStored(f, row)
  }

  ghost predicate BuiltForAll(f: TokenFilter, conditions: seq<string>, args: seq<Arg>)
    requires StorableFilter(f)
  {
    |conditions| == |args| && forall row: Row :: Built(f, conditions, args, row)
  }

  lemma BuiltStep(f: TokenFilter, conditions: seq<string>, args: seq<Arg>, c: string, a: Arg, g: TokenFilter)
    requires StorableFilter(f) && StorableFilter(g) && BuiltForAll(f, conditions, args) && Plain(c)
    requires forall row :: EvalCondition(c, a, row).Some?
                           && MatchStored(g, row) == (MatchStored(f, row) && EvalCondition(c, a, row).value)
    ensures BuiltForAll(g, conditions + [c], args + [a])
  {
    forall row: Row ensures Built(g, conditions + [c], args + [a], row) {
      assert Built(f, conditions, args, row) && EvalCondition(c, a, row).Some?;
      AppendCondition(conditions, args, RowEval(row), c, a);
    }
  }

  lemma BuiltClause(f: TokenFilter, conditions: seq<string>, args: seq<Arg>, row: Row)
    requires StorableFilter(f) && BuiltForAll(f, conditions, args)
    ensures EvalWhere(if conditions == [] then "" else WHERE + JoinAnd(conditions), args, row)
            == Some(MatchStored(f, row))
  {
    assert Built(f, conditions, args, row);
    if conditions != [] {
      assert (WHERE + JoinAnd(conditions))[|WHERE|..] == JoinAnd(conditions);
      JoinedConditionsHold(conditions, args, RowEval(row));
    }
  }

  /** The clause and its arguments accept a row exactly when its stored values match the filter. */
  method TokenWhereClause(filter: TokenFilter) returns (where: string, args: seq<Arg>)
    requires StorableFilter(filter)
    ensures forall row: Row :: EvalWhere(where, args, row) == Some(MatchStored(filter, row))
  {
    hide EvalWhere, BuiltForAll, JoinAnd;
    var conditions: seq<string> := [];
    args := [];
    ghost var f0, f1 := NO_FILTER, NO_FILTER.(clientId := filter.clientId);
    ghost var f2 := f1.(userId := filter.userId);
    ghost var f3 := f2.(codeId := filter.codeId);
    NothingBuilt();
    if filter.clientId != "" {
      BuiltStep(f0, conditions, args, CLIENT_CONDITION, Text(filter.clientId), f1);
      conditions := conditions + [CLIENT_CONDITION];
      args := args + [Text(filter.clientId)];
    }
    assert BuiltForAll(f1, conditions, args);
    if filter.userId != "" {
      BuiltStep(f1, conditions, args, USER_CONDITION, Text(filter.userId), f2);
      conditions := conditions + [USER_CONDITION];
      args := args + [Text(filter.userId)];
    }
    assert BuiltForAll(f2, conditions, args);
    if filter.codeId != "" {
      BuiltStep(f2, conditions, args, CODE_CONDITION, Text(filter.codeId), f3);
      conditions := conditions + [CODE_CONDITION];
      args := args + [Text(filter.codeId)];
    }
    assert BuiltForAll(f3, conditions, args);
    if filter.expiredBefore.Some? {
      BuiltStep(f3, conditions, args, EXPIRY_CONDITION, Number(EncTime(filter.expiredBefore.value)), filter);
      conditions := conditions + [EXPIRY_CONDITION];
      args := args + [Number(EncTime(filter.expiredBefore.value))];
    }
    assert BuiltForAll(filter, conditions, args);
    where := if |conditions| == 0 then "" else WHERE + JoinAnd(conditions);
    forall row: Row ensures EvalWhere(where, args, row) == Some(MatchStored(filter, row)) {
      BuiltClause(filter, conditions, args, row);
    }
  }

  lemma NothingBuilt()
    ensures BuiltForAll(NO_FILTER, [], [])
  {
    assert forall row :: Built(NO_FILTER, [], [], row);
  }

  /** The side condition of StoredOrderAgrees; it holds for all times after the epoch. */
  predicate OrderAgrees(t: Time, bound: Time) {
    && (t == ZERO_TIME && bound != ZERO_TIME ==> bound >= 0)
    && (bound == ZERO_TIME && t != ZERO_TIME ==> t > 0)
  }

  lemma StoredFieldsAgree(f: TokenFilter, clientId: string, userId: string, codeId: string, expiresAt: Time)
    requires StorableFilter(f) && (expiresAt == ZERO_TIME || Representable(expiresAt))
    requires f.expiredBefore.Some? ==> OrderAgrees(expiresAt, f.expiredBefore.value)
    ensures MatchStored(f, Row(clientId, userId, codeId, EncTime(expiresAt)))
            == MatchToken(f, clientId, userId, codeId, expiresAt)
  {
    if f.expiredBefore.Some? {
      StoredOrderAgrees(expiresAt, f.expiredBefore.value);
    }
  }

  /** On stored rows the filter decides exactly what the memory store decides on the tokens. */
  lemma StoredFilterAgrees(f: TokenFilter, t: AccessToken, r: RefreshToken)
    requires StorableFilter(f)
    requires t.expiresAt == ZERO_TIME || Representable(t.expiresAt)
    requires r.expiresAt == ZERO_TIME || Representable(r.expiresAt)
    requires f.expiredBefore.Some? ==> OrderAgrees(t.expiresAt, f.expiredBefore.value)
    requires f.expiredBefore.Some? ==> OrderAgrees(r.expiresAt, f.expiredBefore.value)
    ensures MatchStored(f, Row(t.clientId, t.userId, t.codeId, EncTime(t.expiresAt))) == MatchAccess(f, t)
    ensures MatchStored(f, Row(r.clientId, r.userId, r.codeId, EncTime(r.expiresAt))) == MatchRefresh(f, r)
  {
    StoredFieldsAgree(f, t.clientId, t.userId, t.codeId, t.expiresAt);
    StoredFieldsAgree(f, r.clientId, r.userId, r.codeId, r.expiresAt);
  }
}
