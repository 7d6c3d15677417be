/**
 The filter evaluator: an early-exit walk over conditions, and the for-all and
 exists meaning it computes. Values are compared as BSON orders them; regular
 expressions are the engine's.
 */
module DocQuery {
  import opened Common
  import opened Bson
  import opened DocUpdate
  import opened DocReach

  // ----- the evaluator -----

  /** The first value, or element of an array value, the test accepts decides. */
  function AnyValue(values: seq<Value>, test: Value -> bool): bool {
    values != [] &&
    (test(values[0]) || (values[0].Array? && AnyItem(values[0].items, test)) || AnyValue(values[1..], test))
  }

  function AnyItem(items: seq<Value>, test: Value -> bool): bool {
    items != [] && (test(items[0]) || AnyItem(items[1..], test))
  }

  function MatchValue(values: seq<Value>, wanted: Value): bool {
    (wanted == Null && values == []) || AnyValue(values, (v: Value) => Equal(v, wanted))
  }

  predicate IsOrdering(op: string) {
    op == "$gt" || op == "$gte" || op == "$lt" || op == "$lte"
  }

  predicate Accepts(op: string, order: int) {
    match op
    case "$gt" => order == 1
    case "$gte" => order == 0 || order == 1
    case "$lt" => order == -1
    case _ => order == -1 || order == 0
  }

  function MatchOrdering(values: seq<Value>, op: string, operand: Value): bool {
    AnyValue(values, (v: Value) => Rank(v) == Rank(operand) && Accepts(op, Compare(v, operand)))
  }

  predicate KnownFlags(options: string) {
    forall i :: 0 <= i < |options| ==> options[i] == 'i' || options[i] == 'm' || options[i] == 's'
  }

  /** The pattern and options an expression is compiled from. */
  function RegexParts(pattern: Value, flags: string): Outcome<(string, string)> {
    match pattern
    case Text(text) => Ok((text, flags))
    case Regex(text, options) => if flags != "" then Fail(BAD_VALUE) else Ok((text, options))
    case _ => Fail(TYPE_MISMATCH)
  }

  function Compile(e: Engine, pattern: Value, flags: string): Outcome<(string, string)> {
    match RegexParts(pattern, flags)
    case Fail(code) => Fail(code)
    case Ok(parts) =>
      if !KnownFlags(parts.1) then Fail(NOT_SUPPORTED)
      else if !e.compiles(parts.0, parts.1) then Fail(BAD_VALUE)
      else Ok(parts)
  }

  function MatchRegex(e: Engine, values: seq<Value>, pattern: Value, flags: string): Outcome<bool> {
    match Compile(e, pattern, flags)
    case Fail(code) => Fail(code)
    case Ok(parts) => Ok(AnyValue(values, (v: Value) => v.Text? && e.finds(parts.0, parts.1, v.text)))
  }

  function MatchMember(e: Engine, values: seq<Value>, wanted: Value): Outcome<bool> {
    if wanted.Regex? then MatchRegex(e, values, wanted, "") else Ok(MatchValue(values, wanted))
  }

  /** Whether any listed value is matched, stopping at the first. */
  function MatchAnyMember(e: Engine, values: seq<Value>, listed: seq<Value>): Outcome<bool> {
    if listed == [] then Ok(false)
    else
      match MatchMember(e, values, listed[0])
      case Fail(code) => Fail(code)
      case Ok(held) => if held then Ok(true) else MatchAnyMember(e, values, listed[1..])
  }

  function Negate(r: Outcome<bool>): Outcome<bool> {
    match r
    case Fail(code) => Fail(code)
    case Ok(held) => Ok(!held)
  }

  function MatchMembership(e: Engine, values: seq<Value>, op: string, operand: Value): Outcome<bool> {
    if !operand.Array? then Fail(BAD_VALUE)
    else if op == "$in" then MatchAnyMember(e, values, operand.items)
    else Negate(MatchAnyMember(e, values, operand.items))
  }

  function Flags(operators: Doc): string {
    match Lookup(operators, "$options")
    case Some(Text(flags)) => flags
    case _ => ""
  }

  function MatchOperator(e: Engine, values: seq<Value>, all: Doc, operator: Field): Outcome<bool>
    decreases operator.value, 1
  {
    var operand := operator.value;
    match operator.key
    case "$eq" => Ok(MatchValue(values, operand))
    case "$ne" => Ok(!MatchValue(values, operand))
    case "$gt" => Ok(MatchOrdering(values, "$gt", operand))
    case "$gte" => Ok(MatchOrdering(values, "$gte", operand))
    case "$lt" => Ok(MatchOrdering(values, "$lt", operand))
    case "$lte" => Ok(MatchOrdering(values, "$lte", operand))
    case "$in" => MatchMembership(e, values, "$in", operand)
    case "$nin" => MatchMembership(e, values, "$nin", operand)
    case "$exists" => if operand.Boolean? then Ok((|values| > 0) == operand.flag) else Fail(TYPE_MISMATCH)
    case "$regex" => MatchRegex(e, values, operand, Flags(all))
    case "$options" => if Lookup(all, "$regex").Some? then Ok(true) else Fail(BAD_VALUE)
    case "$not" =>
      if operand.Regex? then Negate(MatchRegex(e, values, operand, ""))
      else if OperatorDocument(operand) then Negate(MatchOperators(e, values, operand.fields, operand.fields))
      else Fail(BAD_VALUE)
    case _ => Fail(NOT_SUPPORTED)
  }

  function MatchOperators(e: Engine, values: seq<Value>, all: Doc, operators: Doc): Outcome<bool>
    decreases operators, 0
  {
    if operators == [] then Ok(true)
    else
      match MatchOperator(e, values, all, operators[0])
      case Fail(code) => Fail(code)
      case Ok(held) => if held then MatchOperators(e, values, all, operators[1..]) else Ok(false)
  }

  function Matches(e: Engine, d: Doc, filter: Doc): Outcome<bool>
    decreases filter, 0
  {
    if filter == [] then Ok(true)
    else
      match MatchCondition(e, d, filter[0])
      case Fail(code) => Fail(code)
      case Ok(held) => if held then Matches(e, d, filter[1..]) else Ok(false)
  }

  function MatchCondition(e: Engine, d: Doc, condition: Field): Outcome<bool>
    decreases condition.value, 2
  {
    var wanted := condition.value;
    if Dollar(condition.key) then MatchLogical(e, d, condition)
    else
      var values := ValuesAt(d, condition.key);
      if OperatorDocument(wanted) then MatchOperators(e, values, wanted.fields, wanted.fields)
      else if wanted.Regex? then MatchRegex(e, values, wanted, "")
      else Ok(MatchValue(values, wanted))
  }

  function MatchLogical(e: Engine, d: Doc, condition: Field): Outcome<bool>
    decreases condition.value, 1
  {
    if condition.key != "$and" && condition.key != "$or" then Fail(NOT_SUPPORTED)
    else if !condition.value.Array? || condition.value.items == [] then Fail(BAD_VALUE)
    else if exists i :: 0 <= i < |condition.value.items| && !condition.value.items[i].Document? then Fail(BAD_VALUE)
    else MatchBranches(e, d, condition.key == "$and", condition.value.items)
  }

  /** $and stops at the first branch that fails, $or at the first that holds. */
  function MatchBranches(e: Engine, d: Doc, conjunctive: bool, branches: seq<Value>): Outcome<bool>
    requires forall i :: 0 <= i < |branches| ==> branches[i].Document?
    decreases branches, 0
  {
    if branches == [] then Ok(conjunctive)
    else
      match Matches(e, d, branches[0].fields)
      case Fail(code) => Fail(code)
      case Ok(held) => if held != conjunctive then Ok(held) else MatchBranches(e, d, conjunctive, branches[1..])
  }

  // ----- the loops the program evaluates with -----

  method Any(values: seq<Value>, test: Value -> bool) returns (found: bool)
    ensures found == AnyValue(values, test)
  {
    for i := 0 to |values|
      invariant AnyValue(values[i..], test) == AnyValue(values, test)
    {
      assert values[i..][1..] == values[i + 1..];
      if test(values[i]) {
        return true;
      }
      if values[i].Array? {
        var items := values[i].items;
        for j := 0 to |items|
          invariant AnyItem(items[j..], test) == AnyItem(items, test)
        {
          assert items[j..][1..] == items[j + 1..];
          if test(items[j]) {
            return true;
          }
        }
      }
    }
    return false;
  }

  method Membership(e: Engine, values: seq<Value>, op: string, operand: Value) returns (r: Outcome<bool>)
    requires op == "$in" || op == "$nin"
    ensures r == MatchMembership(e, values, op, operand)
  {
    if !operand.Array? {
      return Fail(BAD_VALUE);
    }
    var listed := operand.items;
    for i := 0 to |listed|
      invariant MatchAnyMember(e, values, listed[i..]) == MatchAnyMember(e, values, listed)
    {
      assert listed[i..][1..] == listed[i + 1..];
      r := MatchMember(e, values, listed[i]);
      if r.Fail? {
        return;
      }
      if r.value {
        return Ok(op == "$in");
      }
    }
    return Ok(op == "$nin");
  }

  method Match(e: Engine, d: Doc, filter: Doc) returns (r: Outcome<bool>)
    ensures r == Matches(e, d, filter)
    decreases filter, 0
  {
    for i := 0 to |filter|
      invariant Matches(e, d, filter[i..]) == Matches(e, d, filter)
    {
      assert filter[i..][1..] == filter[i + 1..];
      if Dollar(filter[i].key) {
        r := Logical(e, d, filter[i]);
      } else {
        r := MatchCondition(e, d, filter[i]);
      }
      if r.Fail? || !r.value {
        return;
      }
    }
    return Ok(true);
  }

  method Logical(e: Engine, d: Doc, condition: Field) returns (r: Outcome<bool>)
    ensures r == MatchLogical(e, d, condition)
    decreases condition.value, 1
  {
    if condition.key != "$and" && condition.key != "$or" {
      return Fail(NOT_SUPPORTED);
    }
    if !condition.value.Array? || condition.value.items == [] {
      return Fail(BAD_VALUE);
    }
    var branches := condition.value.items;
    if exists i :: 0 <= i < |branches| && !branches[i].Document? {
      return Fail(BAD_VALUE);
    }
    var conjunctive := condition.key == "$and";
    for i := 0 to |branches|
      invariant MatchBranches(e, d, conjunctive, branches[i..]) == MatchBranches(e, d, conjunctive, branches)
    {
      assert branches[i..][1..] == branches[i + 1..];
      r := Match(e, d, branches[i].fields);
      if r.Fail? {
        return;
      }
      if r.value != conjunctive {
        return;
      }
    }
    return Ok(conjunctive);
  }

  // ----- what a filter means -----

  /** A value the path leads to, or an element of an array it leads to. */
  ghost predicate Within(values: iset<Value>, v: Value) {
    v in values || exists w :: w in values && w.Array? && v in w.items
  }

  ghost predicate MeansValue(values: iset<Value>, wanted: Value) {
    (wanted == Null && values == iset{}) || exists v :: Within(values, v) && Equal(v, wanted)
  }

  ghost predicate MeansOrdering(values: iset<Value>, op: string, operand: Value) {
    exists v :: Within(values, v) && Rank(v) == Rank(operand) && MeansOrder(op, Compare(v, operand))
  }

  ghost predicate MeansOrder(op: string, order: int) {
    match op
    case "$gt" => order > 0
    case "$gte" => order >= 0
    case "$lt" => order < 0
    case _ => order <= 0
  }

  /** The engine finds the expression in the text: one given as text goes with the flags, one of its own with its options. */
  ghost predicate FoundIn(e: Engine, pattern: Value, flags: string, text: string) {
    || (pattern.Text? && e.finds(pattern.text, flags, text))
    || (pattern.Regex? && e.finds(pattern.pattern, pattern.options, text))
  }

  ghost predicate MeansRegex(e: Engine, values: iset<Value>, pattern: Value, flags: string) {
    exists v :: Within(values, v) && v.Text? && FoundIn(e, pattern, flags, v.text)
  }

  /** The text of the `$options` beside a `$regex`, if there is one. */
  ghost function MeansFlags(operators: Doc): string {
    if exists v :: Holds(operators, "$options", v) && v.Text?
    then (var v :| Holds(operators, "$options", v) && v.Text?; v.text) else ""
  }

  ghost predicate MeansMember(e: Engine, values: iset<Value>, wanted: Value) {
    if wanted.Regex? then MeansRegex(e, values, wanted, "") else MeansValue(values, wanted)
  }

  ghost predicate MeansIn(e: Engine, values: iset<Value>, listed: seq<Value>) {
    exists w :: w in listed && MeansMember(e, values, w)
  }

  ghost predicate MeansOperator(e: Engine, values: iset<Value>, all: Doc, operator: Field)
    decreases operator.value, 1
  {
    var operand := operator.value;
    match operator.key
    case "$eq" => MeansValue(values, operand)
    case "$ne" => !MeansValue(values, operand)
    case "$in" => operand.Array? && MeansIn(e, values, operand.items)
    case "$nin" => operand.Array? && !MeansIn(e, values, operand.items)
    case "$exists" => operand.Boolean? && (values != iset{} <==> operand.flag)
    case "$regex" => MeansRegex(e, values, operand, MeansFlags(all))
    case "$options" => true
    case "$not" =>
      if operand.Regex? then !MeansRegex(e, values, operand, "")
      else operand.Document? && !MeansOperators(e, values, operand.fields, operand.fields)
    case op => IsOrdering(op) && MeansOrdering(values, op, operand)
  }

  ghost predicate MeansOperators(e: Engine, values: iset<Value>, all: Doc, operators: Doc)
    decreases operators, 0
  {
    forall i :: 0 <= i < |operators| ==> MeansOperator(e, values, all, operators[i])
  }

  ghost predicate Means(e: Engine, d: Doc, filter: Doc)
    decreases filter, 0
  {
    forall i :: 0 <= i < |filter| ==> MeansCondition(e, d, filter[i])
  }

  ghost predicate MeansCondition(e: Engine, d: Doc, condition: Field)
    decreases condition.value, 1
  {
    var wanted := condition.value;
    if StartsWithDollar(condition.key) then
      wanted.Array? &&
      if condition.key == "$and"
      then forall i :: 0 <= i < |wanted.items| ==> wanted.items[i].Document? && Means(e, d, wanted.items[i].fields)
      else exists i :: 0 <= i < |wanted.items| && wanted.items[i].Document? && Means(e, d, wanted.items[i].fields)
    else
      var values := Reached(d, condition.key);
      if wanted.Document? && wanted.fields != [] && StartsWithDollar(wanted.fields[0].key) then
        MeansOperators(e, values, wanted.fields, wanted.fields)
      else if wanted.Regex? then MeansRegex(e, values, wanted, "")
      else MeansValue(values, wanted)
  }

  ghost predicate StartsWithDollar(key: string) {
    exists rest :: key == "$" + rest
  }

  lemma DollarStarts(key: string)
    ensures Dollar(key) <==> StartsWithDollar(key)
  {
    if Dollar(key) {
      assert key == "$" + key[1..];
    }
  }

  lemma FlagsExact(operators: Doc)
    ensures Flags(operators) == MeansFlags(operators)
  {
    var held := Lookup(operators, "$options");
    if held.Some? {
      LookupHolds(operators, "$options", held.value);
    }
    forall v | Holds(operators, "$options", v) ensures held == Some(v) {
      LookupHolds(operators, "$options", v);
    }
  }

  // ----- filters every part of which is supported -----

  predicate SupportedMember(e: Engine, wanted: Value) {
    wanted.Regex? ==> Compile(e, wanted, "").Ok?
  }

  predicate SupportedOperator(e: Engine, all: Doc, operator: Field)
    decreases operator.value, 1
  {
    var operand := operator.value;
    match operator.key
    case "$eq" => true
    case "$ne" => true
    case "$in" => operand.Array? && forall i :: 0 <= i < |operand.items| ==> SupportedMember(e, operand.items[i])
    case "$nin" => operand.Array? && forall i :: 0 <= i < |operand.items| ==> SupportedMember(e, operand.items[i])
    case "$exists" => operand.Boolean?
    case "$regex" => Compile(e, operand, Flags(all)).Ok?
    case "$options" => Lookup(all, "$regex").Some?
    case "$not" =>
      if operand.Regex? then Compile(e, operand, "").Ok?
      else OperatorDocument(operand) && SupportedOperators(e, operand.fields, operand.fields)
    case op => IsOrdering(op)
  }

  predicate SupportedOperators(e: Engine, all: Doc, operators: Doc)
    decreases operators, 0
  {
    forall i :: 0 <= i < |operators| ==> SupportedOperator(e, all, operators[i])
  }

  predicate Supported(e: Engine, filter: Doc)
    decreases filter, 0
  {
    forall i :: 0 <= i < |filter| ==> SupportedCondition(e, filter[i])
  }

  predicate SupportedCondition(e: Engine, condition: Field)
    decreases condition.value, 1
  {
    var wanted := condition.value;
    if Dollar(condition.key) then
      && (condition.key == "$and" || condition.key == "$or")
      && wanted.Array? && wanted.items != []
      && forall i :: 0 <= i < |wanted.items| ==> wanted.items[i].Document? && Supported(e, wanted.items[i].fields)
    else if OperatorDocument(wanted) then SupportedOperators(e, wanted.fields, wanted.fields)
    else wanted.Regex? ==> Compile(e, wanted, "").Ok?
  }

  // ----- the evaluator computes the meaning -----

  lemma {:induction false} AnyItemExact(items: seq<Value>, test: Value -> bool)
    ensures AnyItem(items, test) <==> exists v :: v in items && test(v)
  {
    if items != [] {
      AnyItemExact(items[1..], test);
      assert items == [items[0]] + items[1..];
    }
  }

  lemma {:induction false} AnyValueExact(values: seq<Value>, test: Value -> bool)
    ensures AnyValue(values, test) <==> exists v :: Within(Contents(values), v) && test(v)
  {
    if values != [] {
      var head, rest := values[0], values[1..];
      AnyValueExact(rest, test);
      assert values == [head] + rest;
      if head.Array? {
        AnyItemExact(head.items, test);
      }
      forall v ensures Within(Contents(values), v) <==> v == head || (head.Array? && v in head.items) || Within(Contents(rest), v) {
        WithinCons(head, rest, v);
      }
    }
  }

  lemma WithinCons(head: Value, rest: seq<Value>, v: Value)
    ensures Within(Contents([head] + rest), v) <==> v == head || (head.Array? && v in head.items) || Within(Contents(rest), v)
  {
    var values := [head] + rest;
    if Within(Contents(rest), v) && v !in rest {
      var w :| w in rest && w.Array? && v in w.items;
      assert w in values;
    }
    if head.Array? && v in head.items {
      assert head in values;
    }
    assert v in values <==> v == head || v in rest;
  }

  lemma MatchValueExact(values: seq<Value>, wanted: Value)
    ensures MatchValue(values, wanted) <==> MeansValue(Contents(values), wanted)
  {
    AnyValueExact(values, (v: Value) => Equal(v, wanted));
  }

  /** Every comparison answers -1, 0 or 1. */
  lemma {:induction false} CompareIsSign(l: Value, r: Value)
    ensures IsSign(Compare(l, r))
    decreases l, 1
  {
    if Rank(l) == Rank(r) {
      match l
      case Text(a) => TextSigns(a, r.text);
      case Document(a) => FieldsIsSign(a, r.fields);
      case Array(a) => ItemsIsSign(a, r.items);
      case Binary(a) => TextSigns(a, r.data);
      case ObjectId(a) => TextSigns(a, r.id);
      case Regex(a, b) => TextSigns(a, r.pattern); TextSigns(b, r.options);
      case _ =>
    }
  }

  lemma {:induction false} FieldsIsSign(l: seq<Field>, r: seq<Field>)
    ensures IsSign(CompareFields(l, r))
    decreases l, 0
  {
    if l != [] && r != [] {
      TextSigns(l[0].key, r[0].key);
      CompareIsSign(l[0].value, r[0].value);
      FieldsIsSign(l[1..], r[1..]);
    }
  }

  lemma {:induction false} ItemsIsSign(l: seq<Value>, r: seq<Value>)
    ensures IsSign(CompareItems(l, r))
    decreases l, 0
  {
    if l != [] && r != [] {
      CompareIsSign(l[0], r[0]);
      ItemsIsSign(l[1..], r[1..]);
    }
  }

  lemma MatchOrderingExact(values: seq<Value>, op: string, operand: Value)
    requires IsOrdering(op)
    ensures MatchOrdering(values, op, operand) <==> MeansOrdering(Contents(values), op, operand)
  {
    AnyValueExact(values, (v: Value) => Rank(v) == Rank(operand) && Accepts(op, Compare(v, operand)));
    forall v: Value ensures Accepts(op, Compare(v, operand)) <==> MeansOrder(op, Compare(v, operand)) {
      CompareIsSign(v, operand);
    }
  }

  lemma MatchRegexExact(e: Engine, values: seq<Value>, pattern: Value, flags: string)
    requires Compile(e, pattern, flags).Ok?
    ensures MatchRegex(e, values, pattern, flags) == Ok(MeansRegex(e, Contents(values), pattern, flags))
  {
    var parts := Compile(e, pattern, flags).value;
    AnyValueExact(values, (v: Value) => v.Text? && e.finds(parts.0, parts.1, v.text));
  }

  lemma MatchMemberExact(e: Engine, values: seq<Value>, wanted: Value)
    requires SupportedMember(e, wanted)
    ensures MatchMember(e, values, wanted) == Ok(MeansMember(e, Contents(values), wanted))
  {
    if wanted.Regex? {
      MatchRegexExact(e, values, wanted, "");
    } else {
      MatchValueExact(values, wanted);
    }
  }

  lemma {:induction false} MatchAnyMemberExact(e: Engine, values: seq<Value>, listed: seq<Value>)
    requires forall i :: 0 <= i < |listed| ==> SupportedMember(e, listed[i])
    ensures MatchAnyMember(e, values, listed) == Ok(MeansIn(e, Contents(values), listed))
  {
    if listed != [] {
      MatchMemberExact(e, values, listed[0]);
      MatchAnyMemberExact(e, values, listed[1..]);
      assert listed == [listed[0]] + listed[1..];
    }
  }

  lemma {:induction false} MatchOperatorExact(e: Engine, values: seq<Value>, all: Doc, operator: Field)
    requires SupportedOperator(e, all, operator)
    ensures MatchOperator(e, values, all, operator) == Ok(MeansOperator(e, Contents(values), all, operator))
    decreases operator.value, 1
  {
    var operand := operator.value;
    match operator.key
    case "$eq" => MatchValueExact(values, operand);
    case "$ne" => MatchValueExact(values, operand);
    case "$gt" => MatchOrderingExact(values, "$gt", operand);
    case "$gte" => MatchOrderingExact(values, "$gte", operand);
    case "$lt" => MatchOrderingExact(values, "$lt", operand);
    case "$lte" => MatchOrderingExact(values, "$lte", operand);
    case "$in" => MatchAnyMemberExact(e, values, operand.items);
    case "$nin" => MatchAnyMemberExact(e, values, operand.items);
    case "$exists" => ContentsEmpty(values);
    case "$regex" => FlagsExact(all); MatchRegexExact(e, values, operand, Flags(all));
    case "$options" =>
    case "$not" =>
      if operand.Regex? {
        MatchRegexExact(e, values, operand, "");
      } else {
        MatchOperatorsExact(e, values, operand.fields, operand.fields);
      }
    case _ =>
  }

  lemma {:induction false} MatchOperatorsExact(e: Engine, values: seq<Value>, all: Doc, operators: Doc)
    requires SupportedOperators(e, all, operators)
    ensures MatchOperators(e, values, all, operators) == Ok(MeansOperators(e, Contents(values), all, operators))
    decreases operators, 0
  {
    if operators != [] {
      var rest := operators[1..];
      MatchOperatorExact(e, values, all, operators[0]);
      assert forall i :: 0 <= i < |rest| ==> rest[i] == operators[i + 1];
      MatchOperatorsExact(e, values, all, rest);
      MeansOperatorsCons(e, values, all, operators);
    }
  }

  lemma MeansOperatorsCons(e: Engine, values: seq<Value>, all: Doc, operators: Doc)
    requires operators != []
    ensures MeansOperators(e, Contents(values), all, operators) <==>
            MeansOperator(e, Contents(values), all, operators[0]) && MeansOperators(e, Contents(values), all, operators[1..])
  {
    var rest := operators[1..];
    assert forall i :: 0 <= i < |rest| ==> rest[i] == operators[i + 1];
    if MeansOperator(e, Contents(values), all, operators[0]) && MeansOperators(e, Contents(values), all, rest) {
      forall i | 0 <= i < |operators| ensures MeansOperator(e, Contents(values), all, operators[i]) {
        if i > 0 { assert rest[i - 1] == operators[i]; }
      }
    }
  }

  lemma MeansCons(e: Engine, d: Doc, filter: Doc)
    requires filter != []
    ensures Means(e, d, filter) <==> MeansCondition(e, d, filter[0]) && Means(e, d, filter[1..])
  {
    var rest := filter[1..];
    assert forall i :: 0 <= i < |rest| ==> rest[i] == filter[i + 1];
    if MeansCondition(e, d, filter[0]) && Means(e, d, rest) {
      forall i | 0 <= i < |filter| ensures MeansCondition(e, d, filter[i]) {
        if i > 0 { assert rest[i - 1] == filter[i]; }
      }
    }
  }

  /** For every supported filter the early-exit evaluator answers exactly what the filter means. */
  lemma {:induction false} MatchesExact(e: Engine, d: Doc, filter: Doc)
    requires Supported(e, filter)
    ensures Matches(e, d, filter) == Ok(Means(e, d, filter))
    decreases filter, 0
  {
    if filter != [] {
      var rest := filter[1..];
      MatchConditionExact(e, d, filter[0]);
      assert forall i :: 0 <= i < |rest| ==> rest[i] == filter[i + 1];
      MatchesExact(e, d, rest);
      MeansCons(e, d, filter);
    }
  }

  lemma {:induction false} MatchConditionExact(e: Engine, d: Doc, condition: Field)
    requires SupportedCondition(e, condition)
    ensures MatchCondition(e, d, condition) == Ok(MeansCondition(e, d, condition))
    decreases condition.value, 1
  {
    var wanted := condition.value;
    ValuesAtExact(d, condition.key);
    DollarStarts(condition.key);
    if wanted.Document? && wanted.fields != [] {
      DollarStarts(wanted.fields[0].key);
    }
    if Dollar(condition.key) {
      MatchBranchesExact(e, d, condition.key == "$and", wanted.items);
    } else if OperatorDocument(wanted) {
      MatchOperatorsExact(e, ValuesAt(d, condition.key), wanted.fields, wanted.fields);
    } else if wanted.Regex? {
      MatchRegexExact(e, ValuesAt(d, condition.key), wanted, "");
    } else {
      MatchValueExact(ValuesAt(d, condition.key), wanted);
    }
  }

  ghost predicate BranchMeans(e: Engine, d: Doc, branch: Value) {
    branch.Document? && Means(e, d, branch.fields)
  }

  lemma {:induction false} MatchBranchesExact(e: Engine, d: Doc, conjunctive: bool, branches: seq<Value>)
    requires forall i :: 0 <= i < |branches| ==> branches[i].Document? && Supported(e, branches[i].fields)
    ensures MatchBranches(e, d, conjunctive, branches) ==
            Ok(if conjunctive then forall i :: 0 <= i < |branches| ==> BranchMeans(e, d, branches[i])
               else exists i :: 0 <= i < |branches| && BranchMeans(e, d, branches[i]))
    decreases branches, 0
  {
    if branches != [] {
      var rest := branches[1..];
      MatchesExact(e, d, branches[0].fields);
      assert forall i :: 0 <= i < |rest| ==> rest[i] == branches[i + 1];
      MatchBranchesExact(e, d, conjunctive, rest);
      if conjunctive && BranchMeans(e, d, branches[0]) && (forall i :: 0 <= i < |rest| ==> BranchMeans(e, d, rest[i])) {
        forall i | 0 <= i < |branches| ensures BranchMeans(e, d, branches[i]) {
          if i > 0 { assert rest[i - 1] == branches[i]; }
        }
      }
      if !conjunctive && (exists i :: 0 <= i < |branches| && BranchMeans(e, d, branches[i])) && !BranchMeans(e, d, branches[0]) {
        var i :| 0 <= i < |branches| && BranchMeans(e, d, branches[i]);
        assert BranchMeans(e, d, rest[i - 1]);
      }
      if exists i :: 0 <= i < |rest| && BranchMeans(e, d, rest[i]) {
        var i :| 0 <= i < |rest| && BranchMeans(e, d, rest[i]);
        assert BranchMeans(e, d, branches[i + 1]);
      }
    }
  }

  // ----- complements -----

  /** `$gte` is `$gt` or `$eq` except for null asked of a path that reaches nothing. */
  lemma GteExactly(values: seq<Value>, operand: Value)
    ensures (MatchOrdering(values, "$gte", operand) <==>
             MatchOrdering(values, "$gt", operand) || MatchValue(values, operand))
            <==> !(operand == Null && values == [])
  {
    ContentsEmpty(values);
    MatchOrderingExact(values, "$gte", operand);
    MatchOrderingExact(values, "$gt", operand);
    MatchValueExact(values, operand);
    if values == [] {
      assert forall v :: !Within(Contents(values), v);
    } else {
      if MeansOrdering(Contents(values), "$gte", operand) && !MeansOrdering(Contents(values), "$gt", operand) {
        var v :| Within(Contents(values), v) && Rank(v) == Rank(operand) && MeansOrder("$gte", Compare(v, operand));
        assert Equal(v, operand);
      }
      if MeansValue(Contents(values), operand) {
        var v :| Within(Contents(values), v) && Equal(v, operand);
        assert MeansOrder("$gte", Compare(v, operand));
      }
      if MeansOrdering(Contents(values), "$gt", operand) {
        var v :| Within(Contents(values), v) && Rank(v) == Rank(operand) && MeansOrder("$gt", Compare(v, operand));
        assert MeansOrder("$gte", Compare(v, operand));
      }
    }
  }

  /** `$ne`, `$nin` and `$not` answer the opposite of what they negate, or fail with it. */
  lemma Complements(e: Engine, values: seq<Value>, all: Doc, v: Value)
    ensures MatchOperator(e, values, all, Field("$ne", v)) == Negate(MatchOperator(e, values, all, Field("$eq", v)))
    ensures MatchOperator(e, values, all, Field("$nin", v)) == Negate(MatchOperator(e, values, all, Field("$in", v)))
    ensures OperatorDocument(v) ==>
              MatchOperator(e, values, all, Field("$not", v)) == Negate(MatchOperators(e, values, v.fields, v.fields))
  {
  }

  // ----- what a condition is refused for -----

  /** An operator there is not, and an operand of the wrong kind, are refused with MongoDB's codes, whatever the values. */
  lemma OperatorRefused(e: Engine, values: seq<Value>, all: Doc, operator: Field)
    ensures var r := MatchOperator(e, values, all, operator);
            var v := operator.value;
            && (operator.key !in {"$eq", "$ne", "$gt", "$gte", "$lt", "$lte", "$in", "$nin", "$exists", "$regex", "$options", "$not"} ==> r == Fail(115))
            && (operator.key in {"$in", "$nin"} && !v.Array? ==> r == Fail(2))
            && (operator.key == "$exists" && !v.Boolean? ==> r == Fail(14))
            && (operator.key == "$options" && (forall i :: 0 <= i < |all| ==> all[i].key != "$regex") ==> r == Fail(2))
            && (operator.key == "$not" && !v.Regex? && !(v.Document? && v.fields != [] && StartsWithDollar(v.fields[0].key)) ==> r == Fail(2))
  {
    if operator.value.Document? && operator.value.fields != [] {
      DollarStarts(operator.value.fields[0].key);
    }
    if Lookup(all, "$regex").Some? {
      LookupHolds(all, "$regex", Lookup(all, "$regex").value);
    }
  }

  /** A top-level operator other than `$and` and `$or` is refused, and so is one of those without branches, or with a branch that is no document. */
  lemma LogicalRefused(e: Engine, d: Doc, condition: Field)
    requires StartsWithDollar(condition.key)
    ensures var r := MatchCondition(e, d, condition);
            && (condition.key != "$and" && condition.key != "$or" ==> r == Fail(115))
            && (condition.key in {"$and", "$or"} && !condition.value.Array? ==> r == Fail(2))
            && (condition.key in {"$and", "$or"} && condition.value == Array([]) ==> r == Fail(2))
            && (condition.key in {"$and", "$or"} && condition.value.Array? && (exists v :: v in condition.value.items && !v.Document?) ==> r == Fail(2))
  {
    DollarStarts(condition.key);
  }

  /** An expression is refused for being neither text nor a regex, for options given twice or unknown, or for not compiling. */
  lemma RegexRefused(e: Engine, values: seq<Value>, pattern: Value, flags: string)
    ensures var r := MatchRegex(e, values, pattern, flags);
            && (!pattern.Text? && !pattern.Regex? ==> r == Fail(14))
            && (pattern.Regex? && flags != "" ==> r == Fail(2))
            && (pattern.Text? && (exists c :: c in flags && c !in {'i', 'm', 's'}) ==> r == Fail(115))
            && (pattern.Text? && (forall c :: c in flags ==> c in {'i', 'm', 's'}) && !e.compiles(pattern.text, flags) ==> r == Fail(2))
  {
    if forall c :: c in flags ==> c in {'i', 'm', 's'} {
      assert forall i :: 0 <= i < |flags| ==> flags[i] in flags;
      assert KnownFlags(flags);
    }
  }
}
