/**
 What an update makes of a document: dotted paths read and written, the three
 update operators, replacement, and the document an upsert creates.
 */
module DocUpdate {
  import opened Common
  import opened Bson
  import Routing

  type Doc = seq<Field>
  type Path = p: seq<string> | |p| >= 1 witness [""]

  datatype Outcome<+T> = Ok(value: T) | Fail(code: int)

  const BAD_VALUE := 2
  const FAILED_TO_PARSE := 9
  const TYPE_MISMATCH := 14
  const NOT_SUPPORTED := 115

  const ID := "_id"

  /** A float64 that is a number. */
  type Ordered = f: Float | !f.NaN? witness PosInf

  /**
   What the libraries underneath decide: how the sum of two finite floats and the
   conversion of an integer are rounded, and regular expressions.
   */
  datatype Engine = Engine(
    add: (real, real) -> Ordered,
    float: int -> real,
    compiles: (string, string) -> bool,
    finds: (string, string, string) -> bool)

  function PathOf(text: string): Path {
    Routing.Split(text)
  }

  // ----- fields -----

  function Lookup(d: Doc, key: string): Option<Value> {
    if d == [] then None else if d[0].key == key then Some(d[0].value) else Lookup(d[1..], key)
  }

  /** Replaces the first field of the name where it is, or appends one. */
  function WithField(d: Doc, key: string, v: Value): Doc {
    if d == [] then [Field(key, v)]
    else if d[0].key == key then [Field(key, v)] + d[1..]
    else [d[0]] + WithField(d[1..], key, v)
  }

  function Without(d: Doc, key: string): Doc {
    if d == [] then []
    else if d[0].key == key then Without(d[1..], key)
    else [d[0]] + Without(d[1..], key)
  }

  function Keys(d: Doc): seq<string> {
    if d == [] then [] else [d[0].key] + Keys(d[1..])
  }

  // ----- paths -----

  function ValueAt(d: Doc, p: Path): Option<Value>
    decreases |p|
  {
    match Lookup(d, p[0])
    case None => None
    case Some(v) =>
      if |p| == 1 then Some(v)
      else if v.Document? then ValueAt(v.fields, p[1..])
      else None
  }

  function SetPath(d: Doc, p: Path, v: Value): Outcome<Doc>
    decreases |p|
  {
    if |p| == 1 then Ok(WithField(d, p[0], v))
    else
      var held := Lookup(d, p[0]);
      if held.Some? && !held.value.Document? then Fail(BAD_VALUE)
      else
        match SetPath(if held.Some? then held.value.fields else [], p[1..], v)
        case Fail(code) => Fail(code)
        case Ok(updated) => Ok(WithField(d, p[0], Document(updated)))
  }

  function UnsetPath(d: Doc, p: Path): Doc
    decreases |p|
  {
    if |p| == 1 then Without(d, p[0])
    else
      match Lookup(d, p[0])
      case None => d
      case Some(held) =>
        if held.Document? then WithField(d, p[0], Document(UnsetPath(held.fields, p[1..]))) else d
  }

  // ----- field laws -----

  lemma {:induction false} WithFieldLookup(d: Doc, key: string, v: Value, other: string)
    ensures Lookup(WithField(d, key, v), other) == if other == key then Some(v) else Lookup(d, other)
  {
    if d != [] && d[0].key != key {
      WithFieldLookup(d[1..], key, v, other);
    }
  }

  lemma {:induction false} WithoutLookup(d: Doc, key: string, other: string)
    ensures Lookup(Without(d, key), other) == if other == key then None else Lookup(d, other)
  {
    if d != [] { WithoutLookup(d[1..], key, other); }
  }

  lemma {:induction false} WithFieldSame(d: Doc, key: string, v: Value)
    requires Lookup(d, key) == Some(v)
    ensures WithField(d, key, v) == d
  {
    if d[0].key == key {
      assert d == [Field(key, v)] + d[1..];
    } else {
      WithFieldSame(d[1..], key, v);
    }
  }

  lemma {:induction false} WithFieldKeys(d: Doc, key: string, v: Value)
    ensures Keys(WithField(d, key, v)) == if Lookup(d, key).Some? then Keys(d) else Keys(d) + [key]
  {
    if d != [] && d[0].key != key {
      WithFieldKeys(d[1..], key, v);
      assert ([d[0]] + WithField(d[1..], key, v))[1..] == WithField(d[1..], key, v);
    }
  }

  // ----- path laws -----

  predicate Related(p: Path, q: Path) {
    p <= q || q <= p
  }

  lemma RelatedTails(p: Path, q: Path)
    requires |p| > 1 && |q| > 1 && p[0] == q[0]
    ensures Related(p, q) <==> Related(p[1..], q[1..])
  {
    assert p == [p[0]] + p[1..] && q == [q[0]] + q[1..];
  }

  lemma RelatedHead(p: Path, q: Path)
    requires |p| == 1 || |q| == 1
    ensures Related(p, q) <==> p[0] == q[0]
  {
  }

  /** Reading a path after setting it gives the value. */
  lemma {:induction false} SetThenRead(d: Doc, p: Path, v: Value)
    requires SetPath(d, p, v).Ok?
    ensures ValueAt(SetPath(d, p, v).value, p) == Some(v)
    decreases |p|
  {
    if |p| == 1 {
      WithFieldLookup(d, p[0], v, p[0]);
    } else {
      var held := Lookup(d, p[0]);
      var inner := if held.Some? then held.value.fields else [];
      SetThenRead(inner, p[1..], v);
      WithFieldLookup(d, p[0], Document(SetPath(inner, p[1..], v).value), p[0]);
    }
  }

  /** Nothing is found below a field that is not there. */
  lemma EmptyHasNothing(p: Path)
    ensures ValueAt([], p) == None
  {
  }

  /** A set leaves every path it is not above or below alone. */
  lemma {:induction false} SetElsewhere(d: Doc, p: Path, v: Value, q: Path)
    requires SetPath(d, p, v).Ok? && !Related(p, q)
    ensures ValueAt(SetPath(d, p, v).value, q) == ValueAt(d, q)
    decreases |p|
  {
    if |p| == 1 {
      RelatedHead(p, q);
      WithFieldLookup(d, p[0], v, q[0]);
    } else {
      var held := Lookup(d, p[0]);
      var inner := if held.Some? then held.value.fields else [];
      WithFieldLookup(d, p[0], Document(SetPath(inner, p[1..], v).value), q[0]);
      if |q| == 1 {
        RelatedHead(p, q);
      } else if p[0] == q[0] {
        RelatedTails(p, q);
        SetElsewhere(inner, p[1..], v, q[1..]);
        EmptyHasNothing(q[1..]);
      }
    }
  }

  /** After an unset the path reads as absent. */
  lemma {:induction false} UnsetThenRead(d: Doc, p: Path)
    ensures ValueAt(UnsetPath(d, p), p) == None
    decreases |p|
  {
    if |p| == 1 {
      WithoutLookup(d, p[0], p[0]);
    } else {
      var held := Lookup(d, p[0]);
      if held.Some? && held.value.Document? {
        UnsetThenRead(held.value.fields, p[1..]);
        WithFieldLookup(d, p[0], Document(UnsetPath(held.value.fields, p[1..])), p[0]);
      }
    }
  }

  lemma {:induction false} UnsetElsewhere(d: Doc, p: Path, q: Path)
    requires !Related(p, q)
    ensures ValueAt(UnsetPath(d, p), q) == ValueAt(d, q)
    decreases |p|
  {
    if |p| == 1 {
      RelatedHead(p, q);
      WithoutLookup(d, p[0], q[0]);
    } else {
      var held := Lookup(d, p[0]);
      if held.Some? && held.value.Document? {
        WithFieldLookup(d, p[0], Document(UnsetPath(held.value.fields, p[1..])), q[0]);
        if |q| == 1 {
          RelatedHead(p, q);
        } else if p[0] == q[0] {
          RelatedTails(p, q);
          UnsetElsewhere(held.value.fields, p[1..], q[1..]);
        }
      }
    }
  }

  /** A set keeps the fields a document has in their order, and at most appends one. */
  lemma SetKeepsOrder(d: Doc, p: Path, v: Value)
    requires SetPath(d, p, v).Ok?
    ensures Keys(SetPath(d, p, v).value) == if Lookup(d, p[0]).Some? then Keys(d) else Keys(d) + [p[0]]
  {
    if |p| == 1 {
      WithFieldKeys(d, p[0], v);
    } else {
      var held := Lookup(d, p[0]);
      var inner := if held.Some? then held.value.fields else [];
      WithFieldKeys(d, p[0], Document(SetPath(inner, p[1..], v).value));
    }
  }

  /** Setting a path to what it already holds gives the very same document. */
  lemma {:induction false} SetSame(d: Doc, p: Path, v: Value)
    requires ValueAt(d, p) == Some(v)
    ensures SetPath(d, p, v) == Ok(d)
    decreases |p|
  {
    var held := Lookup(d, p[0]).value;
    WithFieldSame(d, p[0], held);
    if |p| > 1 {
      SetSame(held.fields, p[1..], v);
    }
  }

  /** Some proper prefix of the path holds something that is not a document. */
  ghost predicate Blocked(d: Doc, p: Path) {
    exists k :: BlockedAt(d, p, k)
  }

  ghost predicate BlockedAt(d: Doc, p: Path, k: int) {
    1 <= k < |p| && ValueAt(d, p[..k]).Some? && !ValueAt(d, p[..k]).value.Document?
  }

  /** A set fails exactly when the path runs through something that is not a document. */
  lemma {:induction false} SetFailsExactly(d: Doc, p: Path, v: Value)
    ensures SetPath(d, p, v).Fail? <==> Blocked(d, p)
    decreases |p|
  {
    if |p| > 1 {
      var held := Lookup(d, p[0]);
      var inner := if held.Some? && held.value.Document? then held.value.fields else [];
      SetFailsExactly(inner, p[1..], v);
      if Blocked(inner, p[1..]) {
        var k :| BlockedAt(inner, p[1..], k);
        assert p[..k + 1][1..] == p[1..][..k];
        assert held.Some? && held.value.Document? ==> BlockedAt(d, p, k + 1);
      }
      if Blocked(d, p) {
        var k :| BlockedAt(d, p, k);
        if k > 1 {
          assert p[..k][1..] == p[1..][..k - 1];
          assert BlockedAt(inner, p[1..], k - 1);
        }
      }
      if held.Some? && !held.value.Document? {
        assert BlockedAt(d, p, 1);
      }
    }
  }

  // ----- operators -----

  /** Float addition: infinities absorb, opposite ones and a NaN give a NaN. */
  function AddFloat(e: Engine, a: Float, b: Float): Float {
    if a.Finite? && b.Finite? then e.add(a.r, b.r)
    else if a.NaN? || b.NaN? then NaN
    else if a.Finite? then b
    else if b.Finite? || a == b then a
    else NaN
  }

  /** Two whole numbers add up as 64-bit integers, and wrap; any other two as floats. */
  function Sum(e: Engine, current: Value, amount: Value): Value
    requires current.Number? && amount.Number?
  {
    if current.whole.Some? && amount.whole.Some? then
      var n := Wrap(current.whole.value + amount.whole.value);
      Number(Finite(e.float(n)), Some(n))
    else Number(AddFloat(e, current.key, amount.key), None)
  }

  function IncrementField(e: Engine, d: Doc, path: string, amount: Value): Outcome<Doc> {
    if !amount.Number? then Fail(TYPE_MISMATCH)
    else
      match ValueAt(d, PathOf(path))
      case None => SetPath(d, PathOf(path), amount)
      case Some(current) =>
        if !current.Number? then Fail(TYPE_MISMATCH) else SetPath(d, PathOf(path), Sum(e, current, amount))
  }

  predicate KnownOperator(name: string) {
    name == "$set" || name == "$inc" || name == "$unset"
  }

  function ApplyChange(e: Engine, operator: string, d: Doc, change: Field): Outcome<Doc>
    requires KnownOperator(operator)
  {
    if operator == "$set" then SetPath(d, PathOf(change.key), change.value)
    else if operator == "$inc" then IncrementField(e, d, change.key, change.value)
    else Ok(UnsetPath(d, PathOf(change.key)))
  }

  function ApplyChanges(e: Engine, operator: string, d: Doc, changes: Doc): Outcome<Doc>
    requires KnownOperator(operator)
    decreases |changes|
  {
    if changes == [] then Ok(d)
    else
      match ApplyChange(e, operator, d, changes[0])
      case Fail(code) => Fail(code)
      case Ok(next) => ApplyChanges(e, operator, next, changes[1..])
  }

  function ApplyOperator(e: Engine, d: Doc, operator: Field): Outcome<Doc> {
    if !KnownOperator(operator.key) then Fail(NOT_SUPPORTED)
    else if !operator.value.Document? then Fail(TYPE_MISMATCH)
    else ApplyChanges(e, operator.key, d, operator.value.fields)
  }

  function ApplyOperators(e: Engine, d: Doc, update: Doc): Outcome<Doc>
    decreases |update|
  {
    if update == [] then Ok(d)
    else
      match ApplyOperator(e, d, update[0])
      case Fail(code) => Fail(code)
      case Ok(next) => ApplyOperators(e, next, update[1..])
  }

  predicate Dollar(key: string) {
    key != "" && key[0] == '$'
  }

  predicate MixedShape(update: Doc) {
    (exists i :: 0 <= i < |update| && Dollar(update[i].key)) && (exists i :: 0 <= i < |update| && !Dollar(update[i].key))
  }

  /** The identifier first, and no other field of its name. */
  function WithIdentifier(d: Doc, id: Value): Doc {
    [Field(ID, id)] + Without(d, ID)
  }

  function Replace(d: Doc, replacement: Doc): Doc {
    match Lookup(d, ID)
    case None => replacement
    case Some(id) => WithIdentifier(Without(replacement, ID), id)
  }

  function ApplyUpdate(e: Engine, d: Doc, update: Doc): Outcome<Doc> {
    if MixedShape(update) then Fail(FAILED_TO_PARSE)
    else if |update| > 0 && !Dollar(update[0].key) then Ok(Replace(d, update))
    else ApplyOperators(e, d, update)
  }

  predicate OperatorDocument(v: Value) {
    v.Document? && v.fields != [] && Dollar(v.fields[0].key)
  }

  /** The equality conditions of a filter, as the document they describe. */
  function EqualityFields(seeded: Doc, filter: Doc): Outcome<Doc>
    decreases |filter|
  {
    if filter == [] then Ok(seeded)
    else if Dollar(filter[0].key) || OperatorDocument(filter[0].value) then EqualityFields(seeded, filter[1..])
    else
      match SetPath(seeded, PathOf(filter[0].key), filter[0].value)
      case Fail(code) => Fail(code)
      case Ok(next) => EqualityFields(next, filter[1..])
  }

  /** The identifier of a document, or the one it is given. */
  function IdentifierOf(d: Doc, minted: Value): Value {
    match Lookup(d, ID)
    case None => minted
    case Some(id) => id
  }

  function Upsert(e: Engine, filter: Doc, update: Doc, minted: Value): Outcome<Doc> {
    match EqualityFields([], filter)
    case Fail(code) => Fail(code)
    case Ok(seeded) =>
      match ApplyUpdate(e, seeded, update)
      case Fail(code) => Fail(code)
      case Ok(created) => Ok(WithIdentifier(created, IdentifierOf(created, minted)))
  }

  // ----- the loops that thread a document through -----

  method RunOperator(e: Engine, document: Doc, operator: Field) returns (r: Outcome<Doc>)
    ensures r == ApplyOperator(e, document, operator)
  {
    if !KnownOperator(operator.key) {
      return Fail(NOT_SUPPORTED);
    }
    if !operator.value.Document? {
      return Fail(TYPE_MISMATCH);
    }
    var changes := operator.value.fields;
    var d := document;
    for i := 0 to |changes|
      invariant ApplyChanges(e, operator.key, d, changes[i..]) == ApplyChanges(e, operator.key, document, changes)
    {
      assert changes[i..][1..] == changes[i + 1..];
      var next := ApplyChange(e, operator.key, d, changes[i]);
      if next.Fail? {
        return next;
      }
      d := next.value;
    }
    return Ok(d);
  }

  method RunUpdate(e: Engine, document: Doc, update: Doc) returns (r: Outcome<Doc>)
    ensures r == ApplyUpdate(e, document, update)
  {
    if MixedShape(update) {
      return Fail(FAILED_TO_PARSE);
    }
    if |update| > 0 && !Dollar(update[0].key) {
      return Ok(Replace(document, update));
    }
    var d := document;
    for i := 0 to |update|
      invariant ApplyOperators(e, d, update[i..]) == ApplyOperators(e, document, update)
    {
      assert update[i..][1..] == update[i + 1..];
      var next := RunOperator(e, d, update[i]);
      if next.Fail? {
        return next;
      }
      d := next.value;
    }
    return Ok(d);
  }

  // ----- $set is idempotent on unrelated paths -----

  predicate Unrelated(changes: Doc) {
    forall i, j :: 0 <= i < j < |changes| ==> !Related(PathOf(changes[i].key), PathOf(changes[j].key))
  }

  lemma {:induction false} SetAllElsewhere(e: Engine, d: Doc, changes: Doc, q: Path)
    requires ApplyChanges(e, "$set", d, changes).Ok?
    requires forall i :: 0 <= i < |changes| ==> !Related(PathOf(changes[i].key), q)
    ensures ValueAt(ApplyChanges(e, "$set", d, changes).value, q) == ValueAt(d, q)
    decreases |changes|
  {
    if changes != [] {
      SetElsewhere(d, PathOf(changes[0].key), changes[0].value, q);
      SetAllElsewhere(e, SetPath(d, PathOf(changes[0].key), changes[0].value).value, changes[1..], q);
    }
  }

  lemma {:induction false} SetAllRead(e: Engine, d: Doc, changes: Doc, i: nat)
    requires ApplyChanges(e, "$set", d, changes).Ok? && Unrelated(changes) && i < |changes|
    ensures ValueAt(ApplyChanges(e, "$set", d, changes).value, PathOf(changes[i].key)) == Some(changes[i].value)
    decreases |changes|
  {
    var next := SetPath(d, PathOf(changes[0].key), changes[0].value).value;
    if i == 0 {
      var q := PathOf(changes[0].key);
      SetThenRead(d, q, changes[0].value);
      forall j | 0 <= j < |changes[1..]| ensures !Related(PathOf(changes[1..][j].key), q) {
        assert !Related(PathOf(changes[0].key), PathOf(changes[j + 1].key));
      }
      SetAllElsewhere(e, next, changes[1..], q);
    } else {
      assert Unrelated(changes[1..]) by {
        assert forall a :: 0 <= a < |changes[1..]| ==> changes[1..][a] == changes[a + 1];
      }
      SetAllRead(e, next, changes[1..], i - 1);
    }
  }

  lemma {:induction false} SetAllSame(e: Engine, d: Doc, changes: Doc)
    requires forall i :: 0 <= i < |changes| ==> ValueAt(d, PathOf(changes[i].key)) == Some(changes[i].value)
    ensures ApplyChanges(e, "$set", d, changes) == Ok(d)
    decreases |changes|
  {
    if changes != [] {
      SetSame(d, PathOf(changes[0].key), changes[0].value);
      SetAllSame(e, d, changes[1..]);
    }
  }

  /** Applying a $set of unrelated paths to its own result changes nothing at all. */
  lemma SetTwice(e: Engine, d: Doc, changes: Doc)
    requires Unrelated(changes) && ApplyUpdate(e, d, [Field("$set", Document(changes))]).Ok?
    ensures var update := [Field("$set", Document(changes))];
            var once := ApplyUpdate(e, d, update).value;
            ApplyUpdate(e, once, update) == Ok(once) && CompareFields(once, once) == 0
  {
    var update := [Field("$set", Document(changes))];
    assert Dollar(update[0].key) && !MixedShape(update);
    assert forall x: Doc :: ApplyOperators(e, x, update) == ApplyChanges(e, "$set", x, changes) by {
      forall x: Doc ensures ApplyOperators(e, x, update) == ApplyChanges(e, "$set", x, changes) {
        assert update[1..] == [];
        assert ApplyOperator(e, x, update[0]) == ApplyChanges(e, "$set", x, changes);
      }
    }
    var once := ApplyUpdate(e, d, update).value;
    forall i | 0 <= i < |changes| ensures ValueAt(once, PathOf(changes[i].key)) == Some(changes[i].value) {
      SetAllRead(e, d, changes, i);
    }
    SetAllSame(e, once, changes);
    FieldsReflexive(once);
  }
}
