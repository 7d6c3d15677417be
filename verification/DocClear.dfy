/**
 Which updates can be seen to be safe before they are sent: an update that never
 writes a value holding a NaN to `_id` or below it, nor adds a NaN or an infinity
 there, has no NaN in the identifier where there was a number, whatever document
 it meets.
 */
module DocClear {
  import opened Common
  import opened Bson
  import opened DocUpdate
  import opened DocStore
  import opened DocIdentifiers

  // ----- the values under a name -----

  function ValuesOf(d: Doc, key: string): seq<Value> {
    if d == [] then [] else (if d[0].key == key then [d[0].value] else []) + ValuesOf(d[1..], key)
  }

  predicate Has(d: Doc, key: string) {
    Lookup(d, key).Some?
  }

  /** Where the first field of the name is. */
  function First(d: Doc, key: string): (i: nat)
    requires Has(d, key)
    ensures i < |d| && d[i].key == key && Lookup(d, key) == Some(d[i].value)
  {
    if d[0].key == key then 0 else 1 + First(d[1..], key)
  }

  lemma {:induction false} ValuesLookup(d: Doc, key: string)
    ensures if ValuesOf(d, key) == [] then Lookup(d, key) == None else Lookup(d, key) == Some(ValuesOf(d, key)[0])
  {
    if d != [] {
      ValuesLookup(d[1..], key);
    }
  }

  lemma {:induction false} WithFieldValues(d: Doc, key: string, v: Value, other: string)
    ensures ValuesOf(WithField(d, key, v), other) ==
            if other != key then ValuesOf(d, other)
            else [v] + if ValuesOf(d, key) == [] then [] else ValuesOf(d, key)[1..]
  {
    if d == [] {
      ValuesCons(Field(key, v), [], other);
    } else if d[0].key == key {
      ValuesCons(Field(key, v), d[1..], other);
      ValuesTail(d, key);
    } else {
      WithFieldValues(d[1..], key, v, other);
      ValuesCons(d[0], WithField(d[1..], key, v), other);
      ValuesTail(d, key);
    }
  }

  lemma ValuesTail(d: Doc, key: string)
    requires d != []
    ensures ValuesOf(d, key) == (if d[0].key == key then [d[0].value] else []) + ValuesOf(d[1..], key)
  {
  }

  lemma ValuesCons(first: Field, rest: Doc, key: string)
    ensures ValuesOf([first] + rest, key) == (if first.key == key then [first.value] else []) + ValuesOf(rest, key)
  {
    assert ([first] + rest)[1..] == rest;
  }

  lemma {:induction false} WithoutValues(d: Doc, key: string, other: string)
    ensures ValuesOf(Without(d, key), other) == if other != key then ValuesOf(d, other) else []
  {
    if d != [] {
      WithoutValues(d[1..], key, other);
    }
  }

  lemma NanFreeJoin(head: Value, items: seq<Value>)
    ensures NanFreeItems([head] + items) <==> NanFree(head) && NanFreeItems(items)
  {
    assert ([head] + items)[1..] == items;
  }

  lemma {:induction false} NanFreeValues(d: Doc, key: string)
    requires NanFreeFields(d)
    ensures NanFreeItems(ValuesOf(d, key))
  {
    if d != [] {
      NanFreeValues(d[1..], key);
      NanFreeJoin(d[0].value, ValuesOf(d[1..], key));
      assert [] + ValuesOf(d[1..], key) == ValuesOf(d[1..], key);
    }
  }

  // ----- what an update passes on -----

  /** Every NaN of the value now was one of the value before, in the same place. */
  ghost predicate Inherits(was: Value, now: Value)
    decreases now, 1
  {
    || NanFree(now)
    || now == was
    || (now.Number? && was.Number? && was.key.NaN?)
    || (now.Document? && was.Document? && forall key :: InheritsKey(was.fields, now.fields, key))
  }

  ghost predicate InheritsKey(was: Doc, now: Doc, key: string)
    decreases now, 0
  {
    || NanFreeItems(ValuesOf(now, key))
    || (&& Has(was, key) && Has(now, key) && Behind(was, key) == Behind(now, key)
        && Inherits(was[First(was, key)].value, now[First(now, key)].value))
  }

  /** The values under the name but the first. */
  function Behind(d: Doc, key: string): seq<Value> {
    if ValuesOf(d, key) == [] then [] else ValuesOf(d, key)[1..]
  }

  /** The same, said of the first value under the name and those behind it. */
  ghost predicate Passes(was: Doc, key: string, first: Value, rest: seq<Value>) {
    || (NanFree(first) && NanFreeItems(rest))
    || (Has(was, key) && Behind(was, key) == rest && Inherits(Lookup(was, key).value, first))
  }

  lemma InheritsKeyMeans(was: Doc, now: Doc, key: string)
    ensures InheritsKey(was, now, key) <==> Lookup(now, key).None? || Passes(was, key, Lookup(now, key).value, Behind(now, key))
  {
    ValuesLookup(now, key);
    if ValuesOf(now, key) != [] {
      NanFreeJoin(ValuesOf(now, key)[0], Behind(now, key));
      assert ValuesOf(now, key) == [ValuesOf(now, key)[0]] + Behind(now, key);
    }
  }

  ghost predicate InheritsAll(was: Doc, now: Doc) {
    forall key :: InheritsKey(was, now, key)
  }

  lemma InheritsSelf(d: Doc)
    ensures InheritsAll(d, d)
  {
    forall key ensures InheritsKey(d, d, key) {
      InheritsKeyMeans(d, d, key);
    }
  }

  // ----- writing -----

  /** A write that may be made at the path: no NaN, or one in the place of one. */
  ghost predicate Allowed(now: Doc, p: Path, v: Value) {
    NanFree(v) || (v.Number? && ValueAt(now, p).Some? && ValueAt(now, p).value.Number? && ValueAt(now, p).value.key.NaN?)
  }

  lemma WriteKey(was: Doc, now: Doc, key: string, v: Value, other: string)
    requires InheritsKey(was, now, other)
    requires other == key ==> Passes(was, key, v, Behind(now, key))
    ensures InheritsKey(was, WithField(now, key, v), other)
  {
    InheritsKeyMeans(was, now, other);
    InheritsKeyMeans(was, WithField(now, key, v), other);
    WithFieldValues(now, key, v, other);
    ValuesLookup(now, other);
    ValuesLookup(WithField(now, key, v), other);
  }

  lemma {:induction false} WithFieldNanFree(d: Doc, key: string, v: Value)
    requires NanFreeFields(d) && NanFree(v)
    ensures NanFreeFields(WithField(d, key, v))
  {
    if d != [] {
      WithFieldNanFree(d[1..], key, v);
    }
  }

  lemma {:induction false} LookupNanFree(d: Doc, key: string)
    requires NanFreeFields(d)
    ensures Lookup(d, key).Some? ==> NanFree(Lookup(d, key).value)
  {
    if d != [] {
      LookupNanFree(d[1..], key);
    }
  }

  lemma {:induction false} SetNanFree(now: Doc, p: Path, v: Value)
    requires NanFreeFields(now) && Allowed(now, p, v) && SetPath(now, p, v).Ok?
    ensures NanFreeFields(SetPath(now, p, v).value)
    decreases |p|
  {
    LookupNanFree(now, p[0]);
    if |p| == 1 {
      WithFieldNanFree(now, p[0], v);
    } else {
      var held := Lookup(now, p[0]);
      var inner := if held.Some? then held.value.fields else [];
      SetNanFree(inner, p[1..], v);
      WithFieldNanFree(now, p[0], Document(SetPath(inner, p[1..], v).value));
    }
  }

  /** Nothing is behind a name that is not there, and a name that is there passes on what it holds. */
  lemma PassesHeld(was: Doc, now: Doc, key: string)
    requires InheritsKey(was, now, key)
    ensures Lookup(now, key).None? ==> Behind(now, key) == []
    ensures Lookup(now, key).Some? ==> Passes(was, key, Lookup(now, key).value, Behind(now, key))
  {
    InheritsKeyMeans(was, now, key);
    ValuesLookup(now, key);
  }

  /** A document in the place of one it inherits from passes on. */
  lemma PassesInner(was: Doc, key: string, held: Value, rest: seq<Value>, fields: Doc)
    requires held.Document? && Passes(was, key, held, rest)
    requires NanFreeFields(held.fields) ==> NanFreeFields(fields)
    requires forall before :: InheritsAll(before, held.fields) ==> InheritsAll(before, fields)
    ensures Passes(was, key, Document(fields), rest)
  {
    if !(NanFree(held) && NanFreeItems(rest)) && !NanFree(Document(fields)) {
      var first := Lookup(was, key).value;
      if held == first {
        InheritsSelf(held.fields);
      }
      assert InheritsAll(first.fields, held.fields);
      assert InheritsAll(first.fields, fields);
    }
  }

  lemma {:induction false} SetInherits(was: Doc, now: Doc, p: Path, v: Value, other: string)
    requires InheritsKey(was, now, other) && (other == p[0] ==> Allowed(now, p, v)) && SetPath(now, p, v).Ok?
    ensures InheritsKey(was, SetPath(now, p, v).value, other)
    decreases |p|
  {
    if other != p[0] {
      SetElsewhereKey(was, now, p, v, other);
    } else {
      PassesHeld(was, now, other);
      if |p| == 1 {
        SetLeaf(was, now, other, v);
      } else {
        SetBelow(was, now, p, v);
      }
    }
  }

  lemma SetElsewhereKey(was: Doc, now: Doc, p: Path, v: Value, other: string)
    requires InheritsKey(was, now, other) && other != p[0] && SetPath(now, p, v).Ok?
    ensures InheritsKey(was, SetPath(now, p, v).value, other)
  {
    if |p| == 1 {
      WriteKey(was, now, p[0], v, other);
    } else {
      var held := Lookup(now, p[0]);
      var inner := if held.Some? then held.value.fields else [];
      WriteKey(was, now, p[0], Document(SetPath(inner, p[1..], v).value), other);
    }
  }

  lemma SetLeaf(was: Doc, now: Doc, key: string, v: Value)
    requires InheritsKey(was, now, key) && Allowed(now, [key], v)
    ensures InheritsKey(was, WithField(now, key, v), key)
  {
    PassesHeld(was, now, key);
    assert Passes(was, key, v, Behind(now, key));
    WriteKey(was, now, key, v, key);
  }

  lemma {:induction false} SetBelow(was: Doc, now: Doc, p: Path, v: Value)
    requires |p| > 1 && InheritsKey(was, now, p[0]) && Allowed(now, p, v) && SetPath(now, p, v).Ok?
    ensures InheritsKey(was, SetPath(now, p, v).value, p[0])
    decreases |p|, 0
  {
    var held := Lookup(now, p[0]);
    var inner := if held.Some? then held.value.fields else [];
    var fields := SetPath(inner, p[1..], v).value;
    PassesHeld(was, now, p[0]);
    if NanFreeFields(inner) {
      SetNanFree(inner, p[1..], v);
    }
    if held.Some? {
      forall before | InheritsAll(before, inner) ensures InheritsAll(before, fields) {
        forall key ensures InheritsKey(before, fields, key) {
          SetInherits(before, inner, p[1..], v, key);
        }
      }
      PassesInner(was, p[0], held.value, Behind(now, p[0]), fields);
    }
    WriteKey(was, now, p[0], Document(fields), p[0]);
  }

  // ----- removing -----

  lemma {:induction false} WithoutNanFree(d: Doc, key: string)
    requires NanFreeFields(d)
    ensures NanFreeFields(Without(d, key))
  {
    if d != [] {
      WithoutNanFree(d[1..], key);
    }
  }

  lemma {:induction false} UnsetNanFree(now: Doc, p: Path)
    requires NanFreeFields(now)
    ensures NanFreeFields(UnsetPath(now, p))
    decreases |p|
  {
    if |p| == 1 {
      WithoutNanFree(now, p[0]);
    } else {
      LookupNanFree(now, p[0]);
      var held := Lookup(now, p[0]);
      if held.Some? && held.value.Document? {
        UnsetNanFree(held.value.fields, p[1..]);
        WithFieldNanFree(now, p[0], Document(UnsetPath(held.value.fields, p[1..])));
      }
    }
  }

  lemma {:induction false} UnsetInherits(was: Doc, now: Doc, p: Path, other: string)
    requires InheritsKey(was, now, other)
    ensures InheritsKey(was, UnsetPath(now, p), other)
    decreases |p|
  {
    if |p| == 1 {
      WithoutValues(now, p[0], other);
      ValuesLookup(now, other);
      ValuesLookup(Without(now, p[0]), other);
      InheritsKeyMeans(was, now, other);
      InheritsKeyMeans(was, Without(now, p[0]), other);
    } else {
      var held := Lookup(now, p[0]);
      if held.Some? && held.value.Document? {
        UnsetBelow(was, now, p, other);
      }
    }
  }

  lemma {:induction false} UnsetBelow(was: Doc, now: Doc, p: Path, other: string)
    requires |p| > 1 && InheritsKey(was, now, other)
    requires Lookup(now, p[0]).Some? && Lookup(now, p[0]).value.Document?
    ensures InheritsKey(was, UnsetPath(now, p), other)
    decreases |p|, 0
  {
    var held := Lookup(now, p[0]).value;
    var fields := UnsetPath(held.fields, p[1..]);
    if other == p[0] {
      PassesHeld(was, now, other);
      if NanFreeFields(held.fields) {
        UnsetNanFree(held.fields, p[1..]);
      }
      forall before | InheritsAll(before, held.fields) ensures InheritsAll(before, fields) {
        forall key ensures InheritsKey(before, fields, key) {
          UnsetInherits(before, held.fields, p[1..], key);
        }
      }
      PassesInner(was, other, held, Behind(now, other), fields);
    }
    WriteKey(was, now, p[0], Document(fields), other);
  }

  // ----- operators -----

  /** The change writes no NaN to the identifier, and adds no NaN and no infinity to it. */
  predicate ClearChange(op: string, change: Field) {
    PathOf(change.key)[0] == ID ==>
      && (op == "$set" ==> NanFree(change.value))
      && (op == "$inc" && change.value.Number? ==> change.value.key.Finite?)
  }

  predicate ClearOperator(operator: Field) {
    operator.value.Document? ==>
      forall i :: 0 <= i < |operator.value.fields| ==> ClearChange(operator.key, operator.value.fields[i])
  }

  /** Something a client can see to before it sends the update. */
  predicate Clear(update: Doc) {
    forall i :: 0 <= i < |update| ==> ClearOperator(update[i])
  }

  lemma SumNan(e: Engine, current: Value, amount: Value)
    requires current.Number? && amount.Number? && amount.key.Finite?
    ensures Sum(e, current, amount).key.NaN? ==> current.key.NaN?
  {
  }

  lemma ChangeInherits(e: Engine, was: Doc, now: Doc, op: string, change: Field)
    requires KnownOperator(op) && ClearChange(op, change) && InheritsKey(was, now, ID)
    ensures ApplyChange(e, op, now, change).Ok? ==> InheritsKey(was, ApplyChange(e, op, now, change).value, ID)
  {
    var p := PathOf(change.key);
    if op == "$set" {
      if SetPath(now, p, change.value).Ok? {
        SetInherits(was, now, p, change.value, ID);
      }
    } else if op == "$inc" {
      IncrementInherits(e, was, now, change);
    } else {
      UnsetInherits(was, now, p, ID);
    }
  }

  lemma IncrementInherits(e: Engine, was: Doc, now: Doc, change: Field)
    requires ClearChange("$inc", change) && InheritsKey(was, now, ID)
    ensures var r := IncrementField(e, now, change.key, change.value); r.Ok? ==> InheritsKey(was, r.value, ID)
  {
    var p := PathOf(change.key);
    var r := IncrementField(e, now, change.key, change.value);
    if r.Ok? {
      var current := ValueAt(now, p);
      var v := if current.None? then change.value else Sum(e, current.value, change.value);
      if p[0] == ID {
        if current.Some? {
          SumNan(e, current.value, change.value);
        }
        assert Allowed(now, p, v);
      }
      SetInherits(was, now, p, v, ID);
    }
  }

  lemma {:induction false} ChangesInherit(e: Engine, was: Doc, now: Doc, op: string, changes: Doc)
    requires KnownOperator(op) && InheritsKey(was, now, ID)
    requires forall i :: 0 <= i < |changes| ==> ClearChange(op, changes[i])
    ensures ApplyChanges(e, op, now, changes).Ok? ==> InheritsKey(was, ApplyChanges(e, op, now, changes).value, ID)
    decreases |changes|
  {
    if changes != [] {
      ChangeInherits(e, was, now, op, changes[0]);
      var next := ApplyChange(e, op, now, changes[0]);
      if next.Ok? {
        ChangesInherit(e, was, next.value, op, changes[1..]);
      }
    }
  }

  lemma {:induction false} OperatorsInherit(e: Engine, was: Doc, now: Doc, update: Doc)
    requires Clear(update) && InheritsKey(was, now, ID)
    ensures ApplyOperators(e, now, update).Ok? ==> InheritsKey(was, ApplyOperators(e, now, update).value, ID)
    decreases |update|
  {
    if update != [] {
      assert ClearOperator(update[0]);
      var next := ApplyOperator(e, now, update[0]);
      if next.Ok? {
        ChangesInherit(e, was, now, update[0].key, update[0].value.fields);
        OperatorsInherit(e, was, next.value, update[1..]);
      }
    }
  }

  // ----- what was inherited is not blurred -----

  lemma {:induction false} BlursNotItself(v: Value)
    ensures !Blurs(v, v)
    decreases v, 1
  {
    match v
    case Document(fields) => BlursFieldsNotItself(fields);
    case Array(items) => BlursItemsNotItself(items);
    case _ =>
  }

  lemma {:induction false} BlursFieldsNotItself(fields: Doc)
    ensures !BlursFields(fields, fields)
    decreases fields, 0
  {
    if fields != [] {
      BlursNotItself(fields[0].value);
      BlursFieldsNotItself(fields[1..]);
    }
  }

  lemma {:induction false} BlursItemsNotItself(items: seq<Value>)
    ensures !BlursItems(items, items)
    decreases items, 0
  {
    if items != [] {
      BlursNotItself(items[0]);
      BlursItemsNotItself(items[1..]);
    }
  }

  lemma {:induction false} ZeroAt(l: Doc, r: Doc, p: nat)
    requires CompareFields(l, r) == 0 && p < |l|
    ensures |l| == |r| && l[p].key == r[p].key && Equal(l[p].value, r[p].value)
    decreases p
  {
    ZeroLength(l, r);
    TextSigns(l[0].key, r[0].key);
    ZeroMeansEqual(l[0].value, r[0].value);
    if p > 0 {
      ZeroAt(l[1..], r[1..], p - 1);
    }
  }

  lemma {:induction false} ZeroLength(l: Doc, r: Doc)
    requires CompareFields(l, r) == 0
    ensures |l| == |r|
  {
    if l != [] && r != [] {
      ZeroLength(l[1..], r[1..]);
    }
  }

  lemma {:induction false} BlursSomewhere(was: Doc, now: Doc)
    ensures BlursFields(was, now) ==> exists p :: 0 <= p < |was| && p < |now| && Blurs(was[p].value, now[p].value)
    decreases |now|
  {
    if BlursFields(was, now) && !Blurs(was[0].value, now[0].value) {
      BlursSomewhere(was[1..], now[1..]);
      var p :| 0 <= p < |was[1..]| && p < |now[1..]| && Blurs(was[1..][p].value, now[1..][p].value);
      assert was[p + 1] == was[1..][p] && now[p + 1] == now[1..][p];
    }
  }

  /** How many fields of the name stand before a position. */
  function Ordinal(d: Doc, p: nat, key: string): nat
    requires p <= |d|
  {
    if p == 0 then 0 else (if d[0].key == key then 1 else 0) + Ordinal(d[1..], p - 1, key)
  }

  lemma {:induction false} ValueAtOrdinal(d: Doc, p: nat)
    requires p < |d|
    ensures var key := d[p].key; Ordinal(d, p, key) < |ValuesOf(d, key)| && ValuesOf(d, key)[Ordinal(d, p, key)] == d[p].value
    decreases p
  {
    if p > 0 {
      ValueAtOrdinal(d[1..], p - 1);
    }
  }

  lemma {:induction false} SameOrdinal(l: Doc, r: Doc, p: nat, key: string)
    requires CompareFields(l, r) == 0 && p <= |l| && |l| == |r|
    ensures Ordinal(l, p, key) == Ordinal(r, p, key)
    decreases p
  {
    if p > 0 {
      TextSigns(l[0].key, r[0].key);
      SameOrdinal(l[1..], r[1..], p - 1, key);
    }
  }

  lemma {:induction false} NanFreeAt(items: seq<Value>, i: nat)
    requires NanFreeItems(items) && i < |items|
    ensures NanFree(items[i])
  {
    if i > 0 {
      NanFreeAt(items[1..], i - 1);
    }
  }

  /** A value that inherits its NaNs and equals the one before blurs nothing of it. */
  lemma {:induction false} InheritedIsSharp(was: Value, now: Value)
    requires Inherits(was, now) && Equal(was, now)
    ensures !Blurs(was, now)
    decreases now, 1
  {
    if NanFree(now) {
      NanFreeBlursNothing(was, now);
    } else if now == was {
      BlursNotItself(now);
    } else if now.Document? {
      BlursSomewhere(was.fields, now.fields);
      forall p | 0 <= p < |was.fields| && p < |now.fields| ensures !Blurs(was.fields[p].value, now.fields[p].value) {
        InheritedAt(was.fields, now.fields, p);
      }
    }
  }

  lemma {:induction false} InheritedAt(was: Doc, now: Doc, p: nat)
    requires InheritsAll(was, now) && CompareFields(was, now) == 0 && p < |was| && p < |now|
    ensures !Blurs(was[p].value, now[p].value)
    decreases now, 0
  {
    var key := now[p].key;
    ZeroAt(was, now, p);
    SameOrdinal(was, now, p, key);
    ValueAtOrdinal(was, p);
    ValueAtOrdinal(now, p);
    assert InheritsKey(was, now, key);
    if NanFreeItems(ValuesOf(now, key)) {
      NanFreeAt(ValuesOf(now, key), Ordinal(now, p, key));
      NanFreeBlursNothing(was[p].value, now[p].value);
    } else if Ordinal(now, p, key) > 0 {
      assert was[p].value == Behind(was, key)[Ordinal(was, p, key) - 1];
      assert now[p].value == Behind(now, key)[Ordinal(now, p, key) - 1];
      BlursNotItself(now[p].value);
    } else {
      ValuesLookup(was, key);
      ValuesLookup(now, key);
      assert Inherits(was[p].value, now[p].value);
      InheritedIsSharp(was[p].value, now[p].value);
    }
  }

  lemma IdInherited(d: Doc, updated: Doc)
    requires InheritsKey(d, updated, ID) && Equal(IdOf(d), IdOf(updated))
    ensures !Blurs(IdOf(d), IdOf(updated))
  {
    InheritsKeyMeans(d, updated, ID);
    if Lookup(updated, ID).Some? {
      if NanFree(IdOf(updated)) {
        NanFreeBlursNothing(IdOf(d), IdOf(updated));
      } else {
        InheritedIsSharp(IdOf(d), IdOf(updated));
      }
    }
  }

  /** A clear update blurs the identifier of no document. */
  lemma ClearIsSharp(e: Engine, d: Doc, update: Doc)
    requires Clear(update)
    ensures !Blurring(e, d, update)
  {
    var updated := ApplyUpdate(e, d, update);
    if updated.Ok? && Equal(IdOf(d), IdOf(updated.value)) {
      if |update| > 0 && !Dollar(update[0].key) {
        ReplacementIsSharp(d, update);
      } else {
        InheritsSelf(d);
        OperatorsInherit(e, d, d, update);
        IdInherited(d, updated.value);
      }
    }
  }

  lemma ReplacementIsSharp(d: Doc, replacement: Doc)
    requires Equal(IdOf(d), IdOf(Replace(d, replacement)))
    ensures !Blurs(IdOf(d), IdOf(Replace(d, replacement)))
  {
    BlursNotItself(IdOf(d));
  }

  /** Nothing a client sends makes two identifiers equal while its updates are clear, whatever else they hold. */
  lemma ClearRunUnique(e: Engine, commands: seq<Command>, i: nat, j: nat)
    requires forall k, n :: 0 <= k < |commands| && commands[k].UpdateMany? && 0 <= n < |commands[k].specs| ==>
               Clear(commands[k].specs[n].change)
    requires i < j < |Run(e, [], commands)|
    ensures !Equal(IdOf(Run(e, [], commands)[i]), IdOf(Run(e, [], commands)[j]))
  {
    forall k | 0 <= k < |commands| && commands[k].UpdateMany? ensures Sharp(e, commands[k].specs) {
      forall n | 0 <= n < |commands[k].specs| ensures SharpChange(e, commands[k].specs[n].change) {
        forall d ensures !Blurring(e, d, commands[k].specs[n].change) {
          ClearIsSharp(e, d, commands[k].specs[n].change);
        }
      }
    }
    IdentifiersUnique(e, commands, i, j);
  }
}
