/**
 What the write commands leave, field by field and document by document: where
 the identifier goes, which other fields are kept and in which order, which
 documents of a batch are stored, and which of a collection are rewritten,
 removed or found.
 */
module DocMeaning {
  import opened Common
  import opened Bson
  import opened DocUpdate
  import opened DocReach
  import opened DocQuery
  import opened DocStore
  import opened DocIdentifiers

  // ----- parts of a sequence -----

  ghost predicate Ascending(at: seq<nat>, n: nat) {
    (forall i :: 0 <= i < |at| ==> at[i] < n) && (forall i, j :: 0 <= i < j < |at| ==> at[i] < at[j])
  }

  /** The positions are, in order, those a test picks out of n. */
  ghost predicate Picks(at: seq<nat>, n: nat, test: nat -> bool) {
    Ascending(at, n) && forall j :: 0 <= j < n ==> (j in at <==> test(j))
  }

  function Shifted(at: seq<nat>): (r: seq<nat>)
    ensures |r| == |at| && forall i :: 0 <= i < |at| ==> r[i] == at[i] + 1
  {
    seq(|at|, i requires 0 <= i < |at| => at[i] + 1)
  }

  lemma ShiftedHas(at: seq<nat>, k: nat)
    ensures k + 1 in Shifted(at) <==> k in at
    ensures 0 !in Shifted(at)
  {
    if i :| 0 <= i < |at| && at[i] == k {
      assert Shifted(at)[i] == k + 1;
    }
    if i :| 0 <= i < |at| && Shifted(at)[i] == k + 1 {
      assert at[i] == k;
    }
  }

  lemma ShiftedAscends(at: seq<nat>, n: nat)
    requires Ascending(at, n)
    ensures Ascending(Shifted(at), n + 1) && Ascending([0] + Shifted(at), n + 1)
  {
    var all := [0] + Shifted(at);
    assert forall i :: 1 <= i < |all| ==> all[i] == at[i - 1] + 1;
  }

  lemma PicksCons(at: seq<nat>, n: nat, test: nat -> bool, later: nat -> bool)
    requires Picks(at, n, later) && forall j: nat :: j < n ==> later(j) == test(j + 1)
    ensures Picks(if test(0) then [0] + Shifted(at) else Shifted(at), n + 1, test)
  {
    var all := if test(0) then [0] + Shifted(at) else Shifted(at);
    ShiftedAscends(at, n);
    ShiftedHas(at, 0);
    forall j | 0 < j < n + 1 ensures j in all <==> test(j) {
      ShiftedHas(at, j - 1);
      assert later(j - 1) == test(j);
    }
  }

  /** One list is the other's items at the positions, in order. */
  ghost predicate AreAt<T>(part: seq<T>, whole: seq<T>, at: seq<nat>) {
    |part| == |at| && forall i :: 0 <= i < |at| ==> at[i] < |whole| && part[i] == whole[at[i]]
  }

  lemma AreAtCons<T>(part: seq<T>, whole: seq<T>, at: seq<nat>, keep: bool)
    requires whole != [] && AreAt(part, whole[1..], at)
    ensures AreAt(if keep then [whole[0]] + part else part, whole, if keep then [0] + Shifted(at) else Shifted(at))
  {
    forall i | 0 <= i < |at| ensures at[i] + 1 < |whole| && part[i] == whole[at[i] + 1] {
      assert part[i] == whole[1..][at[i]];
    }
  }

  /** The positions are those the test picks, and the part is what stands there. */
  ghost predicate Chosen<T>(part: seq<T>, whole: seq<T>, at: seq<nat>, test: T -> bool) {
    AreAt(part, whole, at) && Picks(at, |whole|, Tested(whole, test))
  }

  function Tested<T>(whole: seq<T>, test: T -> bool): nat -> bool {
    (j: nat) => j < |whole| && test(whole[j])
  }

  lemma ChosenNone<T>(test: T -> bool)
    ensures Chosen([], [], [], test)
  {
  }

  lemma ChosenCons<T>(part: seq<T>, whole: seq<T>, at: seq<nat>, test: T -> bool)
    requires whole != [] && Chosen(part, whole[1..], at, test)
    ensures Chosen(if test(whole[0]) then [whole[0]] + part else part, whole,
                 if test(whole[0]) then [0] + Shifted(at) else Shifted(at), test)
  {
    AreAtCons(part, whole, at, test(whole[0]));
    PicksCons(at, |whole[1..]|, Tested(whole, test), Tested(whole[1..], test));
  }

  // ----- fields -----

  function Unnamed(name: string): Field -> bool {
    (f: Field) => f.key != name
  }

  /** The fields of a document but those of the name, in their order. */
  ghost predicate AllBut(part: Doc, whole: Doc, name: string) {
    exists at :: Chosen(part, whole, at, Unnamed(name))
  }

  lemma {:induction false} WithoutIsAllBut(d: Doc, name: string) returns (at: seq<nat>)
    ensures Chosen(Without(d, name), d, at, Unnamed(name))
  {
    at := [];
    if d == [] {
      ChosenNone(Unnamed(name));
    } else {
      var later := WithoutIsAllBut(d[1..], name);
      ChosenCons(Without(d[1..], name), d, later, Unnamed(name));
      at := if d[0].key != name then [0] + Shifted(later) else Shifted(later);
    }
  }

  /** The identifier a document is sent with, or the one minted for it. */
  ghost predicate Identified(d: Doc, minted: Value, id: Value) {
    Holds(d, ID, id) || ((forall i :: 0 <= i < |d| ==> d[i].key != ID) && id == minted)
  }

  /** The identifier first, and then the other fields of the document. */
  ghost predicate LeadsWith(r: Doc, id: Value, d: Doc) {
    r != [] && r[0] == Field(ID, id) && AllBut(r[1..], d, ID)
  }

  lemma {:induction false} LookupNone(d: Doc, name: string)
    ensures Lookup(d, name) == None <==> forall i :: 0 <= i < |d| ==> d[i].key != name
  {
    if d != [] {
      LookupNone(d[1..], name);
      if forall i :: 0 <= i < |d[1..]| ==> d[1..][i].key != name {
        forall i | 0 < i < |d| ensures d[i].key != name { assert d[1..][i - 1] == d[i]; }
      }
      assert forall i :: 0 <= i < |d[1..]| ==> d[1..][i] == d[i + 1];
    }
  }

  lemma IdentifierIs(d: Doc, minted: Value)
    ensures Identified(d, minted, IdentifierOf(d, minted))
  {
    LookupNone(d, ID);
    var held := Lookup(d, ID);
    if held.Some? {
      LookupHolds(d, ID, held.value);
    }
  }

  lemma WithIdentifierLeads(d: Doc, id: Value)
    ensures LeadsWith(WithIdentifier(d, id), id, d)
  {
    var at := WithoutIsAllBut(d, ID);
    assert WithIdentifier(d, id)[1..] == Without(d, ID);
  }

  // ----- inserting -----

  /**
   An insert is refused exactly when an equal identifier is there; otherwise it
   appends one document, the identifier first and then every other field sent,
   with its value and in its place.
   */
  lemma InsertMeans(docs: seq<Doc>, d: Doc, minted: Value, id: Value)
    requires Identified(d, minted, id)
    ensures var r := Insert(docs, d, minted);
            if exists i :: 0 <= i < |docs| && Equal(IdOf(docs[i]), id) then r == Fail(11000)
            else r.Ok? && |r.value| == |docs| + 1 && r.value[..|docs|] == docs && LeadsWith(r.value[|docs|], id, d)
  {
    SameIdentifier(d, minted, id);
    LocatedExact(docs, id);
    WithIdentifierLeads(d, id);
  }

  lemma SameIdentifier(d: Doc, minted: Value, id: Value)
    requires Identified(d, minted, id)
    ensures IdentifierOf(d, minted) == id
  {
    LookupNone(d, ID);
    LookupHolds(d, ID, id);
  }

  // ----- replacing and upserting -----

  /** A replacement keeps the identifier of the document, first, and takes everything else from what is sent. */
  lemma ReplaceMeans(e: Engine, d: Doc, replacement: Doc)
    requires replacement != [] && forall i :: 0 <= i < |replacement| ==> !StartsWithDollar(replacement[i].key)
    ensures var r := ApplyUpdate(e, d, replacement);
            && r.Ok?
            && (forall id :: Holds(d, ID, id) ==> LeadsWith(r.value, id, replacement))
            && ((forall i :: 0 <= i < |d| ==> d[i].key != ID) ==> r.value == replacement)
  {
    forall i | 0 <= i < |replacement| ensures !Dollar(replacement[i].key) { DollarStarts(replacement[i].key); }
    LookupNone(d, ID);
    forall id | Holds(d, ID, id) ensures LeadsWith(Replace(d, replacement), id, replacement) {
      LookupHolds(d, ID, id);
      WithoutTwice(replacement, ID);
      WithIdentifierLeads(replacement, id);
    }
  }

  lemma {:induction false} WithoutTwice(d: Doc, name: string)
    ensures Without(Without(d, name), name) == Without(d, name)
  {
    if d != [] {
      WithoutTwice(d[1..], name);
    }
  }

  /** The conditions of a filter that say what a field is, in their order. */
  ghost predicate Equalities(part: Doc, filter: Doc) {
    exists at :: Chosen(part, filter, at, EqualityTest())
  }

  ghost function EqualityTest(): Field -> bool {
    (f: Field) => IsEquality(f)
  }

  ghost predicate IsEquality(condition: Field) {
    && !StartsWithDollar(condition.key)
    && !(condition.value.Document? && condition.value.fields != [] && StartsWithDollar(condition.value.fields[0].key))
  }

  lemma EqualityIs(condition: Field)
    ensures IsEquality(condition) <==> !(Dollar(condition.key) || OperatorDocument(condition.value))
  {
    DollarStarts(condition.key);
    if condition.value.Document? && condition.value.fields != [] {
      DollarStarts(condition.value.fields[0].key);
    }
  }

  lemma {:induction false} EqualityFieldsSet(e: Engine, seeded: Doc, filter: Doc) returns (part: Doc, at: seq<nat>)
    ensures Chosen(part, filter, at, EqualityTest())
    ensures EqualityFields(seeded, filter) == ApplyChanges(e, "$set", seeded, part)
    decreases |filter|
  {
    part, at := [], [];
    if filter == [] {
      ChosenNone(EqualityTest());
    } else {
      EqualityIs(filter[0]);
      var next := SetPath(seeded, PathOf(filter[0].key), filter[0].value);
      var lead := if IsEquality(filter[0]) && next.Ok? then next.value else seeded;
      var tail, later := EqualityFieldsSet(e, lead, filter[1..]);
      ChosenCons(tail, filter, later, EqualityTest());
      if IsEquality(filter[0]) {
        part, at := [filter[0]] + tail, [0] + Shifted(later);
        SetCons(e, seeded, filter[0], tail);
      } else {
        part, at := tail, Shifted(later);
      }
    }
  }

  lemma SetCons(e: Engine, seeded: Doc, first: Field, rest: Doc)
    ensures var next := SetPath(seeded, PathOf(first.key), first.value);
            ApplyChanges(e, "$set", seeded, [first] + rest) ==
            if next.Fail? then Fail(next.code) else ApplyChanges(e, "$set", next.value, rest)
  {
    assert ([first] + rest)[1..] == rest;
  }

  /** An upsert sets the filter's equality fields on nothing, makes the update of that, and puts the identifier first. */
  lemma UpsertMeans(e: Engine, filter: Doc, update: Doc, minted: Value) returns (part: Doc)
    ensures Equalities(part, filter)
    ensures var seeded := ApplyChanges(e, "$set", [], part);
            var r := Upsert(e, filter, update, minted);
            if seeded.Fail? || ApplyUpdate(e, seeded.value, update).Fail? then r.Fail?
            else
              var created := ApplyUpdate(e, seeded.value, update).value;
              r.Ok? && forall id :: Identified(created, minted, id) ==> LeadsWith(r.value, id, created)
  {
    var at;
    part, at := EqualityFieldsSet(e, [], filter);
    var seeded := ApplyChanges(e, "$set", [], part);
    if seeded.Ok? && ApplyUpdate(e, seeded.value, update).Ok? {
      var created := ApplyUpdate(e, seeded.value, update).value;
      forall id | Identified(created, minted, id) ensures LeadsWith(Upsert(e, filter, update, minted).value, id, created) {
        SameIdentifier(created, minted, id);
        WithIdentifierLeads(created, id);
      }
    }
  }

  // ----- updates of one operator -----

  /** The update document of one operator on one path. */
  function Single(operator: string, path: string, v: Value): Doc {
    [Field(operator, Document([Field(path, v)]))]
  }

  lemma SingleApplies(e: Engine, d: Doc, operator: string, path: string, v: Value)
    requires KnownOperator(operator)
    ensures ApplyUpdate(e, d, Single(operator, path, v)) == ApplyChange(e, operator, d, Field(path, v))
  {
    var change := Field(path, v);
    var update := Single(operator, path, v);
    assert Dollar(update[0].key) && !MixedShape(update);
    assert ApplyChanges(e, operator, d, [change]) == ApplyChange(e, operator, d, change) by {
      assert [change][1..] == [];
    }
    assert update[1..] == [];
    assert ApplyOperators(e, d, update) == ApplyOperator(e, d, update[0]);
  }

  /** `$set` leaves the value at its path, `$unset` nothing there, and both every unrelated path as it was. */
  lemma SetAndUnsetMean(e: Engine, d: Doc, path: string, v: Value, q: Path)
    ensures var set_ := ApplyUpdate(e, d, Single("$set", path, v));
            && (set_.Fail? <==> Blocked(d, PathOf(path)))
            && (set_.Ok? ==> ValueAt(set_.value, PathOf(path)) == Some(v))
            && (set_.Ok? && !Related(PathOf(path), q) ==> ValueAt(set_.value, q) == ValueAt(d, q))
    ensures var unset := ApplyUpdate(e, d, Single("$unset", path, v));
            && unset.Ok? && ValueAt(unset.value, PathOf(path)) == None
            && (!Related(PathOf(path), q) ==> ValueAt(unset.value, q) == ValueAt(d, q))
  {
    var p := PathOf(path);
    SingleApplies(e, d, "$set", path, v);
    SingleApplies(e, d, "$unset", path, v);
    SetFailsExactly(d, p, v);
    UnsetThenRead(d, p);
    if SetPath(d, p, v).Ok? {
      SetThenRead(d, p, v);
      if !Related(p, q) {
        SetElsewhere(d, p, v, q);
      }
    }
    if !Related(p, q) {
      UnsetElsewhere(d, p, q);
    }
  }

  /** What an update is refused for before any document is looked at: fields beside operators, an operator there is not, one without a document. */
  lemma ShapeRefused(e: Engine, d: Doc, update: Doc, i: nat, j: nat)
    requires i < |update| && j < |update|
    ensures StartsWithDollar(update[i].key) && !StartsWithDollar(update[j].key) ==> ApplyUpdate(e, d, update) == Fail(9)
    ensures |update| == 1 && StartsWithDollar(update[0].key) && update[0].key !in {"$set", "$inc", "$unset"} ==>
              ApplyUpdate(e, d, update) == Fail(115)
    ensures |update| == 1 && update[0].key in {"$set", "$inc", "$unset"} && !update[0].value.Document? ==> ApplyUpdate(e, d, update) == Fail(14)
  {
    DollarStarts(update[i].key);
    DollarStarts(update[j].key);
    DollarStarts(update[0].key);
  }

  ghost predicate AllOperators(update: Doc) {
    update != [] && forall i :: 0 <= i < |update| ==> StartsWithDollar(update[i].key)
  }

  lemma OperatorsApply(e: Engine, d: Doc, update: Doc)
    requires AllOperators(update)
    ensures ApplyUpdate(e, d, update) == ApplyOperators(e, d, update)
  {
    forall i | 0 <= i < |update| ensures Dollar(update[i].key) {
      DollarStarts(update[i].key);
    }
  }

  lemma {:induction false} OperatorsJoin(e: Engine, d: Doc, a: Doc, b: Doc)
    ensures var first := ApplyOperators(e, d, a);
            ApplyOperators(e, d, a + b) == if first.Fail? then first else ApplyOperators(e, first.value, b)
    decreases |a|
  {
    if a == [] {
      assert a + b == b;
    } else {
      assert (a + b)[0] == a[0] && (a + b)[1..] == a[1..] + b;
      var one := ApplyOperator(e, d, a[0]);
      if one.Ok? {
        OperatorsJoin(e, one.value, a[1..], b);
      }
    }
  }

  /** An update of several operators is the later made of what the earlier leave, and fails with the first that does. */
  lemma UpdatesInOrder(e: Engine, d: Doc, a: Doc, b: Doc)
    requires AllOperators(a) && AllOperators(b)
    ensures var first := ApplyUpdate(e, d, a);
            ApplyUpdate(e, d, a + b) == if first.Fail? then first else ApplyUpdate(e, first.value, b)
  {
    OperatorsApply(e, d, a);
    OperatorsApply(e, d, a + b);
    OperatorsJoin(e, d, a, b);
    if ApplyUpdate(e, d, a).Ok? {
      OperatorsApply(e, ApplyUpdate(e, d, a).value, b);
    }
  }

  lemma {:induction false} ChangesJoin(e: Engine, operator: string, d: Doc, a: Doc, b: Doc)
    requires KnownOperator(operator)
    ensures var first := ApplyChanges(e, operator, d, a);
            ApplyChanges(e, operator, d, a + b) == if first.Fail? then first else ApplyChanges(e, operator, first.value, b)
    decreases |a|
  {
    if a == [] {
      assert a + b == b;
    } else {
      assert (a + b)[0] == a[0] && (a + b)[1..] == a[1..] + b;
      var one := ApplyChange(e, operator, d, a[0]);
      if one.Ok? {
        ChangesJoin(e, operator, one.value, a[1..], b);
      }
    }
  }

  lemma OperatorApplies(e: Engine, d: Doc, operator: string, changes: Doc)
    requires KnownOperator(operator)
    ensures ApplyUpdate(e, d, [Field(operator, Document(changes))]) == ApplyChanges(e, operator, d, changes)
  {
    var update := [Field(operator, Document(changes))];
    assert Dollar(update[0].key) && !MixedShape(update) && update[1..] == [];
    assert ApplyOperators(e, d, update) == ApplyOperator(e, d, update[0]);
  }

  /** And so are the paths of one operator, in the order they are given. */
  lemma PathsInOrder(e: Engine, d: Doc, operator: string, a: Doc, b: Doc)
    requires operator in {"$set", "$inc", "$unset"}
    ensures var first := ApplyUpdate(e, d, [Field(operator, Document(a))]);
            ApplyUpdate(e, d, [Field(operator, Document(a + b))]) ==
            if first.Fail? then first else ApplyUpdate(e, first.value, [Field(operator, Document(b))])
  {
    OperatorApplies(e, d, operator, a);
    OperatorApplies(e, d, operator, a + b);
    ChangesJoin(e, operator, d, a, b);
    var first := ApplyUpdate(e, d, [Field(operator, Document(a))]);
    if first.Ok? {
      OperatorApplies(e, first.value, operator, b);
    }
  }

  /** `$inc` leaves the sum where a number was and the amount where nothing was, and fails on anything else. */
  lemma IncMeans(e: Engine, d: Doc, path: string, amount: Value)
    ensures var r := ApplyUpdate(e, d, Single("$inc", path, amount));
            var held := ValueAt(d, PathOf(path));
            && (!amount.Number? || (held.Some? && !held.value.Number?) ==> r == Fail(14))
            && (r.Ok? ==> ValueAt(r.value, PathOf(path)) == Some(if held.None? then amount else Sum(e, held.value, amount)))
  {
    SingleApplies(e, d, "$inc", path, amount);
    var held := ValueAt(d, PathOf(path));
    if amount.Number? && (held.Some? ==> held.value.Number?) {
      var v := if held.None? then amount else Sum(e, held.value, amount);
      if SetPath(d, PathOf(path), v).Ok? {
        SetThenRead(d, PathOf(path), v);
      }
    }
  }
}
