/**
 No two documents of a collection have equal identifiers, whatever mix of
 inserts, updates, replacements, upserts, deletes and drops is sent and wherever
 a batch breaks off, if and only if no update stores a NaN in an identifier
 where there was a number.
 */
module DocIdentifiers {
  import opened Common
  import opened Bson
  import opened DocUpdate
  import opened DocQuery
  import opened DocStore
  import Routing

  ghost predicate Unique(docs: seq<Doc>) {
    forall i, j :: 0 <= i < j < |docs| ==> !Equal(IdOf(docs[i]), IdOf(docs[j]))
  }

  // ----- one document written -----

  lemma {:induction false} LocatedExact(docs: seq<Doc>, id: Value)
    ensures Located(docs, id) <==> exists i :: 0 <= i < |docs| && Equal(IdOf(docs[i]), id)
  {
    if docs != [] {
      var rest := docs[1..];
      LocatedExact(rest, id);
      assert forall i :: 0 <= i < |rest| ==> rest[i] == docs[i + 1];
      if exists i :: 0 <= i < |docs| && Equal(IdOf(docs[i]), id) {
        var i :| 0 <= i < |docs| && Equal(IdOf(docs[i]), id);
        if i > 0 { assert rest[i - 1] == docs[i]; }
      }
    }
  }

  lemma StoredId(d: Doc, minted: Value)
    ensures IdOf(Stored(d, minted)) == IdentifierOf(d, minted)
  {
  }

  /** An insert keeps identifiers unique whatever values are sent. */
  lemma InsertUnique(docs: seq<Doc>, d: Doc, minted: Value)
    requires Unique(docs)
    ensures Insert(docs, d, minted).Ok? ==> Unique(Insert(docs, d, minted).value)
  {
    LocatedExact(docs, IdentifierOf(d, minted));
    StoredId(d, minted);
  }

  /** Putting a document in the place of another keeps identifiers unique exactly when no other one equals the new one. */
  lemma ReplaceExact(docs: seq<Doc>, i: nat, updated: Doc)
    requires Unique(docs) && i < |docs|
    ensures Unique(docs[i := updated]) <==> forall j :: 0 <= j < |docs| && j != i ==> !Equal(IdOf(docs[j]), IdOf(updated))
  {
    var r := docs[i := updated];
    forall j | 0 <= j < |docs| && j != i
      ensures Equal(IdOf(r[j]), IdOf(r[i])) <==> Equal(IdOf(docs[j]), IdOf(updated))
      ensures Equal(IdOf(r[i]), IdOf(r[j])) <==> Equal(IdOf(docs[j]), IdOf(updated))
    {
      EqualIsEquivalence(IdOf(updated), IdOf(docs[j]), Null);
    }
    if forall j :: 0 <= j < |docs| && j != i ==> !Equal(IdOf(docs[j]), IdOf(updated)) {
      forall a, b | 0 <= a < b < |r| ensures !Equal(IdOf(r[a]), IdOf(r[b])) {
        if a != i && b != i { assert !Equal(IdOf(docs[a]), IdOf(docs[b])); }
      }
    } else {
      var j :| 0 <= j < |docs| && j != i && Equal(IdOf(docs[j]), IdOf(updated));
      var a, b := if j < i then j else i, if j < i then i else j;
      assert Equal(IdOf(r[a]), IdOf(r[b]));
    }
  }

  /** An equal identifier that blurs nothing may replace another, in any collection. */
  lemma ReplaceUnique(docs: seq<Doc>, i: nat, updated: Doc)
    requires Unique(docs) && i < |docs| && Equal(IdOf(docs[i]), IdOf(updated)) && !Blurs(IdOf(docs[i]), IdOf(updated))
    ensures Unique(docs[i := updated])
  {
    ReplaceExact(docs, i, updated);
    forall j | 0 <= j < |docs| && j != i ensures !Equal(IdOf(docs[j]), IdOf(updated)) {
      EqualIsEquivalence(IdOf(docs[j]), IdOf(docs[i]), Null);
      assert !Equal(IdOf(docs[j]), IdOf(docs[i])) by {
        if j < i { assert !Equal(IdOf(docs[j]), IdOf(docs[i])); } else { assert !Equal(IdOf(docs[i]), IdOf(docs[j])); }
      }
      if Equal(IdOf(docs[j]), IdOf(updated)) {
        SharpCarries(IdOf(docs[j]), IdOf(updated), IdOf(docs[i]));
      }
    }
  }

  // ----- exactly which updates are safe -----

  /** The update, applied to this document, is stored and has a NaN in `_id` where there was a number. */
  ghost predicate Blurring(e: Engine, d: Doc, change: Doc) {
    var updated := ApplyUpdate(e, d, change);
    && updated.Ok? && Equal(IdOf(d), IdOf(updated.value))
    && CompareFields(d, updated.value) != 0 && Blurs(IdOf(d), IdOf(updated.value))
  }

  /** The update keeps identifiers unique in this collection, whichever document it rewrites. */
  ghost predicate KeepsUnique(e: Engine, docs: seq<Doc>, change: Doc) {
    forall i :: 0 <= i < |docs| && RewriteOne(e, docs, i, change).Ok? ==> Unique(RewriteOne(e, docs, i, change).value.0)
  }

  lemma RewriteOneUnique(e: Engine, docs: seq<Doc>, i: nat, change: Doc)
    requires Unique(docs) && i < |docs| && !Blurring(e, docs[i], change)
    ensures RewriteOne(e, docs, i, change).Ok? ==> Unique(RewriteOne(e, docs, i, change).value.0)
  {
    var updated := ApplyUpdate(e, docs[i], change);
    if updated.Ok? && Equal(IdOf(docs[i]), IdOf(updated.value)) && CompareFields(docs[i], updated.value) != 0 {
      ReplaceUnique(docs, i, updated.value);
    }
  }

  /** A collection of two in which the blurred identifier meets one it now equals. */
  lemma BlurringCollides(e: Engine, d: Doc, change: Doc)
    requires Blurring(e, d, change)
    ensures exists other :: Unique([d, other]) && !KeepsUnique(e, [d, other], change)
  {
    var updated := ApplyUpdate(e, d, change).value;
    var id := Apart(IdOf(d), IdOf(updated));
    var other := [Field(ID, id)];
    var docs := [d, other];
    ApartTellsThem(IdOf(d), IdOf(updated));
    assert IdOf(other) == id;
    EqualIsEquivalence(id, IdOf(d), Null);
    assert Unique(docs);
    ReplaceExact(docs, 0, updated);
    assert docs[1] == other;
    assert RewriteOne(e, docs, 0, change) == Ok((docs[0 := updated], true));
    assert !KeepsUnique(e, docs, change);
  }

  /** An update keeps identifiers unique in every collection if and only if it blurs the identifier of no document. */
  lemma KeepsUniqueExactly(e: Engine, change: Doc)
    ensures (forall docs :: Unique(docs) ==> KeepsUnique(e, docs, change)) <==> SharpChange(e, change)
  {
    if d :| Blurring(e, d, change) {
      BlurringCollides(e, d, change);
    } else {
      forall docs | Unique(docs) ensures KeepsUnique(e, docs, change) {
        forall i | 0 <= i < |docs| && RewriteOne(e, docs, i, change).Ok?
          ensures Unique(RewriteOne(e, docs, i, change).value.0)
        {
          RewriteOneUnique(e, docs, i, change);
        }
      }
    }
  }

  // ----- whole runs -----

  /** The update blurs the identifier of no document. */
  ghost predicate SharpChange(e: Engine, change: Doc) {
    forall d :: !Blurring(e, d, change)
  }

  lemma {:induction false} RewriteUnique(e: Engine, docs: seq<Doc>, selected: seq<nat>, change: Doc, done: Counts)
    requires forall i :: 0 <= i < |selected| ==> selected[i] < |docs|
    requires Unique(docs) && SharpChange(e, change)
    ensures Unique(Rewrite(e, docs, selected, change, done).0)
    decreases |selected|
  {
    if selected != [] {
      RewriteOneUnique(e, docs, selected[0], change);
      var one := RewriteOne(e, docs, selected[0], change);
      if one.Ok? {
        RewriteUnique(e, one.value.0, selected[1..], change,
                      Counts(done.matched + 1, done.modified + if one.value.1 then 1 else 0));
      }
    }
  }

  lemma UpdateUnique(e: Engine, docs: seq<Doc>, u: UpdateSpec)
    requires Unique(docs) && SharpChange(e, u.change)
    ensures Unique(Update(e, docs, u).0)
  {
    var selected := SelectFor(e, docs, 0, u.filter, u.multi);
    if selected.Ok? {
      SelectForAscends(e, docs, 0, u.filter, u.multi);
      RewriteUnique(e, docs, selected.value, u.change, Counts(0, 0));
      var created := Upsert(e, u.filter, u.change, u.minted);
      if created.Ok? {
        InsertUnique(docs, created.value, u.minted);
      }
    }
  }

  lemma DeleteOneUnique(docs: seq<Doc>, i: nat)
    requires Unique(docs) && i < |docs|
    ensures Unique(docs[..i] + docs[i + 1..])
  {
    var r := docs[..i] + docs[i + 1..];
    assert forall a :: 0 <= a < |r| ==> r[a] == docs[if a < i then a else a + 1];
  }

  lemma {:induction false} DeletedUnique(docs: seq<Doc>, selected: seq<nat>)
    requires (forall i :: 0 <= i < |selected| ==> selected[i] < |docs|)
    requires (forall i, j :: 0 <= i < j < |selected| ==> selected[i] < selected[j]) && Unique(docs)
    ensures Unique(Deleted(docs, selected))
    decreases |selected|
  {
    if selected != [] {
      var last := selected[|selected| - 1];
      DeleteOneUnique(docs, last);
      DeletedUnique(docs[..last] + docs[last + 1..], selected[..|selected| - 1]);
    }
  }

  lemma RemoveUnique(e: Engine, docs: seq<Doc>, filter: Doc, limit: int)
    requires Unique(docs)
    ensures Unique(Remove(e, docs, filter, limit).0)
  {
    if limit == 0 || limit == 1 {
      var selected := SelectFor(e, docs, 0, filter, limit == 0);
      if selected.Ok? {
        SelectForAscends(e, docs, 0, filter, limit == 0);
        DeletedUnique(docs, selected.value);
      }
    }
  }

  lemma {:induction false} InsertBatchUnique(docs: seq<Doc>, batch: seq<Minted>, ordered: bool)
    requires Unique(docs)
    ensures Unique(InsertBatch(docs, batch, ordered))
    decreases |batch|
  {
    if batch != [] {
      InsertUnique(docs, batch[0].doc, batch[0].id);
      var next := Insert(docs, batch[0].doc, batch[0].id);
      if next.Ok? {
        InsertBatchUnique(next.value, batch[1..], ordered);
      } else if !ordered {
        InsertBatchUnique(docs, batch[1..], ordered);
      }
    }
  }

  /** None of the updates blurs the identifier of any document. */
  ghost predicate Sharp(e: Engine, specs: seq<UpdateSpec>) {
    forall i :: 0 <= i < |specs| ==> SharpChange(e, specs[i].change)
  }

  lemma {:induction false} UpdateBatchUnique(e: Engine, docs: seq<Doc>, specs: seq<UpdateSpec>)
    requires Unique(docs) && Sharp(e, specs)
    ensures Unique(UpdateBatch(e, docs, specs))
    decreases |specs|
  {
    if specs != [] {
      UpdateUnique(e, docs, specs[0]);
      if Update(e, docs, specs[0]).1.Ok? {
        UpdateBatchUnique(e, Update(e, docs, specs[0]).0, specs[1..]);
      }
    }
  }

  lemma {:induction false} DeleteBatchUnique(e: Engine, docs: seq<Doc>, filters: seq<(Doc, int)>)
    requires Unique(docs)
    ensures Unique(DeleteBatch(e, docs, filters))
    decreases |filters|
  {
    if filters != [] {
      RemoveUnique(e, docs, filters[0].0, filters[0].1);
      if Remove(e, docs, filters[0].0, filters[0].1).1.Ok? {
        DeleteBatchUnique(e, Remove(e, docs, filters[0].0, filters[0].1).0, filters[1..]);
      }
    }
  }

  lemma {:induction false} RunUnique(e: Engine, docs: seq<Doc>, commands: seq<Command>)
    requires Unique(docs) && forall i :: 0 <= i < |commands| && commands[i].UpdateMany? ==> Sharp(e, commands[i].specs)
    ensures Unique(Run(e, docs, commands))
    decreases |commands|
  {
    if commands != [] {
      match commands[0] {
        case InsertMany(batch, ordered) => InsertBatchUnique(docs, batch, ordered);
        case UpdateMany(specs) => UpdateBatchUnique(e, docs, specs);
        case DeleteMany(filters) => DeleteBatchUnique(e, docs, filters);
        case Drop =>
      }
      RunUnique(e, Step(e, docs, commands[0]), commands[1..]);
    }
  }

  /** After any run of such commands from an empty collection no two documents have equal identifiers. */
  lemma IdentifiersUnique(e: Engine, commands: seq<Command>, i: nat, j: nat)
    requires forall k :: 0 <= k < |commands| && commands[k].UpdateMany? ==> Sharp(e, commands[k].specs)
    requires i < j < |Run(e, [], commands)|
    ensures !Equal(IdOf(Run(e, [], commands)[i]), IdOf(Run(e, [], commands)[j]))
  {
    RunUnique(e, [], commands);
  }

  // ----- what a NaN does -----

  const NOT_A_NUMBER := Bson.Number(NaN, None)

  lemma NanEqualsNumbers(v: Value, nan: Value)
    requires nan.Number? && nan.key.NaN?
    ensures Equal(v, nan) <==> v.Number?
  {
  }

  /**
   Rewriting a number to NaN in `_id` passes the check; the document is stored
   only if something else of it changes, and then identifiers stay unique exactly
   when no other one is a number.
   */
  lemma NanIdExact(e: Engine, docs: seq<Doc>, i: nat, change: Doc)
    requires Unique(docs) && i < |docs| && IdOf(docs[i]).Number? && ApplyUpdate(e, docs[i], change).Ok?
    requires var id := IdOf(ApplyUpdate(e, docs[i], change).value); id.Number? && id.key.NaN?
    ensures RewriteOne(e, docs, i, change).Ok?
    ensures var (r, changed) := RewriteOne(e, docs, i, change).value;
            Unique(r) <==> !changed || forall j :: 0 <= j < |docs| && j != i ==> !IdOf(docs[j]).Number?
  {
    var updated := ApplyUpdate(e, docs[i], change).value;
    NanEqualsNumbers(IdOf(docs[i]), IdOf(updated));
    ReplaceExact(docs, i, updated);
    forall j | 0 <= j < |docs| ensures Equal(IdOf(docs[j]), IdOf(updated)) <==> IdOf(docs[j]).Number? {
      NanEqualsNumbers(IdOf(docs[j]), IdOf(updated));
    }
  }

  function Float(n: real): Value {
    Bson.Number(Finite(n), None)
  }

  lemma IdPath()
    ensures PathOf(ID) == [ID] && PathOf("x") == ["x"]
  {
    assert Routing.Join([ID]) == ID && Routing.Join(["x"]) == "x";
    Routing.JoinSplit([ID]);
    Routing.JoinSplit(["x"]);
  }

  lemma OneField(id: Value, now: Value, x: Value)
    ensures Lookup([Field(ID, id)], ID) == Some(id) && Lookup([Field(ID, id)], "x") == None
    ensures Without([Field(ID, id)], ID) == []
    ensures WithField([Field(ID, id)], ID, now) == [Field(ID, now)]
    ensures WithField([Field(ID, id)], "x", x) == [Field(ID, id), Field("x", x)]
  {
    var d := [Field(ID, id)];
    assert d[1..] == [];
    assert |"x"| != |ID|;
    assert Lookup(d[1..], "x") == None && WithField(d[1..], "x", x) == [Field("x", x)] && Without(d[1..], ID) == [];
  }

  lemma LocatedOne(id: Value, wanted: Value)
    ensures Located([[Field(ID, id)]], wanted) == Equal(id, wanted)
  {
    OneField(id, id, id);
    assert [[Field(ID, id)]][1..] == [];
  }

  /** A collection of two documents, and an update of the first. */
  function TwoThen(first: Value, second: Value, change: Doc): seq<Command> {
    [InsertMany([Minted([Field(ID, first)], Null), Minted([Field(ID, second)], Null)], true),
     UpdateMany([UpdateSpec([], change, false, false, Null)])]
  }

  lemma TwoInserted(first: Value, second: Value)
    requires !Equal(first, second)
    ensures InsertBatch([], [Minted([Field(ID, first)], Null), Minted([Field(ID, second)], Null)], true) ==
            [[Field(ID, first)], [Field(ID, second)]]
  {
    var a, b := [Field(ID, first)], [Field(ID, second)];
    OneField(first, first, first);
    OneField(second, second, second);
    LocatedOne(first, second);
    assert Stored(a, Null) == a && Stored(b, Null) == b;
    assert [] + [a] == [a] && [a] + [b] == [a, b];
    assert Insert([], a, Null) == Ok([a]);
    assert Insert([a], b, Null) == Ok([a, b]);
    assert [Minted(a, Null), Minted(b, Null)][1..] == [Minted(b, Null)];
    assert [Minted(b, Null)][1..] == [];
    assert InsertBatch([a], [Minted(b, Null)], true) == [a, b];
  }

  /** An update without a filter rewrites the first document. */
  lemma FirstRewritten(e: Engine, docs: seq<Doc>, change: Doc)
    requires docs != [] && RewriteOne(e, docs, 0, change).Ok?
    ensures UpdateBatch(e, docs, [UpdateSpec([], change, false, false, Null)]) == RewriteOne(e, docs, 0, change).value.0
  {
    var u := UpdateSpec([], change, false, false, Null);
    assert Matches(e, docs[0], []) == Ok(true);
    assert SelectFor(e, docs, 0, [], false) == Ok([0]);
    var one := RewriteOne(e, docs, 0, change).value;
    var counts := Counts(1, if one.1 then 1 else 0);
    assert [0][1..] == [];
    assert Rewrite(e, one.0, [0][1..], change, counts) == (one.0, Ok(counts));
    assert Rewrite(e, docs, [0], change, Counts(0, 0)) == (one.0, Ok(counts));
    assert Update(e, docs, u) == (one.0, Ok(counts));
    assert [u][1..] == [];
    assert UpdateBatch(e, one.0, [u][1..]) == one.0;
  }

  lemma TwoRun(e: Engine, first: Value, second: Value, change: Doc)
    requires !Equal(first, second) && RewriteOne(e, [[Field(ID, first)], [Field(ID, second)]], 0, change).Ok?
    ensures Run(e, [], TwoThen(first, second, change)) ==
            RewriteOne(e, [[Field(ID, first)], [Field(ID, second)]], 0, change).value.0
  {
    var docs := [[Field(ID, first)], [Field(ID, second)]];
    var commands := TwoThen(first, second, change);
    TwoInserted(first, second);
    FirstRewritten(e, docs, change);
    assert Step(e, [], commands[0]) == docs;
    assert commands[1..][0] == commands[1] && commands[1..][1..] == [];
    var r := Step(e, docs, commands[1]);
    assert Run(e, r, commands[1..][1..]) == r;
    assert Run(e, docs, commands[1..]) == r;
  }

  lemma OneOperator(e: Engine, d: Doc, operator: Field)
    requires Dollar(operator.key)
    ensures ApplyUpdate(e, d, [operator]) == ApplyOperator(e, d, operator)
  {
    var update := [operator];
    assert !MixedShape(update) && update[1..] == [];
    var r := ApplyOperator(e, d, operator);
    assert r.Ok? ==> ApplyOperators(e, r.value, update[1..]) == r;
  }

  lemma SetOnBoth(e: Engine, id: Value, now: Value, x: Value)
    ensures ApplyUpdate(e, [Field(ID, id)], [Field("$set", Document([Field(ID, now), Field("x", x)]))]) ==
            Ok([Field(ID, now), Field("x", x)])
  {
    IdPath();
    OneField(id, now, x);
    OneField(now, now, x);
    var changes := [Field(ID, now), Field("x", x)];
    assert changes[1..] == [Field("x", x)] && changes[1..][1..] == [];
    assert ApplyChanges(e, "$set", [Field(ID, now)], changes[1..]) == Ok([Field(ID, now), Field("x", x)]);
    assert ApplyChanges(e, "$set", [Field(ID, id)], changes) == Ok([Field(ID, now), Field("x", x)]);
    OneOperator(e, [Field(ID, id)], Field("$set", Document(changes)));
  }

  lemma IncOnBoth(e: Engine, id: Value, amount: Value, x: Value)
    requires id.Number? && amount.Number? && x.Number?
    ensures ApplyUpdate(e, [Field(ID, id)], [Field("$inc", Document([Field(ID, amount), Field("x", x)]))]) ==
            Ok([Field(ID, Sum(e, id, amount)), Field("x", x)])
  {
    IdPath();
    var now := Sum(e, id, amount);
    OneField(id, now, x);
    OneField(now, now, x);
    var changes := [Field(ID, amount), Field("x", x)];
    assert changes[1..] == [Field("x", x)] && changes[1..][1..] == [];
    assert ApplyChange(e, "$inc", [Field(ID, id)], changes[0]) == Ok([Field(ID, now)]);
    assert ApplyChanges(e, "$inc", [Field(ID, now)], changes[1..]) == Ok([Field(ID, now), Field("x", x)]);
    assert ApplyChanges(e, "$inc", [Field(ID, id)], changes) == Ok([Field(ID, now), Field("x", x)]);
    OneOperator(e, [Field(ID, id)], Field("$inc", Document(changes)));
  }

  lemma BlurredPair(e: Engine, first: Value, second: Value, change: Doc, x: Value)
    requires first.Number? && second.Number? && !Equal(first, second)
    requires ApplyUpdate(e, [Field(ID, first)], change) == Ok([Field(ID, NOT_A_NUMBER), Field("x", x)])
    ensures !Unique(Run(e, [], TwoThen(first, second, change)))
  {
    var docs := [[Field(ID, first)], [Field(ID, second)]];
    var updated := [Field(ID, NOT_A_NUMBER), Field("x", x)];
    assert CompareFields(docs[0], updated) != 0;
    assert RewriteOne(e, docs, 0, change) == Ok((docs[0 := updated], true));
    TwoRun(e, first, second, change);
    var r := Run(e, [], TwoThen(first, second, change));
    assert r[0] == updated && r[1] == docs[1];
    OneField(second, second, second);
    assert Equal(IdOf(r[0]), IdOf(r[1]));
  }

  /** A run that ends with two equal identifiers: a NaN set. */
  lemma NanSetRun(e: Engine)
    ensures var set_ := [Field("$set", Document([Field(ID, NOT_A_NUMBER), Field("x", Float(1.0))]))];
            !Unique(Run(e, [], TwoThen(Float(1.0), Float(2.0), set_)))
  {
    SetOnBoth(e, Float(1.0), NOT_A_NUMBER, Float(1.0));
    BlurredPair(e, Float(1.0), Float(2.0), [Field("$set", Document([Field(ID, NOT_A_NUMBER), Field("x", Float(1.0))]))], Float(1.0));
  }

  /** Another, in which nobody sent a NaN: opposite infinities added. */
  lemma InfinitiesRun(e: Engine)
    ensures var up, down := Bson.Number(PosInf, None), Bson.Number(NegInf, None);
            !Unique(Run(e, [], TwoThen(up, Float(5.0), [Field("$inc", Document([Field(ID, down), Field("x", Float(1.0))]))])))
  {
    var up, down := Bson.Number(PosInf, None), Bson.Number(NegInf, None);
    IncOnBoth(e, up, down, Float(1.0));
    BlurredPair(e, up, Float(5.0), [Field("$inc", Document([Field(ID, down), Field("x", Float(1.0))]))], Float(1.0));
  }

  // ----- sending an update again -----

  /** The update may be made of the document, and the document it leaves. */
  ghost predicate Allows(e: Engine, d: Doc, change: Doc) {
    ApplyUpdate(e, d, change).Ok? && Equal(IdOf(d), IdOf(ApplyUpdate(e, d, change).value))
  }

  ghost function Left(e: Engine, d: Doc, change: Doc): Doc
    requires Allows(e, d, change)
  {
    var updated := ApplyUpdate(e, d, change).value;
    if CompareFields(d, updated) != 0 then updated else d
  }

  lemma RewriteOneLeaves(e: Engine, docs: seq<Doc>, i: nat, change: Doc)
    requires i < |docs|
    ensures RewriteOne(e, docs, i, change).Ok? <==> Allows(e, docs[i], change)
    ensures Allows(e, docs[i], change) ==> RewriteOne(e, docs, i, change).value.0 == docs[i := Left(e, docs[i], change)]
  {
    assert docs[i := docs[i]] == docs;
  }

  /** The document is one the update matches and does not modify. */
  ghost predicate Settled(e: Engine, d: Doc, change: Doc) {
    Allows(e, d, change) && CompareFields(d, ApplyUpdate(e, d, change).value) == 0
  }

  /** Made once, the update is settled, whether the first time changed the document or not. */
  ghost predicate Settling(e: Engine, change: Doc) {
    forall d {:trigger Left(e, d, change)} :: Allows(e, d, change) ==> Settled(e, Left(e, d, change), change)
  }

  lemma SetIsSettling(e: Engine, changes: Doc)
    requires Unrelated(changes)
    ensures Settling(e, [Field("$set", Document(changes))])
  {
    var change := [Field("$set", Document(changes))];
    forall d | Allows(e, d, change) ensures Settled(e, Left(e, d, change), change) {
      SetTwice(e, d, changes);
      CompareReflexive(IdOf(ApplyUpdate(e, d, change).value));
    }
  }

  ghost predicate AllSettled(e: Engine, docs: seq<Doc>, selected: seq<nat>, change: Doc) {
    forall i :: 0 <= i < |selected| ==> selected[i] < |docs| && Settled(e, docs[selected[i]], change)
  }

  lemma {:induction false} SettledRewrites(e: Engine, docs: seq<Doc>, selected: seq<nat>, change: Doc, done: Counts)
    requires AllSettled(e, docs, selected, change)
    ensures Rewrite(e, docs, selected, change, done) == (docs, Ok(Counts(done.matched + |selected|, done.modified)))
    decreases |selected|
  {
    if selected != [] {
      assert RewriteOne(e, docs, selected[0], change) == Ok((docs, false));
      SettledRewrites(e, docs, selected[1..], change, Counts(done.matched + 1, done.modified));
    }
  }

  lemma {:induction false} RewrittenSettles(e: Engine, docs: seq<Doc>, selected: seq<nat>, change: Doc, done: Counts)
    requires (forall i :: 0 <= i < |selected| ==> selected[i] < |docs|)
    requires (forall i, j :: 0 <= i < j < |selected| ==> selected[i] < selected[j]) && Settling(e, change)
    requires Rewrite(e, docs, selected, change, done).1.Ok?
    ensures var first := Rewrite(e, docs, selected, change, done).0;
            && (forall j :: 0 <= j < |docs| && j !in selected ==> first[j] == docs[j])
            && AllSettled(e, first, selected, change)
    decreases |selected|
  {
    if selected != [] {
      RewriteOneLeaves(e, docs, selected[0], change);
      var one := RewriteOne(e, docs, selected[0], change).value;
      var rest := selected[1..];
      var counts := Counts(done.matched + 1, done.modified + if one.1 then 1 else 0);
      RewrittenSettles(e, one.0, rest, change, counts);
      var first := Rewrite(e, one.0, rest, change, counts).0;
      assert selected[0] !in rest;
      forall i | 0 <= i < |selected| ensures selected[i] < |first| && Settled(e, first[selected[i]], change) {
        if i > 0 { assert selected[i] == rest[i - 1]; }
      }
    }
  }

  /** The positions an update selects: inside the collection, in order. */
  ghost predicate Positions(docs: seq<Doc>, selected: seq<nat>) {
    && (forall i :: 0 <= i < |selected| ==> selected[i] < |docs|)
    && (forall i, j :: 0 <= i < j < |selected| ==> selected[i] < selected[j])
  }

  lemma UpdateAgainUnmodified(e: Engine, docs: seq<Doc>, selected: seq<nat>, change: Doc, first: seq<Doc>, counts: Counts)
    requires Positions(docs, selected) && Settling(e, change)
    requires Rewrite(e, docs, selected, change, Counts(0, 0)) == (first, Ok(counts))
    ensures Positions(first, selected) && Rewrite(e, first, selected, change, Counts(0, 0)) == (first, Ok(Counts(|selected|, 0)))
  {
    RewrittenSettles(e, docs, selected, change, Counts(0, 0));
    SettledRewrites(e, first, selected, change, Counts(0, 0));
  }

  /** A $set of unrelated paths sent again to what it selected matches all of it and modifies none. */
  lemma SetAgainUnmodified(e: Engine, docs: seq<Doc>, selected: seq<nat>, changes: Doc, first: seq<Doc>, counts: Counts)
    requires Positions(docs, selected) && Unrelated(changes)
    requires Rewrite(e, docs, selected, [Field("$set", Document(changes))], Counts(0, 0)) == (first, Ok(counts))
    ensures Positions(first, selected)
    ensures Rewrite(e, first, selected, [Field("$set", Document(changes))], Counts(0, 0)) == (first, Ok(Counts(|selected|, 0)))
  {
    SetIsSettling(e, changes);
    UpdateAgainUnmodified(e, docs, selected, [Field("$set", Document(changes))], first, counts);
  }
}
