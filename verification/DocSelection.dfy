/**
 Which documents a command is about: those a filter finds and in which order,
 those an update rewrites and how many it counts, those of a batch that are
 stored, the one a delete of one takes, and what a window and a sort key choose.
 */
module DocSelection {
  import opened Common
  import opened Bson
  import opened DocUpdate
  import opened DocReach
  import opened DocQuery
  import opened DocStore
  import opened DocIdentifiers
  import opened DocMeaning
  import opened DocFind

  // ----- finding and selecting -----

  ghost function MatchTest(e: Engine, filter: Doc): Doc -> bool {
    (d: Doc) => Matches(e, d, filter) == Ok(true)
  }

  /** A find answers the documents that match, in the order the collection holds them, and fails with the first that cannot be decided. */
  lemma {:induction false} FindMeans(e: Engine, docs: seq<Doc>, filter: Doc) returns (at: seq<nat>)
    ensures Find(e, docs, filter).Ok? ==> Chosen(Find(e, docs, filter).value, docs, at, MatchTest(e, filter))
    ensures Find(e, docs, filter).Fail? <==> exists j :: 0 <= j < |docs| && Matches(e, docs[j], filter).Fail?
  {
    at := [];
    if docs == [] {
      ChosenNone(MatchTest(e, filter));
    } else {
      var rest := docs[1..];
      var later := FindMeans(e, rest, filter);
      assert forall j :: 0 <= j < |rest| ==> rest[j] == docs[j + 1];
      if exists j :: 0 <= j < |docs| && Matches(e, docs[j], filter).Fail? {
        var j :| 0 <= j < |docs| && Matches(e, docs[j], filter).Fail?;
        assert j > 0 ==> Matches(e, rest[j - 1], filter).Fail?;
      }
      if Find(e, docs, filter).Ok? {
        ChosenCons(Find(e, rest, filter).value, docs, later, MatchTest(e, filter));
        at := if Matches(e, docs[0], filter) == Ok(true) then [0] + Shifted(later) else Shifted(later);
      }
    }
  }

  ghost predicate FirstMatch(e: Engine, docs: seq<Doc>, from: nat, filter: Doc, k: nat) {
    && from <= k < |docs| && Matches(e, docs[k], filter) == Ok(true)
    && forall j :: from <= j < k ==> Matches(e, docs[j], filter) != Ok(true)
  }

  /** The positions selected are those of all the matching documents, or of the first of them alone. */
  lemma {:induction false} SelectForMeans(e: Engine, docs: seq<Doc>, from: nat, filter: Doc, all: bool)
    requires from <= |docs| && SelectFor(e, docs, from, filter, all).Ok?
    ensures var s := SelectFor(e, docs, from, filter, all).value;
            && (all ==> forall j :: from <= j < |docs| ==> (j in s <==> Matches(e, docs[j], filter) == Ok(true)))
            && (!all ==> |s| <= 1)
            && (!all && s == [] ==> forall j :: from <= j < |docs| ==> Matches(e, docs[j], filter) != Ok(true))
            && (!all && s != [] ==> FirstMatch(e, docs, from, filter, s[0]))
    decreases |docs| - from
  {
    if from < |docs| && !(Matches(e, docs[from], filter) == Ok(true) && !all) {
      SelectForMeans(e, docs, from + 1, filter, all);
      SelectForAscends(e, docs, from + 1, filter, all);
    }
  }

  // ----- rewriting -----

  /** How many of the documents at the positions the update changes. */
  ghost function Modified(e: Engine, docs: seq<Doc>, selected: seq<nat>, change: Doc): nat
    requires forall i :: 0 <= i < |selected| ==> selected[i] < |docs|
  {
    if selected == [] then 0
    else
      (if Allows(e, docs[selected[0]], change) && Left(e, docs[selected[0]], change) != docs[selected[0]] then 1 else 0)
      + Modified(e, docs, selected[1..], change)
  }

  /** The first k selected documents are what the update makes of them, and all others what they were; the next one, if there is one, refuses it. */
  ghost predicate RewrittenTo(e: Engine, docs: seq<Doc>, selected: seq<nat>, change: Doc, k: nat, r: seq<Doc>)
    requires Positions(docs, selected)
  {
    && k <= |selected| && |r| == |docs|
    && (forall i :: 0 <= i < k ==> Allows(e, docs[selected[i]], change) && r[selected[i]] == Left(e, docs[selected[i]], change))
    && (forall j :: 0 <= j < |docs| && j !in selected[..k] ==> r[j] == docs[j])
    && (k < |selected| ==> !Allows(e, docs[selected[k]], change))
  }

  /** An update rewrites the selected documents in order until one refuses it, and succeeds if none does. */
  lemma {:induction false} RewriteMeans(e: Engine, docs: seq<Doc>, selected: seq<nat>, change: Doc, done: Counts) returns (k: nat)
    requires Positions(docs, selected)
    ensures var (r, outcome) := Rewrite(e, docs, selected, change, done);
            RewrittenTo(e, docs, selected, change, k, r) && (outcome.Ok? <==> k == |selected|)
    decreases |selected|
  {
    k := 0;
    if selected != [] {
      RewriteFirst(e, docs, selected, change, done);
      if Allows(e, docs[selected[0]], change) {
        var next := docs[selected[0] := Left(e, docs[selected[0]], change)];
        RestPositions(docs, selected);
        var n := RewriteMeans(e, next, selected[1..], change, Further(e, docs[selected[0]], change, done));
        k := n + 1;
        RewriteShift(e, docs, selected, change, next, Rewrite(e, docs, selected, change, done).0, n);
      }
    }
  }

  ghost function Further(e: Engine, d: Doc, change: Doc, done: Counts): Counts
    requires Allows(e, d, change)
  {
    Counts(done.matched + 1, done.modified + if Left(e, d, change) != d then 1 else 0)
  }

  lemma RewriteFirst(e: Engine, docs: seq<Doc>, selected: seq<nat>, change: Doc, done: Counts)
    requires Positions(docs, selected) && selected != []
    ensures var d := docs[selected[0]];
            if Allows(e, d, change)
            then Rewrite(e, docs, selected, change, done) ==
                 Rewrite(e, docs[selected[0] := Left(e, d, change)], selected[1..], change, Further(e, d, change, done))
            else Rewrite(e, docs, selected, change, done).0 == docs && Rewrite(e, docs, selected, change, done).1.Fail?
  {
    RewriteOneLeaves(e, docs, selected[0], change);
    if RewriteOne(e, docs, selected[0], change).Ok? {
      ChangedIsModified(e, docs, selected[0], change);
    }
  }

  lemma RestPositions(docs: seq<Doc>, selected: seq<nat>)
    requires Positions(docs, selected) && selected != []
    ensures Positions(docs, selected[1..]) && selected[0] !in selected[1..]
  {
  }

  lemma RewriteShift(e: Engine, docs: seq<Doc>, selected: seq<nat>, change: Doc, one: seq<Doc>, r: seq<Doc>, n: nat)
    requires Positions(docs, selected) && selected != [] && Positions(one, selected[1..]) && |one| == |docs|
    requires Allows(e, docs[selected[0]], change) && one == docs[selected[0] := Left(e, docs[selected[0]], change)]
    requires RewrittenTo(e, one, selected[1..], change, n, r)
    ensures RewrittenTo(e, docs, selected, change, n + 1, r)
  {
    var rest := selected[1..];
    RestPositions(docs, selected);
    assert selected[..n + 1] == [selected[0]] + rest[..n];
    forall i | 1 <= i < |selected| ensures rest[i - 1] == selected[i] && one[selected[i]] == docs[selected[i]] {
      assert selected[i] in rest;
    }
  }

  /** One document is refused by the update's own failure, or because its identifier would change. */
  lemma RefusalMeans(e: Engine, docs: seq<Doc>, i: nat, change: Doc)
    requires i < |docs| && !Allows(e, docs[i], change)
    ensures var updated := ApplyUpdate(e, docs[i], change);
            RewriteOne(e, docs, i, change) == if updated.Fail? then Fail(updated.code) else Fail(66)
  {
  }

  lemma {:induction false} ModifiedFrame(e: Engine, a: seq<Doc>, b: seq<Doc>, selected: seq<nat>, change: Doc)
    requires forall i :: 0 <= i < |selected| ==> selected[i] < |a| && selected[i] < |b| && a[selected[i]] == b[selected[i]]
    ensures Modified(e, a, selected, change) == Modified(e, b, selected, change)
  {
    if selected != [] {
      ModifiedFrame(e, a, b, selected[1..], change);
    }
  }

  lemma ChangedIsModified(e: Engine, docs: seq<Doc>, i: nat, change: Doc)
    requires i < |docs| && RewriteOne(e, docs, i, change).Ok?
    ensures Allows(e, docs[i], change)
    ensures RewriteOne(e, docs, i, change).value.1 <==> Left(e, docs[i], change) != docs[i]
  {
    FieldsReflexive(docs[i]);
  }

  /** The counts of an update that goes through: all that were selected, and those of them it left different. */
  lemma {:induction false} RewriteCounts(e: Engine, docs: seq<Doc>, selected: seq<nat>, change: Doc, done: Counts)
    requires Positions(docs, selected) && Rewrite(e, docs, selected, change, done).1.Ok?
    ensures Rewrite(e, docs, selected, change, done).1 ==
            Ok(Counts(done.matched + |selected|, done.modified + Modified(e, docs, selected, change)))
    decreases |selected|
  {
    if selected != [] {
      var rest := selected[1..];
      RewriteFirst(e, docs, selected, change, done);
      RestPositions(docs, selected);
      var next := docs[selected[0] := Left(e, docs[selected[0]], change)];
      RewriteCounts(e, next, rest, change, Further(e, docs[selected[0]], change, done));
      forall i | 0 <= i < |rest| ensures rest[i] < |docs| && next[rest[i]] == docs[rest[i]] { assert rest[i] in rest; }
      ModifiedFrame(e, next, docs, rest, change);
    }
  }

  // ----- the whole update -----

  /** The first document that cannot be decided, or, where one alone is wanted, such a document before any match. */
  ghost predicate Undecided(e: Engine, docs: seq<Doc>, from: nat, filter: Doc, all: bool, j: nat) {
    && from <= j < |docs| && Matches(e, docs[j], filter).Fail?
    && forall i :: from <= i < j ==> PassedBy(e, docs[i], filter, all)
  }

  ghost predicate PassedBy(e: Engine, d: Doc, filter: Doc, all: bool) {
    Matches(e, d, filter).Ok? && (all || Matches(e, d, filter) == Ok(false))
  }

  lemma {:induction false} SelectForFails(e: Engine, docs: seq<Doc>, from: nat, filter: Doc, all: bool)
    requires from <= |docs|
    ensures SelectFor(e, docs, from, filter, all).Fail? <==> exists j: nat :: Undecided(e, docs, from, filter, all, j)
    decreases |docs| - from
  {
    if from < |docs| {
      var next := from + 1;
      SelectForFails(e, docs, next, filter, all);
      if Matches(e, docs[from], filter).Fail? {
        assert Undecided(e, docs, from, filter, all, from);
      } else if all || Matches(e, docs[from], filter) == Ok(false) {
        if j: nat :| Undecided(e, docs, next, filter, all, j) {
          assert Undecided(e, docs, from, filter, all, j);
        }
        if j: nat :| Undecided(e, docs, from, filter, all, j) {
          assert Undecided(e, docs, next, filter, all, j);
        }
      }
    }
  }

  /** The positions of all that match, or of the first alone. */
  ghost predicate Wanted(e: Engine, docs: seq<Doc>, filter: Doc, all: bool, s: seq<nat>) {
    && Positions(docs, s)
    && (all ==> forall j :: 0 <= j < |docs| ==> (j in s <==> Matches(e, docs[j], filter) == Ok(true)))
    && (!all ==> |s| <= 1)
    && (!all && s == [] ==> forall j :: 0 <= j < |docs| ==> Matches(e, docs[j], filter) != Ok(true))
    && (!all && s != [] ==> FirstMatch(e, docs, 0, filter, s[0]))
  }

  lemma SelectedAreWanted(e: Engine, docs: seq<Doc>, filter: Doc, all: bool)
    requires SelectFor(e, docs, 0, filter, all).Ok?
    ensures Wanted(e, docs, filter, all, SelectFor(e, docs, 0, filter, all).value)
  {
    SelectForMeans(e, docs, 0, filter, all);
    SelectForAscends(e, docs, 0, filter, all);
  }

  /**
   An update that meets a document it cannot decide changes nothing. Otherwise it
   rewrites what is wanted, every match or the first, in order up to a refusal;
   where nothing is and it may create, it inserts what the upsert makes instead.
   */
  lemma UpdateMeans(e: Engine, docs: seq<Doc>, u: UpdateSpec) returns (s: seq<nat>, k: nat)
    ensures var (r, outcome) := Update(e, docs, u);
            if exists j: nat :: Undecided(e, docs, 0, u.filter, u.multi, j) then r == docs && outcome.Fail?
            else
              && Wanted(e, docs, u.filter, u.multi, s)
              && if s == [] && u.upsert then Created(e, docs, u, r, outcome)
                 else RewrittenTo(e, docs, s, u.change, k, r) && (outcome.Ok? <==> k == |s|)
                      && (outcome.Ok? ==> outcome.value == Counts(|s|, Modified(e, docs, s, u.change)))
  {
    s, k := [], 0;
    SelectForFails(e, docs, 0, u.filter, u.multi);
    var selected := SelectFor(e, docs, 0, u.filter, u.multi);
    if selected.Ok? {
      s := selected.value;
      SelectedAreWanted(e, docs, u.filter, u.multi);
      if s != [] || !u.upsert {
        k := RewriteMeans(e, docs, s, u.change, Counts(0, 0));
        if Rewrite(e, docs, s, u.change, Counts(0, 0)).1.Ok? {
          RewriteCounts(e, docs, s, u.change, Counts(0, 0));
        }
      } else {
        CreateMeans(e, docs, u);
      }
    }
  }

  lemma CreateMeans(e: Engine, docs: seq<Doc>, u: UpdateSpec)
    ensures Created(e, docs, u, Create(e, docs, u).0, Create(e, docs, u).1)
  {
    var made := Upsert(e, u.filter, u.change, u.minted);
    if made.Ok? {
      InsertTaken(docs, Minted(made.value, u.minted));
    }
  }

  /** What a creating update leaves: the document the upsert makes, inserted and counted as matched, or nothing new. */
  ghost predicate Created(e: Engine, docs: seq<Doc>, u: UpdateSpec, r: seq<Doc>, outcome: Outcome<Counts>) {
    var made := Upsert(e, u.filter, u.change, u.minted);
    if made.Fail? then r == docs && outcome == Fail(made.code)
    else if Taken(docs, Minted(made.value, u.minted)) then r == docs && outcome == Fail(11000)
    else r == docs + [Stored(made.value, u.minted)] && outcome == Ok(Counts(1, 0))
  }

  // ----- batches of inserts -----

  /** The documents of a batch as they are stored. */
  function StoredAll(batch: seq<Minted>): (r: seq<Doc>)
    ensures |r| == |batch|
  {
    if batch == [] then [] else [Stored(batch[0].doc, batch[0].id)] + StoredAll(batch[1..])
  }

  ghost predicate Taken(docs: seq<Doc>, m: Minted) {
    exists i :: 0 <= i < |docs| && Equal(IdOf(docs[i]), IdentifierOf(m.doc, m.id))
  }

  lemma InsertTaken(docs: seq<Doc>, m: Minted)
    ensures Insert(docs, m.doc, m.id) == if Taken(docs, m) then Fail(DUPLICATE_KEY) else Ok(docs + [Stored(m.doc, m.id)])
  {
    LocatedExact(docs, IdentifierOf(m.doc, m.id));
  }

  /** An ordered batch stores every document up to the first whose identifier is there, and nothing after it. */
  lemma {:induction false} OrderedMeans(docs: seq<Doc>, batch: seq<Minted>) returns (k: nat)
    ensures k <= |batch| && InsertBatch(docs, batch, true) == docs + StoredAll(batch[..k])
    ensures forall i :: 0 <= i < k ==> !Taken(docs + StoredAll(batch[..i]), batch[i])
    ensures k < |batch| ==> Taken(docs + StoredAll(batch[..k]), batch[k])
    decreases |batch|
  {
    k := 0;
    assert batch[..0] == [] && docs + [] == docs;
    if batch != [] {
      InsertTaken(docs, batch[0]);
      if !Taken(docs, batch[0]) {
        var first := Stored(batch[0].doc, batch[0].id);
        var next, rest := docs + [first], batch[1..];
        var n := OrderedMeans(next, rest);
        k := n + 1;
        forall i | 0 <= i <= n ensures docs + StoredAll(batch[..i + 1]) == next + StoredAll(rest[..i]) {
          StoredCons(docs, batch, i);
        }
        forall i | 0 < i < k ensures !Taken(docs + StoredAll(batch[..i]), batch[i]) {
          assert batch[i] == rest[i - 1] && !Taken(next + StoredAll(rest[..i - 1]), rest[i - 1]);
          assert docs + StoredAll(batch[..(i - 1) + 1]) == next + StoredAll(rest[..i - 1]);
        }
      }
    }
  }

  lemma StoredCons(docs: seq<Doc>, batch: seq<Minted>, i: nat)
    requires i < |batch|
    ensures docs + StoredAll(batch[..i + 1]) == docs + [Stored(batch[0].doc, batch[0].id)] + StoredAll(batch[1..][..i])
  {
    assert batch[..i + 1][1..] == batch[1..][..i];
  }

  /** An unordered batch goes on after a refusal: what is left is what is left of its front, and the last document if its identifier is not there. */
  lemma {:induction false} UnorderedMeans(docs: seq<Doc>, front: seq<Minted>, last: Minted)
    ensures var before := InsertBatch(docs, front, false);
            InsertBatch(docs, front + [last], false) ==
            if Taken(before, last) then before else before + [Stored(last.doc, last.id)]
    decreases |front|
  {
    var all := front + [last];
    if front == [] {
      assert all == [last] && all[1..] == [];
      InsertTaken(docs, last);
    } else {
      assert all[0] == front[0] && all[1..] == front[1..] + [last];
      InsertTaken(docs, front[0]);
      UnorderedMeans(if Taken(docs, front[0]) then docs else docs + [Stored(front[0].doc, front[0].id)], front[1..], last);
    }
  }

  // ----- deleting one -----

  /** A delete of one takes the first document that matches, and no other; without one it takes none. */
  lemma RemoveOneMeans(e: Engine, docs: seq<Doc>, filter: Doc, k: nat)
    requires SelectFor(e, docs, 0, filter, false).Ok?
    ensures FirstMatch(e, docs, 0, filter, k) ==> Remove(e, docs, filter, 1) == (docs[..k] + docs[k + 1..], Ok(1))
    ensures (forall j :: 0 <= j < |docs| ==> Matches(e, docs[j], filter) != Ok(true)) ==> Remove(e, docs, filter, 1) == (docs, Ok(0))
  {
    SelectForMeans(e, docs, 0, filter, false);
    SelectForAscends(e, docs, 0, filter, false);
    var s := SelectFor(e, docs, 0, filter, false).value;
    if FirstMatch(e, docs, 0, filter, k) {
      assert s == [k];
      assert s[..0] == [];
      assert Deleted(docs, s) == docs[..k] + docs[k + 1..];
    }
  }

  // ----- windows and sort keys -----

  /** A window drops the first documents, as many as it skips, and then holds as many as its limit, or all there are. */
  lemma WindowMeans(docs: seq<Doc>, skip: nat, limit: int)
    ensures var w := Window(docs, skip, limit);
            var left := if skip < |docs| then |docs| - skip else 0;
            && |w| == (if 0 < limit < left then limit else left)
            && forall i :: 0 <= i < |w| ==> w[i] == docs[skip + i]
  {
  }

  /** A sort key is the value an update would read there, or the first the path reaches, or null. */
  lemma SortKeyMeans(d: Doc, path: string)
    ensures ValueAt(d, PathOf(path)).Some? ==> SortKey(d, path) == ValueAt(d, PathOf(path)).value
    ensures Reached(d, path) == iset{} ==> SortKey(d, path) == Null
    ensures Reached(d, path) != iset{} ==> SortKey(d, path) in Reached(d, path)
  {
    ResolveReads(d, PathOf(path));
    ValuesAtExact(d, path);
    ContentsEmpty(ValuesAt(d, path));
    var values := ValuesAt(d, path);
    if values != [] {
      assert values[0] in Contents(values);
    }
  }

  /** Two documents are ordered by the first key that tells them apart: the smaller value first, or last where the key descends. */
  lemma {:induction false} CompareByMeans(keys: seq<SortBy>, l: Doc, r: Doc, k: nat)
    requires k < |keys| && forall j :: 0 <= j < k ==> Compare(SortKey(l, keys[j].path), SortKey(r, keys[j].path)) == 0
    requires Compare(SortKey(l, keys[k].path), SortKey(r, keys[k].path)) != 0
    ensures CompareBy(keys, l, r) < 0 <==>
            (if keys[k].descending then Compare(SortKey(l, keys[k].path), SortKey(r, keys[k].path)) > 0
             else Compare(SortKey(l, keys[k].path), SortKey(r, keys[k].path)) < 0)
    ensures CompareBy(keys, l, r) != 0
    decreases k
  {
    if k > 0 {
      assert Compare(SortKey(l, keys[0].path), SortKey(r, keys[0].path)) == 0;
      var rest := keys[1..];
      forall j | 0 <= j < k - 1 ensures Compare(SortKey(l, rest[j].path), SortKey(r, rest[j].path)) == 0 {
        assert rest[j] == keys[j + 1];
      }
      CompareByMeans(rest, l, r, k - 1);
    }
  }

  // ----- numbers -----

  /** Two whole numbers whose sum 64 bits hold add up exactly, and stay whole; a float makes the sum a float. */
  lemma SumMeans(e: Engine, a: Value, b: Value)
    requires a.Number? && b.Number?
    ensures Sum(e, a, b).Number?
    ensures a.whole.Some? && b.whole.Some? && -TWO_63 <= a.whole.value + b.whole.value < TWO_63 ==>
              Sum(e, a, b).whole == Some(a.whole.value + b.whole.value)
    ensures !(a.whole.Some? && b.whole.Some?) ==> Sum(e, a, b).whole == None
    ensures !(a.whole.Some? && b.whole.Some?) && a.key.Finite? && b.key.Finite? ==> Sum(e, a, b).key == e.add(a.key.r, b.key.r)
    ensures !(a.whole.Some? && b.whole.Some?) ==>
              (Sum(e, a, b).key.NaN? <==> a.key.NaN? || b.key.NaN? || (a.key.PosInf? && b.key.NegInf?) || (a.key.NegInf? && b.key.PosInf?))
    ensures !(a.whole.Some? && b.whole.Some?) && (a.key.PosInf? || b.key.PosInf?) && !Sum(e, a, b).key.NaN? ==> Sum(e, a, b).key.PosInf?
    ensures !(a.whole.Some? && b.whole.Some?) && (a.key.NegInf? || b.key.NegInf?) && !Sum(e, a, b).key.NaN? ==> Sum(e, a, b).key.NegInf?
  {
  }

  /** An increment leaves the sum where there was a number, the amount where there was nothing, and fails on anything else. */
  lemma IncrementMeans(e: Engine, d: Doc, path: string, amount: Value)
    ensures var r := IncrementField(e, d, path, amount);
            var held := ValueAt(d, PathOf(path));
            && (!amount.Number? ==> r == Fail(14))
            && (amount.Number? && held.Some? && !held.value.Number? ==> r == Fail(14))
            && (r.Ok? && held.Some? ==> ValueAt(r.value, PathOf(path)) == Some(Sum(e, held.value, amount)))
            && (r.Ok? && held.None? ==> ValueAt(r.value, PathOf(path)) == Some(amount))
            && (r.Ok? ==> forall q: Path :: !Related(PathOf(path), q) ==> ValueAt(r.value, q) == ValueAt(d, q))
  {
    var r := IncrementField(e, d, path, amount);
    var held := ValueAt(d, PathOf(path));
    if r.Ok? {
      var v := if held.None? then amount else Sum(e, held.value, amount);
      SetThenRead(d, PathOf(path), v);
      forall q: Path | !Related(PathOf(path), q) ensures ValueAt(r.value, q) == ValueAt(d, q) {
        SetElsewhere(d, PathOf(path), v, q);
      }
    }
  }

  // ----- stages -----

  /** A stage that counts answers one document that says how many came in; one that skips or limits takes a number that is not negative, its fraction dropped. */
  lemma StagesMean(e: Engine, docs: seq<Doc>, name: string, r: real)
    requires r >= 0.0 && name != ""
    ensures var counted := ApplyStage(e, docs, Field("$count", Text(name)));
            && counted.Ok? && |counted.value| == 1 && |counted.value[0]| == 1
            && counted.value[0][0].key == name && counted.value[0][0].value.Number? && counted.value[0][0].value.whole == Some(|docs|)
    ensures var n := r.Floor;
            && ApplyStage(e, docs, Field("$skip", Bson.Number(Finite(r), None))) == Ok(if n < |docs| then docs[n..] else [])
            && ApplyStage(e, docs, Field("$limit", Bson.Number(Finite(r), None))) == Ok(if 0 < n < |docs| then docs[..n] else docs)
    ensures r > 0.0 ==> ApplyStage(e, docs, Field("$skip", Bson.Number(Finite(-r), None))) == Fail(2)
    ensures r > 0.0 ==> ApplyStage(e, docs, Field("$limit", Bson.Number(Finite(-r), None))) == Fail(2)
  {
    assert docs[0..] == docs;
  }
}
