/**
 Reading a collection: the window a find takes, the three ways a client counts,
 what a delete leaves behind, and the order a sort compares by.
 */
module DocFind {
  import opened Common
  import opened Bson
  import opened DocUpdate
  import opened DocQuery
  import opened DocReach
  import opened DocStore

  // ----- windows and counts -----

  /** Skip first, then limit; a limit of zero or less is none. */
  function Window(docs: seq<Doc>, skip: nat, limit: int): seq<Doc> {
    if skip >= |docs| then []
    else
      var rest := docs[skip..];
      if 0 < limit < |rest| then rest[..limit] else rest
  }

  function Count(e: Engine, docs: seq<Doc>, filter: Doc, skip: nat, limit: int): Outcome<nat> {
    match Find(e, docs, filter)
    case Fail(code) => Fail(code)
    case Ok(selected) => Ok(|Window(selected, skip, limit)|)
  }

  function Whole(n: int): Value {
    Bson.Number(Finite(n as real), Some(n))
  }

  /** The count a stage carries; what a NaN or an infinity truncates to is left as zero. */
  function StageCount(v: Value): Outcome<nat> {
    if !v.Number? || CompareFloat(v.key, Finite(0.0)) < 0 then Fail(BAD_VALUE)
    else if v.key.Finite? && v.key.r >= 0.0 then Ok(v.key.r.Floor)
    else Ok(0)
  }

  predicate CountsOne(v: Value) {
    v.Document? && |v.fields| == 1 && v.fields[0].key == "$sum" && v.fields[0].value.Number? &&
    v.fields[0].value.key == Finite(1.0)
  }

  function GroupStage(docs: seq<Doc>, v: Value): Outcome<seq<Doc>> {
    if !v.Document? then Fail(TYPE_MISMATCH)
    else if Lookup(v.fields, ID).None? || |v.fields| != 2 then Fail(NOT_SUPPORTED)
    else
      var counter := if v.fields[0].key == ID then v.fields[1] else v.fields[0];
      if !CountsOne(counter.value) then Fail(NOT_SUPPORTED)
      else Ok([[Field(ID, Lookup(v.fields, ID).value), Field(counter.key, Whole(|docs|))]])
  }

  function ApplyStage(e: Engine, docs: seq<Doc>, stage: Field): Outcome<seq<Doc>> {
    match stage.key
    case "$match" => if stage.value.Document? then Find(e, docs, stage.value.fields) else Fail(TYPE_MISMATCH)
    case "$skip" =>
      (match StageCount(stage.value)
       case Fail(code) => Fail(code)
       case Ok(n) => Ok(Window(docs, n, 0)))
    case "$limit" =>
      (match StageCount(stage.value)
       case Fail(code) => Fail(code)
       case Ok(n) => Ok(Window(docs, 0, n)))
    case "$count" =>
      if stage.value.Text? && stage.value.text != "" then Ok([[Field(stage.value.text, Whole(|docs|))]])
      else Fail(BAD_VALUE)
    case "$group" => GroupStage(docs, stage.value)
    case _ => Fail(NOT_SUPPORTED)
  }

  function RunPipeline(e: Engine, docs: seq<Doc>, pipeline: seq<Doc>): Outcome<seq<Doc>>
    decreases |pipeline|
  {
    if pipeline == [] then Ok(docs)
    else if |pipeline[0]| != 1 then Fail(BAD_VALUE)
    else
      match ApplyStage(e, docs, pipeline[0][0])
      case Fail(code) => Fail(code)
      case Ok(next) => RunPipeline(e, next, pipeline[1..])
  }

  method Aggregate(e: Engine, docs: seq<Doc>, pipeline: seq<Doc>) returns (r: Outcome<seq<Doc>>)
    ensures r == RunPipeline(e, docs, pipeline)
  {
    var produced := docs;
    for i := 0 to |pipeline|
      invariant RunPipeline(e, produced, pipeline[i..]) == RunPipeline(e, docs, pipeline)
    {
      assert pipeline[i..][1..] == pipeline[i + 1..];
      if |pipeline[i]| != 1 {
        return Fail(BAD_VALUE);
      }
      var next := ApplyStage(e, produced, pipeline[i][0]);
      if next.Fail? {
        return next;
      }
      produced := next.value;
    }
    return Ok(produced);
  }

  /** The pipeline a driver sends to count documents. */
  function CountingPipeline(filter: Doc, skip: nat, limit: nat, id: Value, name: string): seq<Doc> {
    [[Field("$match", Document(filter))],
     [Field("$skip", Whole(skip))],
     [Field("$limit", Whole(limit))],
     [Field("$group", Document([Field(ID, id), Field(name, Document([Field("$sum", Whole(1))]))]))]]
  }

  lemma WindowInTwo(docs: seq<Doc>, skip: nat, limit: nat)
    ensures Window(Window(docs, skip, 0), 0, limit) == Window(docs, skip, limit)
  {
  }

  lemma PipelineCons(e: Engine, docs: seq<Doc>, stage: Field, rest: seq<Doc>)
    ensures var next := ApplyStage(e, docs, stage);
            RunPipeline(e, docs, [[stage]] + rest) == if next.Fail? then Fail(next.code) else RunPipeline(e, next.value, rest)
  {
    assert ([[stage]] + rest)[1..] == rest;
  }

  /** The count command, the counting pipeline and the windowed find agree, and fail together. */
  lemma CountsAgree(e: Engine, docs: seq<Doc>, filter: Doc, skip: nat, limit: nat, id: Value, name: string)
    ensures match Find(e, docs, filter)
            case Fail(code) =>
              && Count(e, docs, filter, skip, limit) == Fail(code)
              && RunPipeline(e, docs, CountingPipeline(filter, skip, limit, id, name)) == Fail(code)
            case Ok(selected) =>
              var n := |Window(selected, skip, limit)|;
              && Count(e, docs, filter, skip, limit) == Ok(n)
              && RunPipeline(e, docs, CountingPipeline(filter, skip, limit, id, name)) == Ok([[Field(ID, id), Field(name, Whole(n))]])
  {
    var group := Field("$group", Document([Field(ID, id), Field(name, Document([Field("$sum", Whole(1))]))]));
    var p3 := [[group]];
    var p2 := [[Field("$limit", Whole(limit))]] + p3;
    var p1 := [[Field("$skip", Whole(skip))]] + p2;
    assert CountingPipeline(filter, skip, limit, id, name) == [[Field("$match", Document(filter))]] + p1;
    PipelineCons(e, docs, Field("$match", Document(filter)), p1);
    if Find(e, docs, filter).Ok? {
      var selected := Find(e, docs, filter).value;
      PipelineCons(e, selected, Field("$skip", Whole(skip)), p2);
      var skipped := Window(selected, skip, 0);
      PipelineCons(e, skipped, Field("$limit", Whole(limit)), p3);
      WindowInTwo(selected, skip, limit);
      var limited := Window(skipped, 0, limit);
      assert p3 == [[group]] + [];
      PipelineCons(e, limited, group, []);
      GroupCounts(limited, id, name);
    }
  }

  lemma GroupCounts(docs: seq<Doc>, id: Value, name: string)
    ensures GroupStage(docs, Document([Field(ID, id), Field(name, Document([Field("$sum", Whole(1))]))])) ==
            Ok([[Field(ID, id), Field(name, Whole(|docs|))]])
  {
    var fields := [Field(ID, id), Field(name, Document([Field("$sum", Whole(1))]))];
    assert Lookup(fields, ID) == Some(id);
    assert CountsOne(fields[1].value);
  }

  // ----- what a delete leaves -----

  /** The documents a filter does not select, in order. */
  function Kept(e: Engine, docs: seq<Doc>, filter: Doc): seq<Doc> {
    if docs == [] then []
    else if Matches(e, docs[0], filter) == Ok(true) then Kept(e, docs[1..], filter)
    else [docs[0]] + Kept(e, docs[1..], filter)
  }

  lemma {:induction false} DeletedFirst(docs: seq<Doc>, x: nat, later: seq<nat>)
    requires x < |docs| && (forall i :: 0 <= i < |later| ==> x < later[i] < |docs|)
    requires forall i, j :: 0 <= i < j < |later| ==> later[i] < later[j]
    ensures |Deleted(docs, later)| > x && Deleted(docs, later)[..x + 1] == docs[..x + 1]
    ensures Deleted(docs, [x] + later) == Deleted(docs, later)[..x] + Deleted(docs, later)[x + 1..]
    decreases |later|
  {
    var all := [x] + later;
    if later == [] {
      assert all == [x] && all[..0] == [];
    } else {
      var last := later[|later| - 1];
      var fewer := docs[..last] + docs[last + 1..];
      assert all[..|all| - 1] == [x] + later[..|later| - 1];
      assert fewer[..x + 1] == docs[..x + 1];
      DeletedFirst(fewer, x, later[..|later| - 1]);
    }
  }

  /** What selecting from a position on says about finding and keeping from there. */
  ghost predicate SelectionSplits(e: Engine, docs: seq<Doc>, at: nat, filter: Doc)
    requires at <= |docs|
  {
    match SelectFor(e, docs, at, filter, true)
    case Fail(code) => Find(e, docs[at..], filter) == Fail(code)
    case Ok(s) =>
      && Find(e, docs[at..], filter).Ok? && |Find(e, docs[at..], filter).value| == |s|
      && (forall i :: 0 <= i < |s| ==> at <= s[i] < |docs|) && (forall i, j :: 0 <= i < j < |s| ==> s[i] < s[j])
      && Deleted(docs, s) == docs[..at] + Kept(e, docs[at..], filter)
  }

  lemma SelectionSplitsHeld(e: Engine, docs: seq<Doc>, at: nat, filter: Doc)
    requires at < |docs| && SelectionSplits(e, docs, at + 1, filter) && Matches(e, docs[at], filter) == Ok(true)
    ensures SelectionSplits(e, docs, at, filter)
  {
    assert docs[at..][0] == docs[at] && docs[at..][1..] == docs[at + 1..];
    var later := SelectFor(e, docs, at + 1, filter, true);
    if later.Ok? {
      DeletedFirst(docs, at, later.value);
      DropOne(docs, at, Kept(e, docs[at + 1..], filter));
    }
  }

  lemma DropOne(docs: seq<Doc>, at: nat, kept: seq<Doc>)
    requires at < |docs|
    ensures var d := docs[..at + 1] + kept; d[..at] + d[at + 1..] == docs[..at] + kept
  {
  }

  lemma SelectionSplitsKept(e: Engine, docs: seq<Doc>, at: nat, filter: Doc)
    requires at < |docs| && SelectionSplits(e, docs, at + 1, filter) && Matches(e, docs[at], filter) != Ok(true)
    ensures SelectionSplits(e, docs, at, filter)
  {
    assert docs[at..][0] == docs[at] && docs[at..][1..] == docs[at + 1..];
    KeepOne(docs, at, Kept(e, docs[at + 1..], filter));
  }

  lemma KeepOne(docs: seq<Doc>, at: nat, kept: seq<Doc>)
    requires at < |docs|
    ensures docs[..at] + ([docs[at]] + kept) == docs[..at + 1] + kept
  {
  }

  lemma {:induction false} DeletedIsKept(e: Engine, docs: seq<Doc>, at: nat, filter: Doc)
    requires at <= |docs|
    ensures SelectionSplits(e, docs, at, filter)
    decreases |docs| - at
  {
    if at == |docs| {
      assert docs[..at] == docs;
    } else {
      DeletedIsKept(e, docs, at + 1, filter);
      if Matches(e, docs[at], filter) == Ok(true) {
        SelectionSplitsHeld(e, docs, at, filter);
      } else {
        SelectionSplitsKept(e, docs, at, filter);
      }
    }
  }

  /** Deleting every match removes exactly what a find selects and keeps the rest in order. */
  lemma DeleteAllExact(e: Engine, docs: seq<Doc>, filter: Doc)
    ensures match Find(e, docs, filter)
            case Fail(code) => Remove(e, docs, filter, 0) == (docs, Fail(code))
            case Ok(selected) => Remove(e, docs, filter, 0) == (Kept(e, docs, filter), Ok(|selected|))
  {
    DeletedIsKept(e, docs, 0, filter);
    assert docs[0..] == docs && docs[..0] + Kept(e, docs, filter) == Kept(e, docs, filter);
  }

  /** What was found and what was kept are the whole collection, and a second find selects nothing. */
  lemma {:induction false} FoundAndKept(e: Engine, docs: seq<Doc>, filter: Doc)
    requires Find(e, docs, filter).Ok?
    ensures multiset(Find(e, docs, filter).value) + multiset(Kept(e, docs, filter)) == multiset(docs)
    ensures Find(e, Kept(e, docs, filter), filter) == Ok([])
  {
    if docs != [] {
      FoundAndKept(e, docs[1..], filter);
      assert docs == [docs[0]] + docs[1..];
    }
  }

  // ----- the order a sort compares by -----

  function SortKey(d: Doc, path: string): Value {
    var values := ValuesAt(d, path);
    if values == [] then Null else values[0]
  }

  datatype SortBy = SortBy(path: string, descending: bool)

  /** The first key that separates decides, turned round when it descends. */
  function CompareBy(keys: seq<SortBy>, l: Doc, r: Doc): int {
    if keys == [] then 0
    else
      var order := Compare(SortKey(l, keys[0].path), SortKey(r, keys[0].path));
      Then(if keys[0].descending then -order else order, CompareBy(keys[1..], l, r))
  }

  lemma {:induction false} LookupSane(d: Doc, key: string, lo: int)
    requires SaneFields(d, lo)
    ensures Lookup(d, key).Some? ==> Sane(Lookup(d, key).value, lo)
  {
    if d != [] { LookupSane(d[1..], key, lo); }
  }

  lemma {:induction false} ResolveSane(v: Value, path: seq<string>, lo: int)
    requires Sane(v, lo)
    ensures forall w :: w in Resolve(v, path) ==> Sane(w, lo)
    decreases |path|, v, 1
  {
    if path != [] {
      match v
      case Document(fields) =>
        LookupSane(fields, path[0], lo);
        var held := Lookup(fields, path[0]);
        if held.Some? {
          ResolveSane(held.value, path[1..], lo);
        }
      case Array(items) =>
        var index := Atoi(path[0]);
        if index.Some? && 0 <= index.value < |items| {
          ItemSane(items, index.value, lo);
          ResolveSane(items[index.value], path[1..], lo);
        }
        ResolveEachSane(items, path, lo);
      case _ =>
    }
  }

  lemma {:induction false} ItemSane(items: seq<Value>, i: nat, lo: int)
    requires SaneItems(items, lo) && i < |items|
    ensures Sane(items[i], lo)
  {
    if i > 0 { ItemSane(items[1..], i - 1, lo); }
  }

  lemma {:induction false} ResolveEachSane(items: seq<Value>, path: seq<string>, lo: int)
    requires SaneItems(items, lo) && path != []
    ensures forall w :: w in ResolveEach(items, path) ==> Sane(w, lo)
    decreases |path|, items, 0
  {
    if items != [] {
      if items[0].Document? {
        ResolveSane(items[0], path, lo);
      }
      ResolveEachSane(items[1..], path, lo);
    }
  }

  lemma SortKeySane(d: Doc, path: string, lo: int)
    requires SaneFields(d, lo)
    ensures Sane(SortKey(d, path), lo)
  {
    ResolveSane(Document(d), PathOf(path), lo);
    var values := ValuesAt(d, path);
    if values != [] { assert values[0] in values; }
  }

  lemma {:induction false} CompareBySigns(keys: seq<SortBy>, l: Doc, r: Doc, lo: int)
    requires SaneFields(l, lo) && SaneFields(r, lo)
    ensures IsSign(CompareBy(keys, l, r)) && CompareBy(keys, r, l) == -CompareBy(keys, l, r)
    ensures CompareBy(keys, l, l) == 0
  {
    if keys != [] {
      SortKeySane(l, keys[0].path, lo);
      SortKeySane(r, keys[0].path, lo);
      CompareSigns(SortKey(l, keys[0].path), SortKey(r, keys[0].path), lo);
      CompareReflexive(SortKey(l, keys[0].path));
      CompareBySigns(keys[1..], l, r, lo);
    }
  }

  /** The multi-key comparator is a total preorder on sane documents, whatever the directions. */
  lemma {:induction false} CompareByConsistent(keys: seq<SortBy>, a: Doc, b: Doc, c: Doc, lo: int)
    requires SaneFields(a, lo) && SaneFields(b, lo) && SaneFields(c, lo)
    ensures Consistent(CompareBy(keys, a, b), CompareBy(keys, b, c), CompareBy(keys, a, c))
  {
    if keys != [] {
      var p := keys[0].path;
      var ka, kb, kc := SortKey(a, p), SortKey(b, p), SortKey(c, p);
      SortKeySane(a, p, lo);
      SortKeySane(b, p, lo);
      SortKeySane(c, p, lo);
      CompareSigns(ka, kb, lo);
      CompareSigns(kb, kc, lo);
      CompareSigns(ka, kc, lo);
      CompareConsistent(ka, kb, kc, lo);
      CompareBySigns(keys[1..], a, b, lo);
      CompareBySigns(keys[1..], b, c, lo);
      CompareBySigns(keys[1..], a, c, lo);
      CompareByConsistent(keys[1..], a, b, c, lo);
      var ab, bc, ac := Compare(ka, kb), Compare(kb, kc), Compare(ka, kc);
      if keys[0].descending { ab, bc, ac := -ab, -bc, -ac; }
      ThenConsistent(ab, bc, ac, CompareBy(keys[1..], a, b), CompareBy(keys[1..], b, c), CompareBy(keys[1..], a, c));
    }
  }

  lemma SortIsTotalPreorder(keys: seq<SortBy>, a: Doc, b: Doc, c: Doc, lo: int)
    requires SaneFields(a, lo) && SaneFields(b, lo) && SaneFields(c, lo)
    ensures CompareBy(keys, a, a) == 0 && CompareBy(keys, b, a) == -CompareBy(keys, a, b)
    ensures CompareBy(keys, a, b) <= 0 && CompareBy(keys, b, c) <= 0 ==> CompareBy(keys, a, c) <= 0
  {
    CompareBySigns(keys, a, b, lo);
    CompareBySigns(keys, b, c, lo);
    CompareBySigns(keys, a, c, lo);
    CompareByConsistent(keys, a, b, c, lo);
  }

  // ----- the collection as an object -----

  lemma RewriteStep(e: Engine, docs: seq<Doc>, selected: seq<nat>, i: nat, change: Doc, done: Counts)
    requires i < |selected| && forall j :: 0 <= j < |selected| ==> selected[j] < |docs|
    ensures var one := RewriteOne(e, docs, selected[i], change);
            Rewrite(e, docs, selected[i..], change, done) ==
            if one.Fail? then (docs, Fail(one.code))
            else Rewrite(e, one.value.0, selected[i + 1..], change,
                         Counts(done.matched + 1, done.modified + if one.value.1 then 1 else 0))
  {
    assert selected[i..][0] == selected[i] && selected[i..][1..] == selected[i + 1..];
  }

  class Collection {
    var documents: seq<Doc>

    constructor ()
      ensures documents == []
    {
      documents := [];
    }

    /** Scans for an identifier, and says where it is. */
    method Locate(id: Value) returns (at: nat, taken: bool)
      ensures taken == Located(documents, id)
      ensures taken ==> at < |documents| && Equal(IdOf(documents[at]), id)
      ensures at <= |documents| && forall j :: 0 <= j < at ==> !Equal(IdOf(documents[j]), id)
      ensures !taken ==> at == 0
    {
      for i := 0 to |documents|
        invariant Located(documents[i..], id) == Located(documents, id)
        invariant forall j :: 0 <= j < i ==> !Equal(IdOf(documents[j]), id)
      {
        assert documents[i..][1..] == documents[i + 1..];
        if Equal(IdOf(documents[i]), id) {
          return i, true;
        }
      }
      return 0, false;
    }

    method InsertOne(d: Doc, minted: Value) returns (r: Outcome<()>)
      modifies this
      ensures var next := Insert(old(documents), d, minted);
              if next.Fail? then r == Fail(next.code) && documents == old(documents)
              else r == Ok(()) && documents == next.value
    {
      var _, taken := Locate(IdentifierOf(d, minted));
      if taken {
        return Fail(DUPLICATE_KEY);
      }
      documents := documents + [Stored(d, minted)];
      return Ok(());
    }

    /** Positions of the matching documents, the first only unless all are wanted. */
    method Select(e: Engine, filter: Doc, all: bool) returns (r: Outcome<seq<nat>>)
      ensures r == SelectFor(e, documents, 0, filter, all)
    {
      var selected: seq<nat> := [];
      PrependNothing(SelectFor(e, documents, 0, filter, all));
      for i := 0 to |documents|
        invariant SelectFor(e, documents, 0, filter, all) == Prepend(selected, SelectFor(e, documents, i, filter, all))
      {
        var held := Match(e, documents[i], filter);
        if held.Fail? {
          return Fail(held.code);
        }
        if held.value {
          ghost var rest := SelectFor(e, documents, i + 1, filter, all);
          assert all && rest.Ok? ==> selected + ([i] + rest.value) == selected + [i] + rest.value;
          selected := selected + [i];
          if !all {
            return Ok(selected);
          }
        }
      }
      assert selected + [] == selected;
      return Ok(selected);
    }

    /** Rewrites the selected documents where they are. */
    method RewriteEach(e: Engine, selected: seq<nat>, change: Doc) returns (r: Outcome<Counts>)
      requires forall i :: 0 <= i < |selected| ==> selected[i] < |documents|
      modifies this
      ensures (documents, r) == Rewrite(e, old(documents), selected, change, Counts(0, 0))
    {
      var done := Counts(0, 0);
      assert selected[0..] == selected;
      for i := 0 to |selected|
        invariant |documents| == |old(documents)|
        invariant Rewrite(e, documents, selected[i..], change, done) == Rewrite(e, old(documents), selected, change, Counts(0, 0))
      {
        RewriteStep(e, documents, selected, i, change, done);
        var changed := RewriteAt(e, selected[i], change);
        if changed.Fail? {
          return Fail(changed.code);
        }
        done := Counts(done.matched + 1, done.modified + if changed.value then 1 else 0);
      }
      return Ok(done);
    }

    /** Rewrites one document where it is, and says whether it changed. */
    method RewriteAt(e: Engine, index: nat, change: Doc) returns (r: Outcome<bool>)
      requires index < |documents|
      modifies this
      ensures var one := RewriteOne(e, old(documents), index, change);
              if one.Fail? then r == Fail(one.code) && documents == old(documents)
              else r == Ok(one.value.1) && documents == one.value.0
    {
      var updated := RunUpdate(e, documents[index], change);
      if updated.Fail? {
        return Fail(updated.code);
      }
      if !Equal(IdOf(documents[index]), IdOf(updated.value)) {
        return Fail(IMMUTABLE_FIELD);
      }
      var order := CompareDocuments(documents[index], updated.value);
      if order != 0 {
        documents := documents[index := updated.value];
      }
      return Ok(order != 0);
    }

    /** Deletes the selected documents from the last to the first. */
    method DeleteEach(selected: seq<nat>)
      requires (forall i :: 0 <= i < |selected| ==> selected[i] < |documents|)
      requires forall i, j :: 0 <= i < j < |selected| ==> selected[i] < selected[j]
      modifies this
      ensures documents == Deleted(old(documents), selected)
    {
      var position := |selected|;
      assert selected[..position] == selected;
      while position > 0
        invariant 0 <= position <= |selected| && forall i :: 0 <= i < position ==> selected[i] < |documents|
        invariant Deleted(documents, selected[..position]) == Deleted(old(documents), selected)
      {
        position := position - 1;
        assert selected[..position + 1][..position] == selected[..position];
        documents := documents[..selected[position]] + documents[selected[position] + 1..];
      }
    }

    method RemoveMatching(e: Engine, filter: Doc, limit: int) returns (r: Outcome<nat>)
      modifies this
      ensures (documents, r) == Remove(e, old(documents), filter, limit)
    {
      if limit != 0 && limit != 1 {
        return Fail(BAD_VALUE);
      }
      var selected := Select(e, filter, limit == 0);
      if selected.Fail? {
        return Fail(selected.code);
      }
      SelectForAscends(e, documents, 0, filter, limit == 0);
      DeleteEach(selected.value);
      return Ok(|selected.value|);
    }
  }

  lemma PrependNothing(rest: Outcome<seq<nat>>)
    ensures Prepend([], rest) == rest
  {
    if rest.Ok? { assert [] + rest.value == rest.value; }
  }

  function Prepend(before: seq<nat>, rest: Outcome<seq<nat>>): Outcome<seq<nat>> {
    match rest
    case Fail(code) => Fail(code)
    case Ok(s) => Ok(before + s)
  }
}
