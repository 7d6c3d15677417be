/**
 Cursors: what of a result the client has not been sent yet. Whatever batch
 sizes a client asks for and whatever else happens in between, the pages of a
 cursor that is neither killed nor dropped are the unpaged result, cut up.
 */
module DocPaging {
  import opened Bson
  import opened DocUpdate

  const CURSOR_NOT_FOUND := 43

  datatype Cursor = Cursor(namespace: string, remaining: seq<Doc>)

  datatype Cursors = Cursors(open: map<int, Cursor>, last: nat)

  /** One reply's page, and the cursor to ask for more with; zero when there is no more. */
  datatype Page = Page(documents: seq<Doc>, id: int)

  /** How many documents the first batch holds. */
  function FirstSize(docs: seq<Doc>, batchSize: int, singleBatch: bool): (n: nat)
    ensures n <= |docs|
  {
    if !singleBatch && 0 < batchSize < |docs| then batchSize else |docs|
  }

  function Batch(s: Cursors, namespace: string, docs: seq<Doc>, batchSize: int, singleBatch: bool): (Cursors, Page) {
    var size := FirstSize(docs, batchSize, singleBatch);
    if size < |docs| then
      (Cursors(s.open[s.last + 1 := Cursor(namespace, docs[size..])], s.last + 1), Page(docs[..size], s.last + 1))
    else (s, Page(docs[..size], 0))
  }

  function NextSize(held: seq<Doc>, size: int): (n: nat)
    ensures n <= |held|
  {
    if size <= 0 || size > |held| then |held| else size
  }

  function GetMore(s: Cursors, id: int, size: int): (Cursors, Outcome<Page>) {
    if id !in s.open then (s, Fail(CURSOR_NOT_FOUND))
    else
      var held := s.open[id];
      var n := NextSize(held.remaining, size);
      if n == |held.remaining| then (s.(open := s.open - {id}), Ok(Page(held.remaining, 0)))
      else (s.(open := s.open[id := held.(remaining := held.remaining[n..])]), Ok(Page(held.remaining[..n], id)))
  }

  datatype Op =
    | Opens(namespace: string, docs: seq<Doc>, batchSize: int, singleBatch: bool)
    | Asks(id: int, size: int)
    | Kills(ids: seq<int>)
    | DropsDatabase

  function Step(s: Cursors, op: Op): Cursors {
    match op
    case Opens(namespace, docs, batchSize, singleBatch) => Batch(s, namespace, docs, batchSize, singleBatch).0
    case Asks(id, size) => GetMore(s, id, size).0
    case Kills(ids) => s.(open := s.open - set i | 0 <= i < |ids| :: ids[i])
    case DropsDatabase => s.(open := map[])
  }

  function Run(s: Cursors, ops: seq<Op>): Cursors
    decreases |ops|
  {
    if ops == [] then s else Run(Step(s, ops[0]), ops[1..])
  }

  /** A first page holds as many as the batch size, or all of them where there is none, it is no less, or one batch is all that is asked; a cursor is left exactly where it does not hold all. */
  lemma FirstPageMeans(s: Cursors, namespace: string, docs: seq<Doc>, batchSize: int, singleBatch: bool)
    ensures var (r, page) := Batch(s, namespace, docs, batchSize, singleBatch);
            var n := if singleBatch || batchSize <= 0 || batchSize >= |docs| then |docs| else batchSize;
            && page.documents == docs[..n] && (page.id == 0 <==> n == |docs|)
            && (n < |docs| ==> page.id == s.last + 1 && page.id in r.open && r.open[page.id].remaining == docs[n..])
  {
  }

  /** A next page holds as many as are asked for, or all that are left; the cursor keeps the rest, or is closed. */
  lemma NextPageMeans(s: Cursors, id: int, size: int)
    requires id in s.open
    ensures var (r, page) := GetMore(s, id, size);
            var held := s.open[id].remaining;
            var n := if size <= 0 || size >= |held| then |held| else size;
            && page.Ok? && page.value.documents == held[..n]
            && (n == |held| ==> page.value.id == 0 && id !in r.open)
            && (n < |held| ==> page.value.id == id && id in r.open && r.open[id].remaining == held[n..])
  {
  }

  // ----- the invariant -----

  /** Every open cursor was issued and still has something to hand over. */
  ghost predicate Inv(s: Cursors) {
    forall id :: id in s.open ==> 1 <= id <= s.last && s.open[id].remaining != []
  }

  lemma StepInv(s: Cursors, op: Op)
    requires Inv(s)
    ensures Inv(Step(s, op)) && s.last <= Step(s, op).last
  {
  }

  lemma {:induction false} RunInv(s: Cursors, ops: seq<Op>)
    requires Inv(s)
    ensures Inv(Run(s, ops)) && s.last <= Run(s, ops).last
    decreases |ops|
  {
    if ops != [] {
      StepInv(s, ops[0]);
      RunInv(Step(s, ops[0]), ops[1..]);
    }
  }

  /** A getMore on a cursor that is open hands over at least one document. */
  lemma LivePageIsNonempty(ops: seq<Op>, id: int, size: int)
    requires id in Run(Cursors(map[], 0), ops).open
    ensures var page := GetMore(Run(Cursors(map[], 0), ops), id, size).1; page.Ok? && |page.value.documents| >= 1
  {
    RunInv(Cursors(map[], 0), ops);
  }

  /** A cursor opened now has a number no operation before it was ever answered with. */
  lemma IdsNeverReused(ops: seq<Op>, later: seq<Op>, namespace: string, docs: seq<Doc>, batchSize: int, singleBatch: bool)
    ensures var s := Run(Cursors(map[], 0), ops);
            var t := Run(s, later);
            var page := Batch(t, namespace, docs, batchSize, singleBatch).1;
            page.id != 0 ==> page.id > s.last && page.id !in s.open && page.id !in t.open
  {
    var s := Run(Cursors(map[], 0), ops);
    RunInv(Cursors(map[], 0), ops);
    RunInv(s, later);
  }

  // ----- paging refines the whole -----

  /** The operation leaves the cursor for the client to page. */
  predicate Spares(op: Op, id: int) {
    !op.DropsDatabase? && (op.Kills? ==> id !in op.ids)
  }

  /** The documents a command hands over from the cursor. */
  function Handed(s: Cursors, op: Op, id: int): seq<Doc> {
    if op.Asks? && op.id == id && GetMore(s, id, op.size).1.Ok? then GetMore(s, id, op.size).1.value.documents else []
  }

  /** What asking for the cursor's pages along a run hands over, put end to end. */
  function Collected(s: Cursors, ops: seq<Op>, id: int): seq<Doc>
    decreases |ops|
  {
    if ops == [] then []
    else
      Handed(s, ops[0], id) + Collected(Step(s, ops[0]), ops[1..], id)
  }

  function Remaining(s: Cursors, id: int): seq<Doc> {
    if id in s.open then s.open[id].remaining else []
  }

  lemma StepPages(s: Cursors, op: Op, id: int)
    requires Inv(s) && 1 <= id <= s.last && Spares(op, id)
    ensures Handed(s, op, id) + Remaining(Step(s, op), id) == Remaining(s, id)
  {
    if op.Asks? && op.id == id && id in s.open {
      var held := s.open[id].remaining;
      var n := NextSize(held, op.size);
      assert held == held[..n] + held[n..];
    }
  }

  lemma {:induction false} RunPages(s: Cursors, ops: seq<Op>, id: int)
    requires Inv(s) && 1 <= id <= s.last && forall i :: 0 <= i < |ops| ==> Spares(ops[i], id)
    ensures Collected(s, ops, id) + Remaining(Run(s, ops), id) == Remaining(s, id)
    decreases |ops|
  {
    if ops != [] {
      assert Spares(ops[0], id);
      StepInv(s, ops[0]);
      StepPages(s, ops[0], id);
      RunPages(Step(s, ops[0]), ops[1..], id);
      Regroup(Handed(s, ops[0], id), Collected(Step(s, ops[0]), ops[1..], id), Remaining(Run(s, ops), id));
    }
  }

  lemma Regroup(a: seq<Doc>, b: seq<Doc>, c: seq<Doc>)
    ensures a + b + c == a + (b + c)
  {
  }

  /** First batch, pages asked for and what is still held are the full result, in order. */
  lemma PagingRefines(before: seq<Op>, namespace: string, docs: seq<Doc>, batchSize: int, singleBatch: bool, ops: seq<Op>)
    requires var (s, page) := Batch(Run(Cursors(map[], 0), before), namespace, docs, batchSize, singleBatch);
             forall i :: 0 <= i < |ops| ==> Spares(ops[i], page.id)
    ensures var (s, page) := Batch(Run(Cursors(map[], 0), before), namespace, docs, batchSize, singleBatch);
            && (page.id == 0 ==> page.documents == docs)
            && (page.id != 0 ==> page.documents + Collected(s, ops, page.id) + Remaining(Run(s, ops), page.id) == docs)
  {
    RunInv(Cursors(map[], 0), before);
    var start := Run(Cursors(map[], 0), before);
    var (s, page) := Batch(start, namespace, docs, batchSize, singleBatch);
    BatchPages(start, namespace, docs, batchSize, singleBatch);
    if page.id != 0 {
      RunPages(s, ops, page.id);
      Regroup(page.documents, Collected(s, ops, page.id), Remaining(Run(s, ops), page.id));
    }
  }

  lemma BatchPages(start: Cursors, namespace: string, docs: seq<Doc>, batchSize: int, singleBatch: bool)
    requires Inv(start)
    ensures var (s, page) := Batch(start, namespace, docs, batchSize, singleBatch);
            && (page.id == 0 ==> page.documents == docs)
            && (page.id != 0 ==> Inv(s) && 1 <= page.id <= s.last && page.documents + Remaining(s, page.id) == docs)
  {
    StepInv(start, Opens(namespace, docs, batchSize, singleBatch));
    var size := FirstSize(docs, batchSize, singleBatch);
    assert docs == docs[..size] + docs[size..];
  }

  // ----- the store's own fields -----

  class Store {
    var cursors: map<int, Cursor>
    var lastCursor: nat

    ghost function Abs(): Cursors
      reads this
    {
      Cursors(cursors, lastCursor)
    }

    constructor ()
      ensures Abs() == Cursors(map[], 0)
    {
      cursors, lastCursor := map[], 0;
    }

    method FirstBatch(namespace: string, docs: seq<Doc>, batchSize: int, singleBatch: bool) returns (page: Page)
      modifies this
      ensures (Abs(), page) == Batch(old(Abs()), namespace, docs, batchSize, singleBatch)
    {
      var size := |docs|;
      if !singleBatch && batchSize > 0 && batchSize < size {
        size := batchSize;
      }
      var identifier := 0;
      if size < |docs| {
        lastCursor := lastCursor + 1;
        identifier := lastCursor;
        cursors := cursors[identifier := Cursor(namespace, docs[size..])];
      }
      return Page(docs[..size], identifier);
    }

    method NextBatch(id: int, size: int) returns (r: Outcome<Page>)
      modifies this`cursors
      ensures (Abs(), r) == GetMore(old(Abs()), id, size)
    {
      if id !in cursors {
        return Fail(CURSOR_NOT_FOUND);
      }
      var held := cursors[id];
      var n := size;
      if n <= 0 || n > |held.remaining| {
        n := |held.remaining|;
      }
      var page := held.remaining[..n];
      cursors := cursors[id := held.(remaining := held.remaining[n..])];
      var next := id;
      if |cursors[id].remaining| == 0 {
        cursors := cursors - {id};
        next := 0;
        assert page == held.remaining && cursors == old(cursors) - {id};
      }
      return Ok(Page(page, next));
    }

    /** Closes the cursors that are open and says which were not. */
    method Kill(ids: seq<int>) returns (killed: seq<int>, missing: seq<int>)
      modifies this`cursors
      ensures Abs() == Step(old(Abs()), Kills(ids))
      ensures multiset(killed) + multiset(missing) == multiset(ids)
      ensures forall id :: multiset(killed)[id] == if id in ids && id in old(cursors) then 1 else 0
    {
      killed, missing := [], [];
      for i := 0 to |ids|
        invariant cursors == old(cursors) - set j | 0 <= j < i :: ids[j]
        invariant multiset(killed) + multiset(missing) == multiset(ids[..i])
        invariant forall id :: multiset(killed)[id] == if id in ids[..i] && id in old(cursors) then 1 else 0
      {
        assert ids[..i + 1] == ids[..i] + [ids[i]];
        assert ids[i] in cursors <==> ids[i] in old(cursors) && ids[i] !in ids[..i];
        if ids[i] !in cursors {
          missing := missing + [ids[i]];
        } else {
          cursors := cursors - {ids[i]};
          killed := killed + [ids[i]];
        }
      }
      assert ids[..|ids|] == ids;
    }
  }
}
