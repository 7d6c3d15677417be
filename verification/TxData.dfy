/**
 What becomes of the data: a block that is committed leaves every effect of its
 statements, in order, one that is rolled back leaves none, and a statement
 outside a block takes effect at once.
 */
module TxData {
  import opened Common
  import opened TxMirror

  /** The effects, one after the other. */
  function Applied<D>(effects: seq<D -> D>, data: D): D {
    if effects == [] then data else Applied(effects[1..], effects[0](data))
  }

  // ----- one operation -----

  /** A COMMIT nobody faults, of an open transaction that is not poisoned, by an engine that succeeds, lands the transaction's view. */
  lemma CommitLands<D>(c: Conn<D>, active: Task, effect: D -> D)
    requires active.kind.Commit? && c.executor.tx.Some? && !c.executor.failed
    ensures Exec(c.executor, Commit, EngineDoes(effect)) == (Executor(c.executor.tx.value, None, false), Done(Said(Commit)))
    ensures Serve(c, active, Pass, EngineDoes(effect)).executor == Executor(c.executor.tx.value, None, false)
  {
  }

  /** A ROLLBACK, and a COMMIT of a poisoned transaction, leave the committed data and no transaction, and say ROLLBACK. */
  lemma RollbackLeaves<D>(x: Executor<D>, fate: Fate<D>)
    ensures Exec(x, Rollback, fate) == (Executor(x.committed, None, false), Done(Said(Rollback)))
    ensures x.tx.Some? && x.failed ==> Exec(x, Commit, fate) == (Executor(x.committed, None, false), Done(Said(Rollback)))
  {
  }

  /** A BEGIN opens a view of the committed data. */
  lemma BeginOpens<D>(x: Executor<D>, effect: D -> D)
    requires x.tx.None?
    ensures Exec(x, Begin, EngineDoes(effect)) == (Executor(x.committed, Some(x.committed), false), Done(Said(Begin)))
  {
  }

  /** A statement takes effect on the view inside a block, on the committed data outside, and nowhere once the block is poisoned. */
  lemma StatementTakesEffect<D>(x: Executor<D>, effect: D -> D)
    requires x.tx.None? ==> !x.failed
    ensures Exec(x, Statement, EngineDoes(effect)) ==
            if x.failed then (x, Failed)
            else if x.tx.Some? then (Executor(x.committed, Some(effect(x.tx.value)), false), Done(Said(Statement)))
            else (Executor(effect(x.committed), None, false), Done(Said(Statement)))
  {
  }

  /** A statement the engine fails poisons the block it is in, and changes no data anywhere. */
  lemma StatementFails<D>(x: Executor<D>)
    requires !x.failed
    ensures Exec(x, Statement, EngineFails) == (Executor(x.committed, x.tx, x.tx.Some?), Failed)
  {
  }

  // ----- a whole block, sent as one query -----

  function Plain(kind: Kind): Task {
    Task(kind, false, false)
  }

  function Statements(n: nat): seq<Task> {
    if n == 0 then [] else [Plain(Statement)] + Statements(n - 1)
  }

  function Does<D>(effect: D -> D): Event<D> {
    Event(Quiet, Pass, EngineDoes(effect))
  }

  function AllDo<D>(effects: seq<D -> D>): seq<Event<D>> {
    if effects == [] then [] else [Does(effects[0])] + AllDo(effects[1..])
  }

  lemma {:induction false} RunJoin<D>(c: Conn<D>, a: seq<Event<D>>, b: seq<Event<D>>)
    ensures Run(c, a + b) == Run(Run(c, a), b)
    decreases |a|
  {
    if a == [] {
      assert a + b == b;
    } else {
      assert (a + b)[1..] == a[1..] + b;
      RunJoin(Step(c, a[0]), a[1..], b);
    }
  }

  lemma RunOne<D>(c: Conn<D>, event: Event<D>)
    ensures Run(c, [event]) == Step(c, event)
  {
    assert [event][1..] == [];
  }

  /** Serving the operation at the head of the queue, unfaulted, by an engine that succeeds. */
  lemma ServeHead<D>(c: Conn<D>, kind: Kind, rest: seq<Task>, effect: D -> D)
    requires c.open && c.session.greeted && c.session.queue == [Plain(kind)] + rest
    ensures Step(c, Does(effect)) == Serve(c.(session := c.session.(queue := rest)), Plain(kind), Pass, EngineDoes(effect))
  {
    assert c.session.queue[0] == Plain(kind) && c.session.queue[1..] == rest;
  }

  lemma {:induction false} StatementsRun<D>(c: Conn<D>, effects: seq<D -> D>, rest: seq<Task>)
    requires c.open && c.session.greeted && c.session.queue == Statements(|effects|) + rest
    requires c.executor.tx.Some? && !c.executor.failed
    ensures Run(c, AllDo(effects)) ==
            Conn(c.session.(queue := rest), c.executor.(tx := Some(Applied(effects, c.executor.tx.value))), true)
    decreases |effects|
  {
    if effects == [] {
      assert Statements(0) + rest == rest;
    } else {
      var later := Statements(|effects| - 1) + rest;
      assert c.session.queue == [Plain(Statement)] + later;
      ServeHead(c, Statement, later, effects[0]);
      StatementsRun(Step(c, Does(effects[0])), effects[1..], rest);
      assert AllDo(effects)[1..] == AllDo(effects[1..]);
    }
  }

  /** The statements of a query: BEGIN, n of them, and the end. */
  function BlockOf(n: nat, end: Kind): seq<(Kind, bool)> {
    [(Begin, false)] + seq(n, _ => (Statement, false)) + [(end, false)]
  }

  lemma {:induction false} StatementsAre(n: nat, i: nat)
    requires i < n
    ensures |Statements(n)| == n && Statements(n)[i] == Plain(Statement)
  {
    if i > 0 {
      StatementsAre(n - 1, i - 1);
    } else if n > 1 {
      StatementsAre(n - 1, 0);
    }
  }

  lemma BlockQueued(n: nat, end: Kind)
    ensures Enqueued(BlockOf(n, end)) == [Plain(Begin)] + (Statements(n) + [Plain(end)])
  {
    if n > 0 {
      StatementsAre(n, 0);
    }
    forall i | 0 <= i < n ensures Statements(n)[i] == Plain(Statement) {
      StatementsAre(n, i);
    }
  }

  /** The events of a block sent as one query: its message, BEGIN, the statements with their effects, and the end. */
  function BlockEvents<D>(first: Event<D>, effects: seq<D -> D>, end: Kind, id: D -> D): seq<Event<D>> {
    [Event(Query(BlockOf(|effects|, end)), first.verdict, first.fate)] + [Does(id)] + AllDo(effects) + [Does(id)]
  }

  /** A connection with nothing under way. */
  predicate Calm<D>(c: Conn<D>) {
    && c.open && c.session.greeted && c.session.queue == [] && !c.session.skipping
    && !c.session.inBlock && !c.session.aborted && c.executor.tx.None? && !c.executor.failed
  }

  /** Before the end, the transaction's view is the effects applied to the committed data. */
  lemma BlockOpen<D>(c: Conn<D>, first: Event<D>, effects: seq<D -> D>, end: Kind, id: D -> D)
    requires Calm(c)
    ensures var message := Event(Query(BlockOf(|effects|, end)), first.verdict, first.fate);
            var r := Run(c, [message] + [Does(id)] + AllDo(effects));
            && r.open && r.session.greeted && r.session.queue == [Plain(end)] && r.session.inBlock && !r.session.aborted
            && r.session.owesReady && !r.session.skipping
            && r.executor == Executor(c.executor.committed, Some(Applied(effects, c.executor.committed)), false)
  {
    var message := Event(Query(BlockOf(|effects|, end)), first.verdict, first.fate);
    var rest := Statements(|effects|) + [Plain(end)];
    BlockQueued(|effects|, end);
    var c1 := Step(c, message);
    assert [] + ([Plain(Begin)] + rest) == [Plain(Begin)] + rest;
    ServeHead(c1, Begin, rest, id);
    var c2 := Step(c1, Does(id));
    StatementsRun(c2, effects, [Plain(end)]);
    RunOne(c, message);
    RunOne(c1, Does(id));
    RunJoin(c, [message], [Does(id)]);
    RunJoin(c, [message] + [Does(id)], AllDo(effects));
  }

  /** A committed block leaves its effects, in order, on the committed data. */
  lemma BlockCommitted<D>(c: Conn<D>, first: Event<D>, effects: seq<D -> D>, id: D -> D)
    requires Calm(c)
    ensures var r := Run(c, BlockEvents(first, effects, Commit, id));
            r.executor == Executor(Applied(effects, c.executor.committed), None, false) && Told(r.session) == Idle && r.open
  {
    var message := Event(Query(BlockOf(|effects|, Commit)), first.verdict, first.fate);
    var c1 := Run(c, [message] + [Does(id)] + AllDo(effects));
    BlockOpen(c, first, effects, Commit, id);
    assert c1.session.queue == [Plain(Commit)] + [];
    ServeHead(c1, Commit, [], id);
    RunOne(c1, Does(id));
    RunJoin(c, [message] + [Does(id)] + AllDo(effects), [Does(id)]);
  }

  /** A block rolled back leaves the committed data as it was. */
  lemma BlockRolledBack<D>(c: Conn<D>, first: Event<D>, effects: seq<D -> D>, id: D -> D)
    requires Calm(c)
    ensures var r := Run(c, BlockEvents(first, effects, Rollback, id));
            r.executor == Executor(c.executor.committed, None, false) && Told(r.session) == Idle && r.open
  {
    var message := Event(Query(BlockOf(|effects|, Rollback)), first.verdict, first.fate);
    var c1 := Run(c, [message] + [Does(id)] + AllDo(effects));
    BlockOpen(c, first, effects, Rollback, id);
    assert c1.session.queue == [Plain(Rollback)] + [];
    ServeHead(c1, Rollback, [], id);
    RunOne(c1, Does(id));
    RunJoin(c, [message] + [Does(id)] + AllDo(effects), [Does(id)]);
  }

  /** A statement sent outside a block leaves its effect at once. */
  lemma LoneStatement<D>(c: Conn<D>, first: Event<D>, effect: D -> D)
    requires Calm(c)
    ensures var r := Run(c, [Event(Query([(Statement, false)]), first.verdict, first.fate), Does(effect)]);
            r.executor == Executor(effect(c.executor.committed), None, false) && Told(r.session) == Idle && r.open
  {
    var message := Event(Query([(Statement, false)]), first.verdict, first.fate);
    var c1 := Step(c, message);
    assert Enqueued([(Statement, false)]) == [Plain(Statement)];
    assert c1.session.queue == [Plain(Statement)] + [];
    ServeHead(c1, Statement, [], effect);
    assert [message, Does(effect)][1..] == [Does(effect)];
    RunOne(c1, Does(effect));
  }

  // ----- faults -----

  /** A fault takes no effect anywhere: a COMMIT or ROLLBACK ends the transaction, and anything else poisons the one that is open. */
  lemma FaultLandsNothing<D>(c: Conn<D>, active: Task, fate: Fate<D>)
    ensures var r := Serve(c, active, Fault, fate).executor;
            && r.committed == c.executor.committed
            && (active.kind.Commit? || active.kind.Rollback? ==> r.tx == None && !r.failed)
            && (!active.kind.Commit? && !active.kind.Rollback? ==> r.tx == c.executor.tx && r.failed == r.tx.Some?)
  {
  }

  /** A dropped connection is gone, and does nothing more. */
  lemma {:induction false} DroppedIsGone<D>(c: Conn<D>, active: Task, fate: Fate<D>, events: seq<Event<D>>)
    ensures var r := Serve(c, active, Drop, fate);
            !r.open && r.executor == c.executor && r.session.told == c.session.told && Run(r, events) == r
    decreases |events|
  {
    var r := Serve(c, active, Drop, fate);
    if events != [] {
      DroppedIsGone(c, active, fate, events[1..]);
      assert Step(r, events[0]) == r;
    }
  }

  /** An operation that fails takes the rest of its query with it: a simple one owes the client a ready, an extended one skips to the next Sync; a refused connect ends it all. */
  lemma FailureSkips<D>(c: Conn<D>, active: Task, verdict: Verdict, fate: Fate<D>)
    requires verdict.Fault? || (verdict.Pass? && Exec(c.executor, active.kind, fate).1.Failed?)
    ensures var r := Serve(c, active, verdict, fate);
            && r.session.queue == []
            && (r.open <==> !active.kind.Connect?)
            && (r.open ==> (if active.extended then r.session.skipping else r.session.owesReady))
  {
  }

  predicate Ignored(m: Message) {
    m.Query? || m.Execute? || m.Quiet? || m.Rejected? || m.Flush?
  }

  /** Whatever is sent while skipping is passed over, up to a Sync. */
  lemma {:induction false} SkippedToSync<D>(c: Conn<D>, events: seq<Event<D>>, sync: Event<D>)
    requires c.session.greeted && c.session.queue == [] && c.session.skipping && !c.session.owesReady && c.open
    requires (forall i :: 0 <= i < |events| ==> Ignored(events[i].message)) && sync.message.Sync?
    ensures Run(c, events + [sync]) == c.(session := c.session.(skipping := false, owesReady := true))
    decreases |events|
  {
    if events == [] {
      assert events + [sync] == [sync];
      RunOne(c, sync);
    } else {
      assert Ignored(events[0].message) && (events + [sync])[1..] == events[1..] + [sync];
      assert Step(c, events[0]) == c;
      SkippedToSync(c, events[1..], sync);
    }
  }
}
