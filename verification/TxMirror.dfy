/**
 Two machines that keep the state of one SQL transaction: the wire session,
 which tells the client, and the executor, which holds the transaction. A fault
 may be injected before any operation and the engine may fail any of them.
 */
module TxMirror {
  import opened Common

  datatype Kind = Connect | Begin | Commit | Rollback | Statement

  datatype Status = Idle | InBlock | Aborted

  // ----- the executor -----

  /** The data committed, the open transaction's view of it, and whether the transaction is poisoned. */
  datatype Executor<D> = Executor(committed: D, tx: Option<D>, failed: bool)

  /** What the engine makes of one operation. */
  datatype Fate<!D> = EngineFails | EngineDoes(effect: D -> D)

  datatype Tag = NoTag | Said(kind: Kind)

  datatype Result = Failed | Done(tag: Tag)

  function Discard<D>(x: Executor<D>): Executor<D> {
    x.(tx := None, failed := false)
  }

  function Exec<D>(x: Executor<D>, kind: Kind, fate: Fate<D>): (Executor<D>, Result) {
    match kind
    case Connect => (x, Done(NoTag))
    case Begin =>
      if x.tx.Some? then (x, Done(Said(Begin)))
      else if fate.EngineFails? then (x, Failed)
      else (x.(tx := Some(x.committed), failed := false), Done(Said(Begin)))
    case Commit =>
      if x.tx.None? then (x, Done(Said(Commit)))
      else if x.failed then (Discard(x), Done(Said(Rollback)))
      else if fate.EngineFails? then (Discard(x), Failed)
      else (Discard(x).(committed := x.tx.value), Done(Said(Commit)))
    case Rollback => (Discard(x), Done(Said(Rollback)))
    case Statement =>
      if x.failed then (x, Failed)
      else if fate.EngineFails? then (x.(failed := x.tx.Some?), Failed)
      else if x.tx.Some? then (x.(tx := Some(fate.effect(x.tx.value))), Done(Said(Statement)))
      else (x.(committed := fate.effect(x.committed)), Done(Said(Statement)))
  }

  /** What the executor is told of an operation the control layer failed. */
  function Abort<D>(x: Executor<D>, kind: Kind): Executor<D> {
    if kind.Commit? || kind.Rollback? then Discard(x) else x.(failed := x.tx.Some?)
  }

  function StatusOf<D>(x: Executor<D>): Status {
    if x.tx.None? then Idle else if x.failed then Aborted else InBlock
  }

  // ----- the session -----

  /** A statement waiting its turn; a driver statement is answered without being one. */
  datatype Task = Task(kind: Kind, extended: bool, driver: bool)

  datatype Session = Session(
    greeted: bool,
    queue: seq<Task>,
    skipping: bool,
    owesReady: bool,
    inBlock: bool,
    aborted: bool,
    told: seq<Status>)

  const FRESH := Session(false, [], false, false, false, false, [])

  function Told(s: Session): Status {
    if s.aborted then Aborted else if s.inBlock then InBlock else Idle
  }

  function Track(s: Session, kind: Kind, succeeded: bool): Session {
    match kind
    case Begin => s.(inBlock := succeeded, aborted := false)
    case Commit => s.(inBlock := false, aborted := false)
    case Rollback => s.(inBlock := false, aborted := false)
    case _ => s.(aborted := s.aborted || (!succeeded && s.inBlock))
  }

  function Reply(s: Session, active: Task): Session {
    if active.kind.Connect? then s.(owesReady := true) else Track(s, active.kind, true)
  }

  /** The session after an error frame, and whether the connection lives on. */
  function Fail(s: Session, active: Task): (Session, bool) {
    var s1 := Track(s.(queue := []), active.kind, false);
    if active.kind.Connect? then (s1, false)
    else if active.extended then (s1.(skipping := true), true)
    else (s1.(owesReady := true), true)
  }

  function ReportReady(s: Session): Session {
    if s.owesReady then s.(owesReady := false, told := s.told + [Told(s)]) else s
  }

  datatype Message =
    | Query(statements: seq<(Kind, bool)>)
    | Execute(kind: Kind, driver: bool)
    | Quiet
    | Rejected
    | Sync
    | Flush
    | Terminate
    | Unsupported

  function Enqueued(statements: seq<(Kind, bool)>): seq<Task> {
    seq(|statements|, i requires 0 <= i < |statements| => Task(statements[i].0, false, statements[i].1))
  }

  /** Decodes one message; false ends the connection. */
  function Dispatch(s: Session, m: Message): (Session, bool) {
    match m
    case Terminate => (s, false)
    case Sync => (s.(skipping := false, owesReady := true), true)
    case Flush => (s, true)
    case _ =>
      if s.skipping then (s, true)
      else
        match m
        case Query(statements) => (s.(owesReady := true, queue := s.queue + Enqueued(statements)), true)
        case Execute(kind, driver) => (s.(queue := s.queue + [Task(kind, true, driver)]), true)
        case Rejected => (s.(skipping := true), true)
        case Unsupported => (s.(skipping := true), false)
        case _ => (s, true)
  }

  /** The driver statements at the head of the queue are answered where they stand. */
  function Undriven(queue: seq<Task>): (rest: seq<Task>)
    ensures rest != [] ==> !rest[0].driver
  {
    if queue != [] && queue[0].driver then Undriven(queue[1..]) else queue
  }

  // ----- one connection -----

  datatype Verdict = Pass | Fault | Drop

  datatype Conn<D> = Conn(session: Session, executor: Executor<D>, open: bool)

  function Opened<D>(committed: D): Conn<D> {
    Conn(FRESH, Executor(committed, None, false), true)
  }

  /** The operation the session hands out next, if it has one. */
  function Pending(s: Session): Option<Task> {
    if !s.greeted then Some(Task(Connect, false, false))
    else
      var rest := Undriven(s.queue);
      if rest == [] then None else Some(rest[0])
  }

  function Taken(s: Session): Session
    requires Pending(s).Some?
  {
    if !s.greeted then s.(greeted := true) else s.(queue := Undriven(s.queue)[1..])
  }

  /** Carries out one verdict on the operation handed out. */
  function Serve<D>(c: Conn<D>, active: Task, verdict: Verdict, fate: Fate<D>): Conn<D> {
    match verdict
    case Drop => c.(open := false)
    case Fault =>
      var (s, alive) := Fail(c.session, active);
      Conn(s, Abort(c.executor, active.kind), alive)
    case Pass =>
      var (x, result) := Exec(c.executor, active.kind, fate);
      if result.Failed? then
        var (s, alive) := Fail(c.session, active);
        Conn(s, x, alive)
      else Conn(Reply(c.session, active), x, true)
  }

  datatype Event<!D> = Event(message: Message, verdict: Verdict, fate: Fate<D>)

  /** One turn of the serving loop: an operation if one is waiting, else the next message. */
  function Step<D>(c: Conn<D>, event: Event<D>): Conn<D> {
    if !c.open then c
    else
      match Pending(c.session)
      case Some(active) => Serve(c.(session := Taken(c.session)), active, event.verdict, event.fate)
      case None =>
        var (s, alive) := Dispatch(ReportReady(c.session.(queue := [])), event.message);
        c.(session := s, open := alive)
  }

  function Run<D>(c: Conn<D>, events: seq<Event<D>>): Conn<D>
    decreases |events|
  {
    if events == [] then c else Run(Step(c, events[0]), events[1..])
  }

  // ----- the two machines agree -----

  /** What the client would be told is what the executor is in. */
  ghost predicate Mirrored<D>(c: Conn<D>) {
    && (c.executor.tx.None? ==> !c.executor.failed)
    && (c.session.aborted ==> c.session.inBlock)
    && Told(c.session) == StatusOf(c.executor)
  }

  /** A BEGIN inside a block that was faulted, or that meets a poisoned transaction. */
  ghost predicate Diverges<D>(c: Conn<D>, event: Event<D>) {
    && c.open
    && Pending(c.session).Some? && Pending(c.session).value.kind.Begin?
    && c.executor.tx.Some?
    && (event.verdict.Fault? || (event.verdict.Pass? && c.executor.failed))
  }

  lemma FaultExact<D>(c: Conn<D>, active: Task, fate: Fate<D>)
    requires Mirrored(c)
    ensures Mirrored(Serve(c, active, Fault, fate)) <==> !(active.kind.Begin? && c.executor.tx.Some?)
  {
  }

  lemma PassExact<D>(c: Conn<D>, active: Task, fate: Fate<D>)
    requires Mirrored(c)
    ensures Mirrored(Serve(c, active, Pass, fate)) <==> !(active.kind.Begin? && c.executor.tx.Some? && c.executor.failed)
  {
    match active.kind
    case Connect =>
    case Begin =>
    case Commit =>
    case Rollback =>
    case Statement =>
  }

  /** Reading a message moves neither machine. */
  lemma DispatchStays(s: Session, m: Message)
    ensures var r := Dispatch(ReportReady(s), m).0; r.inBlock == s.inBlock && r.aborted == s.aborted
  {
  }

  /** From a mirrored state one turn keeps the machines agreed exactly when it does not diverge. */
  lemma MirrorExact<D>(c: Conn<D>, event: Event<D>)
    requires Mirrored(c)
    ensures Mirrored(Step(c, event)) <==> !Diverges(c, event)
  {
    if c.open {
      match Pending(c.session)
      case Some(active) =>
        var taken := c.(session := Taken(c.session));
        assert Mirrored(taken);
        FaultExact(taken, active, event.fate);
        PassExact(taken, active, event.fate);
        assert event.verdict.Drop? ==> Mirrored(Serve(taken, active, Drop, event.fate));
      case None => DispatchStays(c.session.(queue := []), event.message);
    }
  }

  /** No BEGIN is served while a transaction is open. */
  predicate BeginsOutside<D>(c: Conn<D>, events: seq<Event<D>>)
    decreases |events|
  {
    events == [] ||
    (!(Pending(c.session).Some? && Pending(c.session).value.kind.Begin? && c.executor.tx.Some?) &&
     BeginsOutside(Step(c, events[0]), events[1..]))
  }

  /** Along every run in which BEGIN is sent only outside a block, the client is told the truth. */
  lemma {:induction false} StatusIsTrue<D>(c: Conn<D>, events: seq<Event<D>>)
    requires Mirrored(c) && BeginsOutside(c, events)
    ensures Mirrored(Run(c, events))
    decreases |events|
  {
    if events != [] {
      MirrorExact(c, events[0]);
      StatusIsTrue(Step(c, events[0]), events[1..]);
    }
  }

  /** The machines agree before the run and after each of its turns. */
  ghost predicate AlwaysMirrored<D>(c: Conn<D>, events: seq<Event<D>>)
    decreases |events|
  {
    Mirrored(c) && (events == [] || AlwaysMirrored(Step(c, events[0]), events[1..]))
  }

  ghost predicate NeverDiverges<D>(c: Conn<D>, events: seq<Event<D>>)
    decreases |events|
  {
    events == [] || (!Diverges(c, events[0]) && NeverDiverges(Step(c, events[0]), events[1..]))
  }

  /** Over every run, whatever is sent, the machines agree all along if and only if no turn diverges. */
  lemma {:induction false} RunMirrorExact<D>(c: Conn<D>, events: seq<Event<D>>)
    requires Mirrored(c)
    ensures AlwaysMirrored(c, events) <==> NeverDiverges(c, events)
    decreases |events|
  {
    if events != [] {
      MirrorExact(c, events[0]);
      if Mirrored(Step(c, events[0])) {
        RunMirrorExact(Step(c, events[0]), events[1..]);
      }
    }
  }

  // ----- a run that diverges -----

  const BEGINNING := Query([(Begin, false)])

  /** Connect, BEGIN, and BEGIN again, faulted; then the next message. */
  function BeginTwice<D>(effect: D -> D): seq<Event<D>> {
    var does := EngineDoes(effect);
    [Event(Quiet, Pass, does), Event(BEGINNING, Pass, does), Event(Quiet, Pass, does),
     Event(BEGINNING, Pass, does), Event(Quiet, Fault, does), Event(Sync, Pass, does)]
  }

  /** The session and the executor after the first BEGIN, with the second one read. */
  function InsideBlock<D>(data: D): Conn<D> {
    Conn(Session(true, [Task(Begin, false, false)], false, true, true, false, [Idle, InBlock]),
         Executor(data, Some(data), false), true)
  }

  lemma BeginOnce<D>(data: D, effect: D -> D)
    ensures Run(Opened(data), BeginTwice(effect)[..4]) == InsideBlock(data)
  {
    var events := BeginTwice(effect);
    var task := Task(Begin, false, false);
    assert Enqueued([(Begin, false)]) == [task];
    var c1 := Step(Opened(data), events[0]);
    assert c1 == Conn(Session(true, [], false, true, false, false, []), Executor(data, None, false), true);
    var c2 := Step(c1, events[1]);
    assert [] + [task] == [task] && [] + [Idle] == [Idle];
    assert c2 == Conn(Session(true, [task], false, true, false, false, [Idle]), Executor(data, None, false), true);
    var c3 := Step(c2, events[2]);
    assert [task][1..] == [];
    assert c3 == Conn(Session(true, [], false, true, true, false, [Idle]), Executor(data, Some(data), false), true);
    var c4 := Step(c3, events[3]);
    assert [Idle] + [InBlock] == [Idle, InBlock];
    assert c4 == InsideBlock(data);
    RunFour(Opened(data), events[..4]);
  }

  lemma RunFour<D>(c: Conn<D>, events: seq<Event<D>>)
    requires |events| == 4
    ensures Run(c, events) == Step(Step(Step(Step(c, events[0]), events[1]), events[2]), events[3])
  {
    var e1, e2, e3 := events[1..], events[1..][1..], events[1..][1..][1..];
    assert e1[0] == events[1] && e2[0] == events[2] && e3[0] == events[3] && e3[1..] == [];
    var c1 := Step(c, events[0]);
    var c2 := Step(c1, e1[0]);
    var c3 := Step(c2, e2[0]);
    var c4 := Step(c3, e3[0]);
    assert Run(c4, e3[1..]) == c4;
    assert Run(c3, e3) == c4;
    assert Run(c2, e2) == c4;
    assert Run(c1, e1) == c4;
  }

  /** A faulted BEGIN inside a block: the client is told it is idle while its transaction is open and poisoned. */
  lemma FaultedBeginDiverges<D>(data: D, effect: D -> D)
    ensures var events := BeginTwice(effect);
            var before := Run(Opened(data), events[..4]);
            var after := Step(Step(before, events[4]), events[5]);
            && Mirrored(before) && Diverges(before, events[4])
            && after.session.told == before.session.told + [Idle] && StatusOf(after.executor) == Aborted
  {
    BeginOnce(data, effect);
    var task := Task(Begin, false, false);
    assert [task][1..] == [];
  }

  lemma FrameKeepsTold(s: Session, active: Task)
    ensures Fail(s, active).0.told == s.told && Reply(s, active).told == s.told
  {
  }

  lemma ServeKeepsTold<D>(c: Conn<D>, active: Task, verdict: Verdict, fate: Fate<D>)
    ensures Serve(c, active, verdict, fate).session.told == c.session.told
  {
    FrameKeepsTold(c.session, active);
    match verdict
    case Drop =>
    case Fault =>
    case Pass => var (x, result) := Exec(c.executor, active.kind, fate);
  }

  lemma DispatchKeepsTold(s: Session, m: Message)
    ensures Dispatch(s, m).0.told == s.told
  {
  }

  /** And what it was told last is still so while nothing has been served since. */
  lemma ReadyTellsTheTruth<D>(committed: D, events: seq<Event<D>>, event: Event<D>)
    requires BeginsOutside(Opened(committed), events)
    ensures var c := Run(Opened(committed), events);
            var r := Step(c, event);
            |r.session.told| > |c.session.told| ==>
              && r.session.told == c.session.told + [StatusOf(c.executor)]
              && r.executor == c.executor
  {
    StatusIsTrue(Opened(committed), events);
    var c := Run(Opened(committed), events);
    if c.open {
      match Pending(c.session)
      case Some(active) => ServeKeepsTold(c.(session := Taken(c.session)), active, event.verdict, event.fate);
      case None => DispatchKeepsTold(ReportReady(c.session.(queue := [])), event.message);
    }
  }

  // ----- a COMMIT that does not happen -----

  /** A COMMIT that is faulted, that the engine fails, or that meets a poisoned transaction. */
  ghost predicate CommitFails<D>(c: Conn<D>, event: Event<D>) {
    && c.open && Pending(c.session).Some? && Pending(c.session).value.kind.Commit?
    && (event.verdict.Fault? ||
        (event.verdict.Pass? && c.executor.tx.Some? && (c.executor.failed || event.fate.EngineFails?)))
  }

  /** Such a COMMIT leaves both machines idle and the committed data as it was. */
  lemma FailedCommitLandsNothing<D>(c: Conn<D>, event: Event<D>)
    requires CommitFails(c, event)
    ensures var r := Step(c, event);
            && r.executor == Executor(c.executor.committed, None, false)
            && Told(r.session) == Idle
            && r.open
  {
  }

  /** The committed data changes only by a COMMIT that succeeds or a statement outside a block. */
  lemma CommittedOnlyBy<D>(c: Conn<D>, event: Event<D>)
    requires Step(c, event).executor.committed != c.executor.committed
    ensures c.open && Pending(c.session).Some? && event.verdict.Pass? && event.fate.EngineDoes? && !c.executor.failed
    ensures var kind := Pending(c.session).value.kind;
            || (kind.Commit? && c.executor.tx == Some(Step(c, event).executor.committed))
            || (kind.Statement? && c.executor.tx.None?)
  {
  }

  // ----- one ReadyForQuery per request -----

  /** How many ready frames the event earns: a connection made, a query taken up, a synchronisation. */
  function Earns<D>(c: Conn<D>, event: Event<D>): nat {
    if !c.open then 0
    else
      match Pending(c.session)
      case Some(active) => if active.kind.Connect? && event.verdict.Pass? then 1 else 0
      case None => if event.message.Sync? || (event.message.Query? && !c.session.skipping) then 1 else 0
  }

  function Earned<D>(c: Conn<D>, events: seq<Event<D>>): nat
    decreases |events|
  {
    if events == [] then 0 else Earns(c, events[0]) + Earned(Step(c, events[0]), events[1..])
  }

  function Owed(s: Session): nat {
    if s.owesReady then 1 else 0
  }

  /** A simple statement waits only while its query's ready frame is owed; connecting comes first and once. */
  ghost predicate Orderly(s: Session) {
    && (forall i :: 0 <= i < |s.queue| ==> !s.queue[i].kind.Connect? && (!s.queue[i].extended ==> s.owesReady))
    && (!s.greeted ==> s.queue == [] && !s.owesReady)
  }

  /** Messages carry statements, not connects. */
  predicate Decoded<D>(event: Event<D>) {
    match event.message
    case Query(statements) => forall i :: 0 <= i < |statements| ==> !statements[i].0.Connect?
    case Execute(kind, _) => !kind.Connect?
    case _ => true
  }

  lemma {:induction false} UndrivenIsSuffix(queue: seq<Task>) returns (k: nat)
    ensures k <= |queue| && Undriven(queue) == queue[k..]
  {
    k := 0;
    if queue != [] && queue[0].driver {
      var j := UndrivenIsSuffix(queue[1..]);
      k := j + 1;
    }
  }

  lemma TakenOrderly(s: Session)
    requires Orderly(s) && Pending(s).Some? && s.greeted
    ensures Orderly(Taken(s)) && !Pending(s).value.kind.Connect? && (!Pending(s).value.extended ==> s.owesReady)
  {
    var k := UndrivenIsSuffix(s.queue);
  }

  lemma ServeReady<D>(c: Conn<D>, active: Task, verdict: Verdict, fate: Fate<D>)
    requires Orderly(c.session) && c.session.greeted && !active.kind.Connect? && (!active.extended ==> c.session.owesReady)
    ensures var r := Serve(c, active, verdict, fate).session;
            Orderly(r) && r.greeted && Owed(r) == Owed(c.session) && r.told == c.session.told
  {
  }

  lemma ReceiveReady(s: Session, m: Message)
    requires s.greeted && s.queue == []
    requires m.Query? ==> forall i :: 0 <= i < |m.statements| ==> !m.statements[i].0.Connect?
    requires m.Execute? ==> !m.kind.Connect?
    ensures var r := Dispatch(ReportReady(s), m).0;
            && Orderly(r)
            && |r.told| + Owed(r) ==
               |s.told| + Owed(s) + if m.Sync? || (m.Query? && !s.skipping) then 1 else 0
  {
  }

  lemma StepReady<D>(c: Conn<D>, event: Event<D>)
    requires Orderly(c.session) && Decoded(event)
    ensures Orderly(Step(c, event).session)
    ensures |Step(c, event).session.told| + Owed(Step(c, event).session) ==
            |c.session.told| + Owed(c.session) + Earns(c, event)
  {
    if c.open {
      match Pending(c.session)
      case None => ReceiveReady(c.session.(queue := []), event.message);
      case Some(active) =>
        if c.session.greeted {
          TakenOrderly(c.session);
          ServeReady(c.(session := Taken(c.session)), active, event.verdict, event.fate);
        } else {
          assert active.kind.Connect?;
        }
    }
  }

  lemma {:induction false} RunReady<D>(c: Conn<D>, events: seq<Event<D>>)
    requires Orderly(c.session) && forall i :: 0 <= i < |events| ==> Decoded(events[i])
    ensures |Run(c, events).session.told| + Owed(Run(c, events).session) ==
            |c.session.told| + Owed(c.session) + Earned(c, events)
    decreases |events|
  {
    if events != [] {
      StepReady(c, events[0]);
      RunReady(Step(c, events[0]), events[1..]);
    }
  }

  /** Over every run, ready frames sent and owed are as many as were earned: none is lost, none doubled. */
  lemma OneReadyPerRequest<D>(committed: D, events: seq<Event<D>>)
    requires forall i :: 0 <= i < |events| ==> Decoded(events[i])
    ensures var c := Run(Opened(committed), events);
            |c.session.told| + Owed(c.session) == Earned(Opened(committed), events)
  {
    RunReady(Opened(committed), events);
  }

  // ----- the objects -----

  class SqlConnection<D> {
    var committed: D
    var tx: Option<D>
    var failed: bool

    ghost function Abs(): Executor<D>
      reads this
    {
      Executor(committed, tx, failed)
    }

    constructor (data: D)
      ensures Abs() == Executor(data, None, false)
    {
      committed, tx, failed := data, None, false;
    }

    method Execute(kind: Kind, fate: Fate<D>) returns (result: Result)
      modifies this
      ensures (Abs(), result) == Exec(old(Abs()), kind, fate)
    {
      match kind
      case Connect => result := Done(NoTag);
      case Begin => result := BeginTx(fate);
      case Commit => result := CommitTx(fate);
      case Rollback =>
        DiscardTx();
        result := Done(Said(Rollback));
      case Statement => result := RunStatement(fate);
    }

    method BeginTx(fate: Fate<D>) returns (result: Result)
      modifies this
      ensures (Abs(), result) == Exec(old(Abs()), Begin, fate)
    {
      if tx.Some? {
        return Done(Said(Begin));
      }
      if fate.EngineFails? {
        return Failed;
      }
      tx, failed := Some(committed), false;
      return Done(Said(Begin));
    }

    method CommitTx(fate: Fate<D>) returns (result: Result)
      modifies this
      ensures (Abs(), result) == Exec(old(Abs()), Commit, fate)
    {
      if tx.None? {
        return Done(Said(Commit));
      }
      if failed {
        DiscardTx();
        return Done(Said(Rollback));
      }
      if fate.EngineDoes? {
        committed := tx.value;
      }
      tx, failed := None, false;
      return if fate.EngineFails? then Failed else Done(Said(Commit));
    }

    method DiscardTx()
      modifies this`tx, this`failed
      ensures Abs() == Discard(old(Abs()))
    {
      failed := false;
      if tx.None? {
        return;
      }
      tx := None;
    }

    method RunStatement(fate: Fate<D>) returns (result: Result)
      modifies this
      ensures (Abs(), result) == Exec(old(Abs()), Statement, fate)
    {
      if failed {
        return Failed;
      }
      if fate.EngineFails? {
        failed := tx.Some?;
        return Failed;
      }
      if tx.Some? {
        tx := Some(fate.effect(tx.value));
      } else {
        committed := fate.effect(committed);
      }
      return Done(Said(Statement));
    }

    method AbortOp(kind: Kind)
      modifies this`tx, this`failed
      ensures Abs() == Abort(old(Abs()), kind)
    {
      if kind.Commit? || kind.Rollback? {
        DiscardTx();
      } else {
        failed := tx.Some?;
      }
    }
  }

  class WireSession {
    var greeted: bool
    var queue: seq<Task>
    var active: Task
    var skipping: bool
    var owesReady: bool
    var inBlock: bool
    var aborted: bool
    var told: seq<Status>

    ghost function Abs(): Session
      reads this
    {
      Session(greeted, queue, skipping, owesReady, inBlock, aborted, told)
    }

    constructor ()
      ensures Abs() == FRESH
    {
      greeted, queue, active := false, [], Task(Connect, false, false);
      skipping, owesReady, inBlock, aborted, told := false, false, false, false, [];
    }

    /** The next operation to serve, passing over driver statements; none when a message must be read. */
    method NextOp() returns (op: Option<Task>)
      modifies this`greeted, this`queue, this`active
      ensures op == Pending(old(Abs()))
      ensures op.Some? ==> Abs() == Taken(old(Abs())) && active == op.value
      ensures op.None? ==> Abs() == old(Abs()).(queue := [])
    {
      if !greeted {
        greeted := true;
        active := Task(Connect, false, false);
        return Some(active);
      }
      while |queue| > 0
        invariant greeted == old(greeted) && Undriven(queue) == Undriven(old(queue))
        decreases |queue|
      {
        active, queue := queue[0], queue[1..];
        if !active.driver {
          return Some(active);
        }
      }
      return None;
    }

    method TrackKind(kind: Kind, succeeded: bool)
      modifies this`inBlock, this`aborted
      ensures Abs() == Track(old(Abs()), kind, succeeded)
    {
      match kind
      case Begin => inBlock, aborted := succeeded, false;
      case Commit => inBlock, aborted := false, false;
      case Rollback => inBlock, aborted := false, false;
      case _ => aborted := aborted || (!succeeded && inBlock);
    }

    method SendReply()
      modifies this`inBlock, this`aborted, this`owesReady
      ensures Abs() == Reply(old(Abs()), active)
    {
      if active.kind.Connect? {
        owesReady := true;
        return;
      }
      TrackKind(active.kind, true);
    }

    method SendError() returns (alive: bool)
      modifies this
      ensures (Abs(), alive) == Fail(old(Abs()), old(active))
    {
      queue := [];
      TrackKind(active.kind, false);
      if active.kind.Connect? {
        return false;
      }
      if active.extended {
        skipping := true;
      } else {
        owesReady := true;
      }
      return true;
    }
  }

  /** One verdict carried out on the two objects. */
  method ServeOp<D>(session: WireSession, executor: SqlConnection<D>, verdict: Verdict, fate: Fate<D>) returns (alive: bool)
    modifies session, executor
    ensures Conn(session.Abs(), executor.Abs(), alive) ==
            Serve(Conn(old(session.Abs()), old(executor.Abs()), true), old(session.active), verdict, fate)
  {
    var kind := session.active.kind;
    if verdict.Drop? {
      return false;
    }
    if verdict.Fault? {
      executor.AbortOp(kind);
      alive := session.SendError();
      return;
    }
    var result := executor.Execute(kind, fate);
    if result.Failed? {
      alive := session.SendError();
      return;
    }
    session.SendReply();
    return true;
  }
}
