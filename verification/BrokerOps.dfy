/**
 The operations a client connection can ask of the broker, each as a function
 from the state before to the state after and the reply. A failed operation
 answers an AMQP reply code and, but for the counters of generated names,
 leaves the state alone.
 */
module BrokerOps {
  import opened Common
  import opened Routing
  import opened Broker

  const NOT_FOUND := 404
  const ACCESS_REFUSED := 403
  const PRECONDITION_FAILED := 406
  const NOT_ALLOWED := 530
  const COMMAND_INVALID := 503

  const CONSUMER_PREFIX := "amq.ctag-"
  const QUEUE_PREFIX := "amq.gen-"

  datatype Gauges = Gauges(depth: nat, unacked: int, consumers: nat)

  datatype Reply =
    | Refused(code: nat)
    | Done(gauges: Gauges)
    | Named(name: string, gauges: Gauges)
    | Counted(removed: nat, gauges: Gauges)
    | Routed(routed: nat, gauges: Gauges)
    | Fetched(delivery: Delivery, gauges: Gauges)

  /**
   One operation. A walk over a Go map visits its keys in any order: the
   operations that walk one carry the order, and hold for every one of them.
   */
  datatype Op =
    | Open
    | DeclareExchange(name: string, kind: string, passive: bool)
    | DeclareQueue(name: string, passive: bool)
    | Bind(name: string, exchange: string, key: string)
    | Publish(message: Message)
    | Get(conn: nat, name: string, channel: nat, noAck: bool)
    | Consume(conn: nat, name: string, tag: string, channel: nat, noAck: bool)
    | Cancel(conn: nat, tag: string)
    | Qos(conn: nat, channel: nat, prefetch: int, tags: seq<string>)
    | Settle(conn: nat, tagNo: nat, channel: nat, multiple: bool, requeue: bool)
    | Purge(name: string)
    | Delete(name: string)
    | Close(conn: nat, tags: seq<string>, held: seq<nat>, order: seq<nat>)

  ghost predicate IsOrder<T(!new)>(order: seq<T>, keys: set<T>) {
    Distinct(order) && forall x :: x in order <==> x in keys
  }

  /** The operation comes from an open connection, and its orders are orders. */
  ghost predicate Admissible(s: State, op: Op) {
    match op
    case Get(c, _, _, _) => c < |s.conns|
    case Consume(c, _, _, _, _) => c < |s.conns|
    case Cancel(c, _) => c < |s.conns|
    case Qos(c, _, _, tags) => c < |s.conns| && IsOrder(tags, s.conns[c].consumers.Keys)
    case Settle(c, _, _, _, _) => c < |s.conns|
    case Close(c, tags, held, order) =>
      && c < |s.conns|
      && IsOrder(tags, s.conns[c].consumers.Keys)
      && IsOrder(held, s.conns[c].held.Keys)
      && IsOrder(order, s.names.Values)
    case _ => true
  }

  // ----- gauges -----

  const NO_GAUGES := Gauges(0, 0, 0)

  function GaugesOf(q: Queue): Gauges {
    Gauges(|q.ready|, q.unacked, |q.consumers|)
  }

  /** The first of the fullest queues. */
  function Fullest(queues: seq<Queue>, reached: seq<nat>): (r: Option<nat>)
    requires forall i :: 0 <= i < |reached| ==> reached[i] < |queues|
    ensures reached == [] <==> r.None?
    ensures r.Some? ==> r.value in reached
    ensures r.Some? ==> forall q :: q in reached ==> |queues[q].ready| <= |queues[r.value].ready|
  {
    if reached == [] then None
    else
      var last := reached[|reached| - 1];
      var before := Fullest(queues, reached[..|reached| - 1]);
      if before.None? || |queues[last].ready| > |queues[before.value].ready| then Some(last) else before
  }

  function GaugesFor(queues: seq<Queue>, reached: seq<nat>): Gauges
    requires forall i :: 0 <= i < |reached| ==> reached[i] < |queues|
  {
    match Fullest(queues, reached)
    case None => NO_GAUGES
    case Some(q) => GaugesOf(queues[q])
  }

  // ----- declarations -----

  function KindOf(name: string): Option<Kind> {
    if name == "direct" then Some(Direct)
    else if name == "fanout" then Some(Fanout)
    else if name == "topic" then Some(Topic)
    else None
  }

  function DoDeclareExchange(s: State, name: string, kind: string, passive: bool): (State, Reply) {
    if name == DEFAULT_EXCHANGE then (s, Refused(ACCESS_REFUSED))
    else if passive then (s, if name in s.exchanges then Done(NO_GAUGES) else Refused(NOT_FOUND))
    else if KindOf(kind).None? then (s, Refused(COMMAND_INVALID))
    else if name in s.exchanges then
      (s, if s.exchanges[name].kind != KindOf(kind).value then Refused(PRECONDITION_FAILED) else Done(NO_GAUGES))
    else (s.(exchanges := s.exchanges[name := Exchange(KindOf(kind).value, [])]), Done(NO_GAUGES))
  }

  function DoDeclareQueue(s: State, name: string, passive: bool): (State, Reply)
    requires Linked(s)
  {
    if passive then
      (s, if name in s.names then Named(name, GaugesOf(s.queues[s.names[name]])) else Refused(NOT_FOUND))
    else
      var s1 := if name == "" then s.(generated := s.generated + 1) else s;
      var chosen := if name == "" then QUEUE_PREFIX + Digits(s1.generated) else name;
      if chosen in s1.names then (s1, Named(chosen, GaugesOf(s1.queues[s1.names[chosen]])))
      else
        var created := Queue(chosen, [], 0, [], 0);
        (s1.(names := s1.names[chosen := |s1.queues|],
             queues := s1.queues + [created],
             ledgers := s1.ledgers + [EMPTY_LEDGER]),
         Named(chosen, GaugesOf(created)))
  }

  function DoBind(s: State, name: string, exchange: string, key: string): (State, Reply)
    requires Linked(s)
  {
    if name !in s.names then (s, Refused(NOT_FOUND))
    else if exchange == DEFAULT_EXCHANGE then (s, Refused(ACCESS_REFUSED))
    else if exchange !in s.exchanges then (s, Refused(NOT_FOUND))
    else
      var q := s.names[name];
      var e := s.exchanges[exchange];
      (s.(exchanges := s.exchanges[exchange := e.(bindings := e.bindings + [Binding(q, key)])]),
       Done(GaugesOf(s.queues[q])))
  }

  // ----- publishing -----

  /** Every queue a message addressed this way reaches. */
  function Destinations(s: State, exchange: string, key: string): (reached: seq<nat>)
    requires Linked(s)
    ensures forall i :: 0 <= i < |reached| ==> reached[i] < |s.queues|
    ensures Distinct(reached)
  {
    if exchange == DEFAULT_EXCHANGE then (if key in s.names then [s.names[key]] else [])
    else if exchange !in s.exchanges then []
    else
      assert ExchangeLinked(s.exchanges[exchange], |s.queues|);
      var reached := Reached(s.exchanges[exchange].kind, s.exchanges[exchange].bindings, key);
      assert forall i :: 0 <= i < |reached| ==> reached[i] in reached;
      reached
  }

  function Enqueue(s: State, q: nat, m: Message): (r: State)
    requires Linked(s) && q < |s.queues|
    ensures Linked(r) && |r.queues| == |s.queues| && r.conns == s.conns && r.names == s.names
  {
    var queue := s.queues[q];
    var l := s.ledgers[q];
    s.(queues := s.queues[q := queue.(ready := queue.ready + [Pending(m, false)])],
       ledgers := s.ledgers[q := l.(enqueued := l.enqueued + multiset{m})])
  }

  function PublishTo(s: State, m: Message, reached: seq<nat>): (r: State)
    requires Linked(s) && forall i :: 0 <= i < |reached| ==> reached[i] < |s.queues|
    ensures Linked(r) && |r.queues| == |s.queues| && |r.conns| == |s.conns|
    decreases |reached|
  {
    if reached == [] then s
    else PublishTo(Dispatch(Enqueue(s, reached[0], m), reached[0]), m, reached[1..])
  }

  function DoPublish(s: State, m: Message): (State, Reply)
    requires Linked(s)
  {
    if m.exchange != DEFAULT_EXCHANGE && m.exchange !in s.exchanges then (s, Refused(NOT_FOUND))
    else
      var reached := Destinations(s, m.exchange, m.routingKey);
      var s1 := PublishTo(s, m, reached);
      (s1, Routed(|reached|, GaugesFor(s1.queues, reached)))
  }

  // ----- taking -----

  function DoGet(s: State, c: nat, name: string, channel: nat, noAck: bool): (State, Reply)
    requires Linked(s) && c < |s.conns|
  {
    if name !in s.names then (s, Refused(NOT_FOUND))
    else
      var q := s.names[name];
      if s.queues[q].ready == [] then (s, Done(GaugesOf(s.queues[q])))
      else
        var s1 := HandOut(s, q, c, channel, noAck);
        (s1, Fetched(DeliveryOf(s, q, c, "", channel, noAck), GaugesOf(s1.queues[q])))
  }

  /** Lists a consumer with its connection and its queue, before any dispatch. */
  function Subscribed(s: State, k: Consumer): (r: State)
    requires Linked(s) && k.queue < |s.queues| && k.owner < |s.conns|
    ensures Linked(r) && |r.queues| == |s.queues| && |r.conns| == |s.conns|
  {
    var conn := s.conns[k.owner];
    var queue := s.queues[k.queue];
    assert ConnLinked(conn, k.owner, |s.queues|);
    assert QueueLinked(queue, k.queue, |s.conns|);
    s.(conns := s.conns[k.owner := conn.(consumers := conn.consumers[k.tag := k])],
       queues := s.queues[k.queue := queue.(consumers := queue.consumers + [k])])
  }

  /** The connection after naming a consumer the client left unnamed. */
  function WithCounter(s: State, c: nat, tag: string): (r: State)
    requires Linked(s) && c < |s.conns|
    ensures Linked(r) && r.queues == s.queues && |r.conns| == |s.conns| && r.names == s.names
  {
    if tag != "" then s
    else
      var conn := s.conns[c].(generated := s.conns[c].generated + 1);
      assert ConnLinked(conn, c, |s.queues|) by { assert ConnLinked(s.conns[c], c, |s.queues|); }
      SetConn(s, c, conn)
  }

  function ChosenTag(s: State, c: nat, tag: string): string
    requires c < |s.conns|
  {
    if tag != "" then tag else CONSUMER_PREFIX + Digits(s.conns[c].generated + 1)
  }

  function DoConsume(s: State, c: nat, name: string, tag: string, channel: nat, noAck: bool): (State, Reply)
    requires Linked(s) && c < |s.conns|
  {
    if name !in s.names then (s, Refused(NOT_FOUND))
    else
      var s1 := WithCounter(s, c, tag);
      var chosen := ChosenTag(s, c, tag);
      if chosen in s1.conns[c].consumers then (s1, Refused(NOT_ALLOWED))
      else
        var q := s.names[name];
        var s2 := Dispatch(Subscribed(s1, Consumer(chosen, q, c, channel, noAck)), q);
        (s2, Named(chosen, GaugesOf(s2.queues[q])))
  }

  /** Takes a consumer off its connection's list. */
  function Forgotten(s: State, c: nat, tag: string): (r: State)
    requires Linked(s) && c < |s.conns|
    ensures Linked(r) && r.queues == s.queues && |r.conns| == |s.conns| && r.names == s.names && r.ledgers == s.ledgers
    ensures r.exchanges == s.exchanges
  {
    var conn := s.conns[c].(consumers := s.conns[c].consumers - {tag});
    assert ConnLinked(conn, c, |s.queues|) by { assert ConnLinked(s.conns[c], c, |s.queues|); }
    SetConn(s, c, conn)
  }

  function DoCancel(s: State, c: nat, tag: string): (State, Reply)
    requires Linked(s) && c < |s.conns|
  {
    if tag !in s.conns[c].consumers then (s, Refused(NOT_FOUND))
    else
      assert ConnLinked(s.conns[c], c, |s.queues|);
      var q := s.conns[c].consumers[tag].queue;
      var s1 := DropConsumer(Forgotten(s, c, tag), q, tag);
      (s1, Named(tag, GaugesOf(s1.queues[q])))
  }

  /** The queues of the named consumers of connection c. */
  function QueuesOf(s: State, c: nat, tags: seq<string>): (qs: seq<nat>)
    requires Linked(s) && c < |s.conns| && forall i :: 0 <= i < |tags| ==> tags[i] in s.conns[c].consumers
    ensures |qs| == |tags| && forall i :: 0 <= i < |qs| ==> qs[i] == s.conns[c].consumers[tags[i]].queue < |s.queues|
  {
    assert ConnLinked(s.conns[c], c, |s.queues|);
    seq(|tags|, i requires 0 <= i < |tags| => s.conns[c].consumers[tags[i]].queue)
  }

  function Limited(s: State, c: nat, channel: nat, prefetch: int): (r: State)
    requires Linked(s) && c < |s.conns|
    ensures Linked(r) && r.queues == s.queues && |r.conns| == |s.conns| && r.names == s.names
    ensures r.conns[c].consumers == s.conns[c].consumers
  {
    var conn := s.conns[c].(prefetch := s.conns[c].prefetch[channel := prefetch]);
    assert ConnLinked(conn, c, |s.queues|) by { assert ConnLinked(s.conns[c], c, |s.queues|); }
    SetConn(s, c, conn)
  }

  function DoQos(s: State, c: nat, channel: nat, prefetch: int, tags: seq<string>): (State, Reply)
    requires Linked(s) && c < |s.conns| && forall i :: 0 <= i < |tags| ==> tags[i] in s.conns[c].consumers
  {
    var s1 := Limited(s, c, channel, prefetch);
    (DispatchAll(s1, QueuesOf(s1, c, tags)), Done(NO_GAUGES))
  }

  // ----- settling -----

  /** The deliveries an acknowledgement names, or none when it names one never made. */
  function TagsNamed(c: Connection, tag: nat, channel: nat, multiple: bool): Option<seq<nat>> {
    if multiple then Some(Selected(c, c.nextTag, tag, channel))
    else if tag in c.held then Some([tag])
    else None
  }

  lemma NamedAreHeld(c: Connection, tag: nat, channel: nat, multiple: bool)
    ensures var tags := TagsNamed(c, tag, channel, multiple);
            tags.Some? ==> Distinct(tags.value) && forall t :: t in tags.value ==> t in c.held
  {
  }

  /** The queue whose gauges a settlement reports: the last one it touched. */
  function LastSource(s: State, c: nat, tags: seq<nat>): (q: nat)
    requires Linked(s) && c < |s.conns| && tags != [] && tags[|tags| - 1] in s.conns[c].held
    ensures q < |s.queues|
  {
    assert ConnLinked(s.conns[c], c, |s.queues|);
    s.conns[c].held[tags[|tags| - 1]].queue
  }

  function DoSettle(s: State, c: nat, tag: nat, channel: nat, multiple: bool, requeue: bool): (State, Reply)
    requires Linked(s) && c < |s.conns|
  {
    NamedAreHeld(s.conns[c], tag, channel, multiple);
    match TagsNamed(s.conns[c], tag, channel, multiple)
    case None => (s, Refused(PRECONDITION_FAILED))
    case Some(tags) =>
      var s1 := SettleAll(s, c, tags, requeue);
      (s1, Done(if tags == [] then NO_GAUGES else GaugesOf(s1.queues[LastSource(s, c, tags)])))
  }

  // ----- throwing away -----

  function Discard(s: State, q: nat): (r: State)
    requires Linked(s) && q < |s.queues|
    ensures Linked(r) && |r.queues| == |s.queues| && r.conns == s.conns && r.names == s.names
    ensures r.exchanges == s.exchanges
  {
    var l := s.ledgers[q];
    s.(queues := s.queues[q := s.queues[q].(ready := [])],
       ledgers := s.ledgers[q := l.(discarded := l.discarded + Messages(s.queues[q].ready))])
  }

  function DoPurge(s: State, name: string): (State, Reply)
    requires Linked(s)
  {
    if name !in s.names then (s, Refused(NOT_FOUND))
    else
      var q := s.names[name];
      var s1 := Discard(s, q);
      (s1, Counted(|s.queues[q].ready|, GaugesOf(s1.queues[q])))
  }

  /** Takes each listed consumer off its owner's list. */
  function ForgetAll(s: State, listed: seq<Consumer>): (r: State)
    requires Linked(s) && forall i :: 0 <= i < |listed| ==> listed[i].owner < |s.conns|
    ensures Linked(r) && r.queues == s.queues && |r.conns| == |s.conns| && r.names == s.names && r.ledgers == s.ledgers
    ensures r.exchanges == s.exchanges
    decreases |listed|
  {
    if listed == [] then s else ForgetAll(Forgotten(s, listed[0].owner, listed[0].tag), listed[1..])
  }

  /** Takes the queue's name and every binding to it away. */
  function Unnamed(s: State, q: nat): (r: State)
    requires Linked(s) && q < |s.queues|
    ensures Linked(r) && r.queues == s.queues && r.conns == s.conns
  {
    s.(names := s.names - {s.queues[q].name},
       exchanges := map e | e in s.exchanges :: s.exchanges[e].(bindings := UnbindAll(s.exchanges[e].bindings, q)))
  }

  function Unlisted(s: State, q: nat): (r: State)
    requires Linked(s) && q < |s.queues|
    ensures Linked(r) && |r.queues| == |s.queues| && r.conns == s.conns
  {
    SetQueue(s, q, s.queues[q].(consumers := []))
  }

  function Removed(s: State, q: nat): (r: State)
    requires Linked(s) && q < |s.queues|
    ensures Linked(r) && |r.queues| == |s.queues|
  {
    var listed := s.queues[q].consumers;
    assert QueueLinked(s.queues[q], q, |s.conns|);
    assert forall i :: 0 <= i < |listed| ==> listed[i] in listed;
    Unlisted(Discard(ForgetAll(Unnamed(s, q), listed), q), q)
  }

  function DoDelete(s: State, name: string): (State, Reply)
    requires Linked(s)
  {
    if name !in s.names then (s, Refused(NOT_FOUND))
    else
      var q := s.names[name];
      var s1 := Removed(s, q);
      (s1, Counted(|s.queues[q].ready|, GaugesOf(s1.queues[q])))
  }

  // ----- connections -----

  function DoOpen(s: State): (State, Reply) {
    (s.(conns := s.conns + [FRESH_CONNECTION]), Done(NO_GAUGES))
  }

  /** The connection with no consumer on its list. */
  function Deaf(s: State, c: nat): (r: State)
    requires Linked(s) && c < |s.conns|
    ensures Linked(r) && r.queues == s.queues && |r.conns| == |s.conns| && r.names == s.names
    ensures r.conns[c].held == s.conns[c].held
  {
    var conn := s.conns[c].(consumers := map[]);
    assert ConnLinked(conn, c, |s.queues|) by { assert ConnLinked(s.conns[c], c, |s.queues|); }
    SetConn(s, c, conn)
  }

  function DoClose(s: State, c: nat, tags: seq<string>, held: seq<nat>, order: seq<nat>): (State, Reply)
    requires Linked(s) && Admissible(s, Close(c, tags, held, order))
  {
    var s1 := Deaf(DropAll(s, c, tags), c);
    var s2 := GiveAll(s1, c, held);
    assert forall i :: 0 <= i < |order| ==> order[i] < |s2.queues| by {
      forall i | 0 <= i < |order| ensures order[i] < |s2.queues| {
        assert order[i] in s.names.Values;
      }
    }
    (DispatchAll(s2, order), Done(NO_GAUGES))
  }

  // ----- runs -----

  function Step(s: State, op: Op): (State, Reply)
    requires Linked(s) && Admissible(s, op)
  {
    match op
    case Open => DoOpen(s)
    case DeclareExchange(name, kind, passive) => DoDeclareExchange(s, name, kind, passive)
    case DeclareQueue(name, passive) => DoDeclareQueue(s, name, passive)
    case Bind(name, exchange, key) => DoBind(s, name, exchange, key)
    case Publish(m) => DoPublish(s, m)
    case Get(c, name, channel, noAck) => DoGet(s, c, name, channel, noAck)
    case Consume(c, name, tag, channel, noAck) => DoConsume(s, c, name, tag, channel, noAck)
    case Cancel(c, tag) => DoCancel(s, c, tag)
    case Qos(c, channel, prefetch, tags) =>
      assert forall i :: 0 <= i < |tags| ==> tags[i] in tags;
      DoQos(s, c, channel, prefetch, tags)
    case Settle(c, tag, channel, multiple, requeue) => DoSettle(s, c, tag, channel, multiple, requeue)
    case Purge(name) => DoPurge(s, name)
    case Delete(name) => DoDelete(s, name)
    case Close(c, tags, held, order) => DoClose(s, c, tags, held, order)
  }

  lemma StepLinked(s: State, op: Op)
    requires Linked(s) && Admissible(s, op)
    ensures Linked(Step(s, op).0)
  {
    match op
    case Open => OpenLinked(s);
    case DeclareQueue(name, passive) => DeclareQueueLinked(s, name, passive);
    case DeclareExchange(name, kind, passive) => DeclareExchangeLinked(s, name, kind, passive);
    case Bind(name, exchange, key) => BindLinked(s, name, exchange, key);
    case _ =>
  }

  lemma OpenLinked(s: State)
    requires Linked(s)
    ensures Linked(DoOpen(s).0)
  {
    var r := DoOpen(s).0;
    forall q | 0 <= q < |r.queues| ensures QueueLinked(r.queues[q], q, |r.conns|) {
      assert QueueLinked(s.queues[q], q, |s.conns|);
    }
  }

  lemma DeclareQueueLinked(s: State, name: string, passive: bool)
    requires Linked(s)
    ensures Linked(DoDeclareQueue(s, name, passive).0)
  {
    var r := DoDeclareQueue(s, name, passive).0;
    forall c | 0 <= c < |r.conns| ensures ConnLinked(r.conns[c], c, |r.queues|) {
      assert ConnLinked(s.conns[c], c, |s.queues|);
    }
    forall e | e in r.exchanges ensures ExchangeLinked(r.exchanges[e], |r.queues|) {
      assert ExchangeLinked(s.exchanges[e], |s.queues|);
    }
  }

  lemma DeclareExchangeLinked(s: State, name: string, kind: string, passive: bool)
    requires Linked(s)
    ensures Linked(DoDeclareExchange(s, name, kind, passive).0)
  {
  }

  lemma BindLinked(s: State, name: string, exchange: string, key: string)
    requires Linked(s)
    ensures Linked(DoBind(s, name, exchange, key).0)
  {
    if exchange in s.exchanges {
      assert ExchangeLinked(s.exchanges[exchange], |s.queues|);
    }
  }

  /** The operations can be carried out one after another from s. */
  ghost predicate Runs(s: State, ops: seq<Op>)
    requires Linked(s)
    decreases |ops|
  {
    ops == [] || (Admissible(s, ops[0]) && (StepLinked(s, ops[0]); Runs(Step(s, ops[0]).0, ops[1..])))
  }

  /** Where a run ends. */
  ghost function Run(s: State, ops: seq<Op>): (r: State)
    requires Linked(s) && Runs(s, ops)
    ensures Linked(r)
    decreases |ops|
  {
    if ops == [] then s else StepLinked(s, ops[0]); Run(Step(s, ops[0]).0, ops[1..])
  }
}
