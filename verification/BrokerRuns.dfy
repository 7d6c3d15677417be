/**
 Two runs from the empty broker that end where one might not expect: a channel
 shared by two queues, and two connections under one consumer tag.
 */
module BrokerRuns {
  import opened Common
  import opened Routing
  import opened Broker
  import opened BrokerOps
  import opened BrokerFairness
  import opened BrokerStall

  function Note(key: string): Message {
    Message("", key, [], [])
  }

  /** The operation leads from one state to the other. */
  ghost predicate Leads(s: State, op: Op, t: State) {
    Linked(s) && Linked(t) && Admissible(s, op) && Step(s, op).0 == t
  }

  ghost predicate Arrives(s: State, ops: seq<Op>, t: State) {
    Linked(s) && Runs(s, ops) && Run(s, ops) == t
  }

  lemma ArrivesNow(s: State)
    requires Linked(s)
    ensures Arrives(s, [], s)
  {
  }

  /** A run is its first operation and the run of the others. */
  lemma ArrivesAfter(s: State, op: Op, m: State, ops: seq<Op>, t: State)
    requires Leads(s, op, m) && Arrives(m, ops, t)
    ensures Arrives(s, [op] + ops, t)
  {
    assert ([op] + ops)[1..] == ops;
  }

  // ----- one queue after another -----

  /** One connection and the queues a and b, with what has happened to each. */
  function Two(a: Queue, b: Queue, conn: Connection, sink: seq<Delivery>, la: Ledger, lb: Ledger): State {
    State([a, b], map["a" := 0, "b" := 1], map[], [conn], 0, sink, [la, lb])
  }

  lemma TwoLinked(a: Queue, b: Queue, conn: Connection, sink: seq<Delivery>, la: Ledger, lb: Ledger)
    requires a.name == "a" && b.name == "b" && QueueLinked(a, 0, 1) && QueueLinked(b, 1, 1) && ConnLinked(conn, 0, 2)
    ensures Linked(Two(a, b, conn, sink, la, lb))
  {
  }

  const A := Queue("a", [], 0, [], 0)
  const B := Queue("b", [], 0, [], 0)
  const X := Consumer("x", 0, 0, 1, false)
  const Y := Consumer("y", 1, 0, 1, false)

  const LIMITED := FRESH_CONNECTION.(prefetch := map[1 := 1])
  const BOTH := LIMITED.(consumers := map["x" := X, "y" := Y])
  const BUSY := BOTH.(nextTag := 1, held := map[1 := Held(0, Note("a"), 1)], outstanding := map[1 := 1])
  const SENT := [Delivery(0, 0, "x", 1, 1, false, Pending(Note("a"), false), 0)]

  const DECLARED := Two(A, B, FRESH_CONNECTION, [], EMPTY_LEDGER, EMPTY_LEDGER)
  const CALM := Two(A, B, LIMITED, [], EMPTY_LEDGER, EMPTY_LEDGER)
  const ONE := Two(A.(consumers := [X]), B, LIMITED.(consumers := map["x" := X]), [], EMPTY_LEDGER, EMPTY_LEDGER)
  const TAKING := Two(A.(consumers := [X]), B.(consumers := [Y]), BOTH, [], EMPTY_LEDGER, EMPTY_LEDGER)
  const ONE_LEDGER := EMPTY_LEDGER.(enqueued := multiset{Note("a")})
  const HOLDING := Two(A.(consumers := [X], unacked := 1), B.(consumers := [Y]), BUSY, SENT, ONE_LEDGER, EMPTY_LEDGER)

  /** The channel holds its one delivery from a, and b waits. */
  const SHARED :=
    Two(A.(consumers := [X], unacked := 1), B.(consumers := [Y], ready := [Pending(Note("b"), false)]), BUSY, SENT,
        ONE_LEDGER, EMPTY_LEDGER.(enqueued := multiset{Note("b")}))

  const BEGUN := INIT.(conns := [FRESH_CONNECTION])
  const SINGLE := State([A], map["a" := 0], map[], [FRESH_CONNECTION], 0, [], [EMPTY_LEDGER])

  lemma Begins()
    ensures Leads(INIT, Open, BEGUN)
  {
    assert [] + [FRESH_CONNECTION] == [FRESH_CONNECTION];
  }

  lemma DeclareA()
    ensures Leads(BEGUN, DeclareQueue("a", false), SINGLE)
  {
    assert [] + [A] == [A] && [] + [EMPTY_LEDGER] == [EMPTY_LEDGER];
  }

  lemma DeclareB()
    ensures Leads(SINGLE, DeclareQueue("b", false), DECLARED)
  {
    TwoLinked(A, B, FRESH_CONNECTION, [], EMPTY_LEDGER, EMPTY_LEDGER);
    assert "b" !in SINGLE.names by { assert "a"[0] != "b"[0]; }
    assert [A] + [B] == [A, B] && [EMPTY_LEDGER] + [EMPTY_LEDGER] == [EMPTY_LEDGER, EMPTY_LEDGER];
  }

  lemma CalmStep()
    ensures Leads(DECLARED, Qos(0, 1, 1, []), CALM)
  {
    TwoLinked(A, B, FRESH_CONNECTION, [], EMPTY_LEDGER, EMPTY_LEDGER);
    TwoLinked(A, B, LIMITED, [], EMPTY_LEDGER, EMPTY_LEDGER);
    assert Limited(DECLARED, 0, 1, 1) == CALM;
    assert QueuesOf(CALM, 0, []) == [];
  }

  /** A dispatch with nothing to hand out does nothing. */
  lemma Idle(s: State, q: nat)
    requires Linked(s) && q < |s.queues| && s.queues[q].ready == []
    ensures Dispatch(s, q) == s
  {
  }

  lemma LeadsConsume(s: State, c: nat, name: string, tag: string, channel: nat, t: State)
    requires Linked(s) && c < |s.conns| && name in s.names && tag != "" && tag !in s.conns[c].consumers && s.names[name] < |s.queues|
    requires s.queues[s.names[name]].ready == [] && t == Subscribed(s, Consumer(tag, s.names[name], c, channel, false))
    ensures Leads(s, Consume(c, name, tag, channel, false), t)
  {
    Idle(t, s.names[name]);
  }

  lemma ConsumeA()
    ensures Leads(CALM, Consume(0, "a", "x", 1, false), ONE)
  {
    TwoLinked(A, B, LIMITED, [], EMPTY_LEDGER, EMPTY_LEDGER);
    TwoLinked(ONE.queues[0], B, ONE.conns[0], [], EMPTY_LEDGER, EMPTY_LEDGER);
    assert [] + [X] == [X];
    assert Subscribed(CALM, X) == ONE;
    LeadsConsume(CALM, 0, "a", "x", 1, ONE);
  }

  lemma ConsumeB()
    ensures Leads(ONE, Consume(0, "b", "y", 1, false), TAKING)
  {
    TwoLinked(ONE.queues[0], B, ONE.conns[0], [], EMPTY_LEDGER, EMPTY_LEDGER);
    TwoLinked(TAKING.queues[0], TAKING.queues[1], BOTH, [], EMPTY_LEDGER, EMPTY_LEDGER);
    assert [] + [Y] == [Y] && "y" !in ONE.conns[0].consumers;
    assert Subscribed(ONE, Y) == TAKING;
    LeadsConsume(ONE, 0, "b", "y", 1, TAKING);
  }

  const WAITING :=
    Two(A.(consumers := [X], ready := [Pending(Note("a"), false)]), B.(consumers := [Y]), BOTH, [], ONE_LEDGER, EMPTY_LEDGER)

  lemma EnqueueA()
    ensures Linked(TAKING) && Linked(WAITING) && Enqueue(TAKING, 0, Note("a")) == WAITING
  {
    var m := Note("a");
    TwoLinked(TAKING.queues[0], TAKING.queues[1], BOTH, [], EMPTY_LEDGER, EMPTY_LEDGER);
    TwoLinked(WAITING.queues[0], WAITING.queues[1], BOTH, [], ONE_LEDGER, EMPTY_LEDGER);
    assert [] + [Pending(m, false)] == [Pending(m, false)];
    assert multiset{} + multiset{m} == multiset{m};
    assert Enqueue(TAKING, 0, m).queues == WAITING.queues;
    assert Enqueue(TAKING, 0, m).ledgers == WAITING.ledgers;
  }

  lemma TakerOfOne(s: State, q: nat, k: Consumer)
    requires Linked(s) && q < |s.queues| && s.queues[q].consumers == [k] && s.queues[q].turn == 0 && k.owner < |s.conns|
    ensures Taker(s, q) == (if HasRoom(s.conns[k.owner], k.channel) then Some(k) else None, 0)
  {
    assert Ring(0, 1) == 0 && Ring(1, 1) == 0;
    assert Next(s.queues[q].(turn := 0), s.conns, 0) == (None, 0);
  }

  /** A hand-out to a consumer that acknowledges, all at once. */
  ghost function Handed(s: State, q: nat, k: Consumer, turn: nat): State
    requires Linked(s) && q < |s.queues| && s.queues[q].ready != [] && k.owner < |s.conns|
  {
    var queue := s.queues[q];
    var m := queue.ready[0].message;
    s.(queues := s.queues[q := queue.(turn := turn, ready := queue.ready[1..], unacked := queue.unacked + 1)],
       conns := s.conns[k.owner := Holding(s.conns[k.owner], Held(q, m, k.channel), false)],
       sink := s.sink + [DeliveryOf(s, q, k.owner, k.tag, k.channel, false)])
  }

  lemma HandNextIsHanded(s: State, q: nat, k: Consumer, turn: nat)
    requires Linked(s) && q < |s.queues| && s.queues[q].ready != [] && Taker(s, q) == (Some(k), turn) && !k.noAck
    ensures HandNext(s, q) == Handed(s, q, k, turn)
  {
    var r, t := HandNext(s, q), Handed(s, q, k, turn);
    assert r.queues == t.queues && r.conns == t.conns && r.ledgers == t.ledgers;
  }

  lemma HandA()
    ensures Linked(WAITING) && Taker(WAITING, 0).0.Some? && HandNext(WAITING, 0) == HOLDING
  {
    EnqueueA();
    TakerOfOne(WAITING, 0, X);
    HandNextIsHanded(WAITING, 0, X, 0);
    HandedA();
  }

  lemma HandedA()
    requires Linked(WAITING)
    ensures Handed(WAITING, 0, X, 0) == HOLDING
  {
    assert [Pending(Note("a"), false)][1..] == [] && [] + SENT == SENT;
    assert map[][1 := Held(0, Note("a"), 1)] == map[1 := Held(0, Note("a"), 1)] && map[][1 := 1] == map[1 := 1];
    assert Holding(BOTH, Held(0, Note("a"), 1), false) == BUSY;
    var r := Handed(WAITING, 0, X, 0);
    assert r.queues == HOLDING.queues;
    assert r.conns == HOLDING.conns;
  }

  /** One message for one consumer: the dispatch is the hand-out. */
  lemma OneHand(s: State, q: nat, t: State)
    requires Linked(s) && q < |s.queues| && s.queues[q].ready != [] && Taker(s, q).0.Some? && t == HandNext(s, q)
    requires q < |t.queues| && t.queues[q].ready == []
    ensures Linked(t) && Dispatch(s, q) == t
  {
    Idle(t, q);
  }

  lemma PublishToOne(s: State, m: Message, q: nat)
    requires Linked(s) && q < |s.queues|
    ensures PublishTo(s, m, [q]) == Dispatch(Enqueue(s, q, m), q)
  {
    assert [q][1..] == [];
  }

  lemma DefaultRoute(s: State, key: string, q: nat)
    requires Linked(s) && key in s.names && s.names[key] == q
    ensures Destinations(s, "", key) == [q]
  {
  }

  lemma PublishReaches(s: State, m: Message, reached: seq<nat>)
    requires Linked(s) && m.exchange == "" && Destinations(s, "", m.routingKey) == reached
    ensures Linked(DoPublish(s, m).0) && (forall i :: 0 <= i < |reached| ==> reached[i] < |s.queues|)
    ensures DoPublish(s, m).0 == PublishTo(s, m, reached)
  {
  }

  lemma PublishDispatches(s: State, m: Message, q: nat)
    requires Linked(s) && m.exchange == "" && m.routingKey in s.names && s.names[m.routingKey] == q && q < |s.queues|
    ensures DoPublish(s, m).0 == Dispatch(Enqueue(s, q, m), q)
  {
    DefaultRoute(s, m.routingKey, q);
    PublishReaches(s, m, [q]);
    PublishToOne(s, m, q);
  }

  lemma LeadsPublish(s: State, m: Message, t: State)
    requires Linked(s) && DoPublish(s, m).0 == t && Linked(t)
    ensures Leads(s, Publish(m), t)
  {
  }

  lemma PublishA()
    ensures Leads(TAKING, Publish(Note("a")), HOLDING)
  {
    EnqueueA();
    HandA();
    OneHand(WAITING, 0, HOLDING);
    PublishDispatches(TAKING, Note("a"), 0);
    LeadsPublish(TAKING, Note("a"), HOLDING);
  }

  lemma EnqueueB()
    ensures Linked(HOLDING) && Linked(SHARED) && Enqueue(HOLDING, 1, Note("b")) == SHARED
  {
    var m := Note("b");
    TwoLinked(HOLDING.queues[0], HOLDING.queues[1], BUSY, SENT, ONE_LEDGER, EMPTY_LEDGER);
    TwoLinked(SHARED.queues[0], SHARED.queues[1], BUSY, SENT, ONE_LEDGER, SHARED.ledgers[1]);
    assert [] + [Pending(m, false)] == [Pending(m, false)];
    assert multiset{} + multiset{m} == multiset{m};
    assert Enqueue(HOLDING, 1, m).queues == SHARED.queues;
    assert Enqueue(HOLDING, 1, m).ledgers == SHARED.ledgers;
  }

  lemma PublishB()
    ensures Leads(HOLDING, Publish(Note("b")), SHARED)
  {
    EnqueueB();
    TakerOfOne(SHARED, 1, Y);
    assert SHARED.queues[1].(turn := 0) == SHARED.queues[1];
    assert Dispatch(SHARED, 1).queues == SHARED.queues;
    PublishDispatches(HOLDING, Note("b"), 1);
    LeadsPublish(HOLDING, Note("b"), SHARED);
  }

  const FROM_HOLDING: seq<Op> := [Publish(Note("b"))]
  const FROM_TAKING: seq<Op> := [Publish(Note("a"))] + FROM_HOLDING
  const FROM_ONE: seq<Op> := [Consume(0, "b", "y", 1, false)] + FROM_TAKING
  const FROM_CALM: seq<Op> := [Consume(0, "a", "x", 1, false)] + FROM_ONE
  const FROM_DECLARED: seq<Op> := [Qos(0, 1, 1, [])] + FROM_CALM
  const FROM_SINGLE: seq<Op> := [DeclareQueue("b", false)] + FROM_DECLARED
  const FROM_BEGUN: seq<Op> := [DeclareQueue("a", false)] + FROM_SINGLE
  const SHARING: seq<Op> := [Open] + FROM_BEGUN

  lemma SharedFromTaking()
    ensures Arrives(TAKING, FROM_TAKING, SHARED)
  {
    PublishA();
    PublishB();
    ArrivesNow(SHARED);
    ArrivesAfter(HOLDING, Publish(Note("b")), SHARED, [], SHARED);
    assert FROM_HOLDING == [Publish(Note("b"))] + [];
    ArrivesAfter(TAKING, Publish(Note("a")), HOLDING, FROM_HOLDING, SHARED);
  }

  lemma SharedFromCalm()
    ensures Arrives(CALM, FROM_CALM, SHARED)
  {
    SharedFromTaking();
    ConsumeA();
    ConsumeB();
    ArrivesAfter(ONE, Consume(0, "b", "y", 1, false), TAKING, FROM_TAKING, SHARED);
    ArrivesAfter(CALM, Consume(0, "a", "x", 1, false), ONE, FROM_ONE, SHARED);
  }

  lemma SharedFromSingle()
    ensures Arrives(SINGLE, FROM_SINGLE, SHARED)
  {
    SharedFromCalm();
    CalmStep();
    DeclareB();
    ArrivesAfter(DECLARED, Qos(0, 1, 1, []), CALM, FROM_CALM, SHARED);
    ArrivesAfter(SINGLE, DeclareQueue("b", false), DECLARED, FROM_DECLARED, SHARED);
  }

  lemma SharedRuns()
    ensures Arrives(INIT, SHARING, SHARED)
  {
    SharedFromSingle();
    Begins();
    DeclareA();
    ArrivesAfter(BEGUN, DeclareQueue("a", false), SINGLE, FROM_SINGLE, SHARED);
    ArrivesAfter(INIT, Open, BEGUN, FROM_BEGUN, SHARED);
  }

  const STALLED :=
    Two(A.(consumers := [X]), SHARED.queues[1], BOTH.(nextTag := 1, outstanding := map[1 := 0]), SENT,
        ONE_LEDGER.(settled := multiset{Note("a")}), SHARED.ledgers[1])

  lemma GiveA()
    ensures Linked(SHARED) && Linked(STALLED) && Give(SHARED, 0, 1, false) == STALLED
  {
    EnqueueB();
    TwoLinked(STALLED.queues[0], STALLED.queues[1], STALLED.conns[0], SENT, STALLED.ledgers[0], STALLED.ledgers[1]);
    var given := Give(SHARED, 0, 1, false);
    assert map[1 := Held(0, Note("a"), 1)] - {1} == map[] && map[1 := 1][1 := 0] == map[1 := 0];
    assert multiset{} + multiset{Note("a")} == multiset{Note("a")};
    assert given.queues == STALLED.queues;
    assert given.conns == STALLED.conns;
    assert given.ledgers == STALLED.ledgers;
  }

  lemma SettleA()
    ensures Leads(SHARED, Settle(0, 1, 1, false, false), STALLED)
  {
    GiveA();
    Idle(STALLED, 0);
    SettledIsSettle(SHARED, 0, 1, 1, false);
    LeadsSettle(SHARED, 0, 1, 1, STALLED);
  }

  lemma LeadsSettle(s: State, c: nat, tag: nat, channel: nat, t: State)
    requires Linked(s) && c < |s.conns| && DoSettle(s, c, tag, channel, false, false).0 == t && Linked(t)
    ensures Leads(s, Settle(c, tag, channel, false, false), t)
  {
  }

  /** Acknowledging on a channel that also consumes from another queue leaves that queue waiting: a run, and its last step. */
  lemma SharedChannelStalls()
    ensures Arrives(INIT, SHARING, SHARED) && WorkConserving(SHARED)
    ensures Leads(SHARED, Settle(0, 1, 1, false, false), STALLED) && !WorkConserving(STALLED)
  {
    SharedRuns();
    SettleA();
    assert Y in STALLED.queues[1].consumers && HasRoom(STALLED.conns[0], 1);
    assert !Drained(STALLED, 1);
  }

  // ----- two connections under one tag -----

  const FIRST := Consumer("t", 0, 0, 1, false)
  const SECOND := Consumer("t", 0, 1, 1, false)

  /** Connections and the queue a with its consumers. */
  function Pair(listed: seq<Consumer>, conns: seq<Connection>): State {
    State([A.(consumers := listed)], map["a" := 0], map[], conns, 0, [], [EMPTY_LEDGER])
  }

  lemma PairLinked(listed: seq<Consumer>, conns: seq<Connection>)
    requires QueueLinked(A.(consumers := listed), 0, |conns|) && forall c :: 0 <= c < |conns| ==> ConnLinked(conns[c], c, 1)
    ensures Linked(Pair(listed, conns))
  {
  }

  const KNOWS_FIRST := FRESH_CONNECTION.(consumers := map["t" := FIRST])
  const KNOWS_SECOND := FRESH_CONNECTION.(consumers := map["t" := SECOND])
  const TWINS := Pair([FIRST, SECOND], [KNOWS_FIRST, KNOWS_SECOND])

  const APART := INIT.(conns := [FRESH_CONNECTION, FRESH_CONNECTION])
  const PAIR := Pair([], [FRESH_CONNECTION, FRESH_CONNECTION])
  const HALF := Pair([FIRST], [KNOWS_FIRST, FRESH_CONNECTION])
  const LOST := Pair([SECOND], [KNOWS_FIRST, FRESH_CONNECTION])

  lemma OpensSecond()
    ensures Leads(BEGUN, Open, APART)
  {
    assert [FRESH_CONNECTION] + [FRESH_CONNECTION] == [FRESH_CONNECTION, FRESH_CONNECTION];
  }

  lemma DeclarePair()
    ensures Leads(APART, DeclareQueue("a", false), PAIR)
  {
    PairLinked([], PAIR.conns);
    assert [] + [A] == [A] && [] + [EMPTY_LEDGER] == [EMPTY_LEDGER];
  }

  lemma ConsumeFirst()
    ensures Leads(PAIR, Consume(0, "a", "t", 1, false), HALF)
  {
    PairLinked([], PAIR.conns);
    PairLinked([FIRST], HALF.conns);
    assert [] + [FIRST] == [FIRST];
    assert Subscribed(PAIR, FIRST) == HALF;
    LeadsConsume(PAIR, 0, "a", "t", 1, HALF);
  }

  lemma ConsumeSecond()
    ensures Leads(HALF, Consume(1, "a", "t", 1, false), TWINS)
  {
    PairLinked([FIRST], HALF.conns);
    PairLinked([FIRST, SECOND], TWINS.conns);
    assert [FIRST] + [SECOND] == [FIRST, SECOND];
    assert Subscribed(HALF, SECOND) == TWINS;
    LeadsConsume(HALF, 1, "a", "t", 1, TWINS);
  }

  lemma DropTwin()
    requires Linked(TWINS)
    ensures DropAll(TWINS, 1, ["t"]) == Pair([SECOND], TWINS.conns)
  {
    assert ["t"][1..] == [] && [FIRST, SECOND][1..] == [SECOND];
    var left := Pair([SECOND], TWINS.conns);
    assert FIRST in TWINS.queues[0].consumers;
    assert DropConsumer(TWINS, 0, "t") == left;
    assert DropAll(left, 1, ["t"][1..]) == left;
  }

  lemma DispatchIdleOne(s: State, q: nat)
    requires Linked(s) && q < |s.queues| && s.queues[q].ready == []
    ensures DispatchAll(s, [q]) == s
  {
    Idle(s, q);
    assert [q][1..] == [];
  }

  lemma CloseSecond()
    ensures Leads(TWINS, Close(1, ["t"], [], [0]), LOST)
  {
    PairLinked([FIRST, SECOND], TWINS.conns);
    PairLinked([SECOND], LOST.conns);
    TwinsMayClose();
    DropTwin();
    assert Deaf(Pair([SECOND], TWINS.conns), 1) == LOST;
    DispatchIdleOne(LOST, 0);
  }

  lemma TwinsMayClose()
    ensures Admissible(TWINS, Close(1, ["t"], [], [0]))
  {
    assert TWINS.names.Values == {0} by { assert TWINS.names["a"] == 0; }
  }

  const FROM_PAIR: seq<Op> := [Consume(0, "a", "t", 1, false), Consume(1, "a", "t", 1, false)]
  const FROM_APART: seq<Op> := [DeclareQueue("a", false)] + FROM_PAIR
  const FROM_FIRST: seq<Op> := [Open] + FROM_APART
  const TWINNING: seq<Op> := [Open] + FROM_FIRST

  lemma TwinsFromPair()
    ensures Arrives(PAIR, FROM_PAIR, TWINS)
  {
    ConsumeFirst();
    ConsumeSecond();
    ArrivesNow(TWINS);
    var last := Consume(1, "a", "t", 1, false);
    ArrivesAfter(HALF, last, TWINS, [], TWINS);
    assert [last] + [] == [last];
    ArrivesAfter(PAIR, Consume(0, "a", "t", 1, false), HALF, [last], TWINS);
    assert [Consume(0, "a", "t", 1, false)] + [last] == FROM_PAIR;
  }

  /** Two connections consume from a queue under one tag; closing the second drops the first's consumer and leaves its own. */
  lemma TwinsClosed()
    ensures Arrives(INIT, TWINNING, TWINS) && Leads(TWINS, Close(1, ["t"], [], [0]), LOST)
    ensures LOST.queues[0].consumers == [SECOND] && SECOND.owner == 1 && LOST.conns[0].consumers == map["t" := FIRST]
  {
    TwinsFromPair();
    Begins();
    OpensSecond();
    DeclarePair();
    CloseSecond();
    ArrivesAfter(APART, DeclareQueue("a", false), PAIR, FROM_PAIR, TWINS);
    ArrivesAfter(BEGUN, Open, APART, FROM_APART, TWINS);
    ArrivesAfter(INIT, Open, BEGUN, FROM_FIRST, TWINS);
  }
}
