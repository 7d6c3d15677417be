/**
 The emulated message broker as values: queues, connections and what each
 operation makes of them. Objects the program shares by pointer are numbered:
 a queue is its index in `queues`, a connection its index in `conns`, and both
 sequences only grow, so a deleted queue keeps the deliveries still held from it.
 */
module Broker {
  import opened Common
  import opened Routing

  datatype Message = Message(exchange: string, routingKey: string, properties: seq<bv8>, body: seq<bv8>)

  datatype Pending = Pending(message: Message, redelivered: bool)

  datatype Consumer = Consumer(tag: string, queue: nat, owner: nat, channel: nat, noAck: bool)

  datatype Held = Held(queue: nat, message: Message, channel: nat)

  datatype Queue = Queue(name: string, ready: seq<Pending>, unacked: int, consumers: seq<Consumer>, turn: nat)

  datatype Connection = Connection(
    nextTag: nat,
    held: map<nat, Held>,
    outstanding: map<nat, int>,
    prefetch: map<nat, int>,
    consumers: map<string, Consumer>,
    generated: nat)

  /** One message on its way to a client. */
  datatype Delivery = Delivery(
    conn: nat, queue: nat, consumer: string, channel: nat, tag: nat, noAck: bool, pending: Pending, remaining: nat)

  /** What became of the copies a queue object was ever given; history only. */
  datatype Ledger = Ledger(
    enqueued: multiset<Message>, settled: multiset<Message>, noAck: multiset<Message>, discarded: multiset<Message>)

  datatype State = State(
    queues: seq<Queue>,
    names: map<string, nat>,
    exchanges: map<string, Exchange>,
    conns: seq<Connection>,
    generated: nat,
    sink: seq<Delivery>,
    ledgers: seq<Ledger>)

  const EMPTY_LEDGER := Ledger(multiset{}, multiset{}, multiset{}, multiset{})
  const FRESH_CONNECTION := Connection(0, map[], map[], map[], map[], 0)
  const INIT := State([], map[], map[], [], 0, [], [])

  const DEFAULT_EXCHANGE := ""

  // ----- shape -----

  ghost predicate QueueLinked(q: Queue, id: nat, conns: nat) {
    forall k :: k in q.consumers ==> k.queue == id && k.owner < conns
  }

  /** Every held tag was issued, and every held delivery names a queue object. */
  ghost predicate ConnLinked(c: Connection, id: nat, queues: nat) {
    && (forall t :: t in c.held ==> 1 <= t <= c.nextTag && c.held[t].queue < queues)
    && (forall t :: t in c.consumers ==>
          c.consumers[t].tag == t && c.consumers[t].owner == id && c.consumers[t].queue < queues)
  }

  ghost predicate NamesLinked(names: map<string, nat>, queues: seq<Queue>) {
    forall n :: n in names ==> names[n] < |queues| && queues[names[n]].name == n
  }

  ghost predicate ExchangeLinked(e: Exchange, queues: nat) {
    forall b :: b in e.bindings ==> b.target < queues
  }

  ghost predicate Linked(s: State) {
    && |s.ledgers| == |s.queues|
    && NamesLinked(s.names, s.queues)
    && (forall q :: 0 <= q < |s.queues| ==> QueueLinked(s.queues[q], q, |s.conns|))
    && (forall c :: 0 <= c < |s.conns| ==> ConnLinked(s.conns[c], c, |s.queues|))
    && (forall e :: e in s.exchanges ==> ExchangeLinked(s.exchanges[e], |s.queues|))
  }

  /** Nothing a dispatch does ever takes a held delivery away or renames one. */
  ghost predicate HeldKept(before: Connection, after: Connection) {
    && before.nextTag <= after.nextTag
    && after.consumers == before.consumers
    && after.prefetch == before.prefetch
    && (forall channel: nat :: At(before.outstanding, channel) <= At(after.outstanding, channel))
    && forall t :: t in before.held ==> t in after.held && after.held[t] == before.held[t]
  }

  ghost predicate OnlyHands(s: State, r: State) {
    && |r.conns| == |s.conns| && |r.queues| == |s.queues|
    && r.names == s.names && r.exchanges == s.exchanges && r.generated == s.generated
    && |r.ledgers| == |s.ledgers|
    && (forall q :: 0 <= q < |s.ledgers| ==> r.ledgers[q] == s.ledgers[q].(noAck := r.ledgers[q].noAck))
    && (forall c :: 0 <= c < |s.conns| ==> HeldKept(s.conns[c], r.conns[c]))
    && (forall q :: 0 <= q < |s.queues| ==>
          r.queues[q].name == s.queues[q].name && r.queues[q].consumers == s.queues[q].consumers)
  }

  // ----- small steps -----

  function At(m: map<nat, int>, key: nat): int {
    if key in m then m[key] else 0
  }

  predicate HasRoom(c: Connection, channel: nat) {
    At(c.prefetch, channel) == 0 || At(c.outstanding, channel) < At(c.prefetch, channel)
  }

  function SetQueue(s: State, q: nat, queue: Queue): State
    requires q < |s.queues|
  {
    s.(queues := s.queues[q := queue])
  }

  function SetConn(s: State, c: nat, conn: Connection): State
    requires c < |s.conns|
  {
    s.(conns := s.conns[c := conn])
  }

  function Messages(ready: seq<Pending>): multiset<Message> {
    if ready == [] then multiset{} else multiset{ready[0].message} + Messages(ready[1..])
  }

  /** The connection's side of handing a delivery out under a fresh tag. */
  function Holding(c: Connection, h: Held, noAck: bool): Connection {
    var tag := c.nextTag + 1;
    if noAck then c.(nextTag := tag)
    else c.(nextTag := tag, held := c.held[tag := h], outstanding := c.outstanding[h.channel := At(c.outstanding, h.channel) + 1])
  }

  lemma HoldingLinked(c: Connection, h: Held, noAck: bool, id: nat, queues: nat)
    requires ConnLinked(c, id, queues) && h.queue < queues
    ensures ConnLinked(Holding(c, h, noAck), id, queues) && HeldKept(c, Holding(c, h, noAck))
  {
  }

  /** Takes the head of queue q and gives it to channel `channel` of connection c. */
  function HandOut(s: State, q: nat, c: nat, channel: nat, noAck: bool): (r: State)
    requires Linked(s) && q < |s.queues| && c < |s.conns| && s.queues[q].ready != []
    ensures Linked(r) && OnlyHands(s, r)
    ensures r.queues[q].ready == s.queues[q].ready[1..]
    ensures r.queues[q].consumers == s.queues[q].consumers && r.queues[q].turn == s.queues[q].turn
    ensures forall p :: 0 <= p < |s.queues| && p != q ==> r.queues[p] == s.queues[p]
  {
    var m := s.queues[q].ready[0].message;
    var queue := s.queues[q].(ready := s.queues[q].ready[1..],
                              unacked := s.queues[q].unacked + if noAck then 0 else 1);
    var l := s.ledgers[q];
    var holder := Holding(s.conns[c], Held(q, m, channel), noAck);
    HoldingLinked(s.conns[c], Held(q, m, channel), noAck, c, |s.queues|);
    assert QueueLinked(queue, q, |s.conns|) by { assert QueueLinked(s.queues[q], q, |s.conns|); }
    s.(queues := s.queues[q := queue],
       conns := s.conns[c := holder],
       ledgers := s.ledgers[q := if noAck then l.(noAck := l.noAck + multiset{m}) else l])
  }

  function DeliveryOf(s: State, q: nat, c: nat, consumer: string, channel: nat, noAck: bool): Delivery
    requires q < |s.queues| && c < |s.conns| && s.queues[q].ready != []
  {
    Delivery(c, q, consumer, channel, s.conns[c].nextTag + 1, noAck, s.queues[q].ready[0], |s.queues[q].ready| - 1)
  }

  /** Hands the head of the queue to a consumer and writes the delivery to its sink. */
  function Push(s: State, k: Consumer): (r: State)
    requires Linked(s) && k.queue < |s.queues| && k.owner < |s.conns| && s.queues[k.queue].ready != []
    ensures Linked(r) && OnlyHands(s, r)
    ensures r.queues[k.queue].ready == s.queues[k.queue].ready[1..]
    ensures forall p :: 0 <= p < |s.queues| && p != k.queue ==> r.queues[p] == s.queues[p]
  {
    var d := DeliveryOf(s, k.queue, k.owner, k.tag, k.channel, k.noAck);
    HandOut(s, k.queue, k.owner, k.channel, k.noAck).(sink := s.sink + [d])
  }

  // ----- the round robin -----

  /** The remainder of x by n, by repeated subtraction. */
  function Ring(x: nat, n: nat): (r: nat)
    requires n > 0
    ensures r < n && (x < n ==> r == x)
  {
    if x < n then x else Ring(x - n, n)
  }

  lemma RingIsRemainder(x: nat, n: nat)
    requires n > 0
    ensures Ring(x, n) == x % n
  {
    var k := RingQuotient(x, n);
    RemainderUnique(x, n, k, Ring(x, n));
  }

  lemma {:induction false} RingQuotient(x: nat, n: nat) returns (k: nat)
    requires n > 0
    ensures x == n * k + Ring(x, n)
  {
    k := 0;
    if x >= n {
      var j := RingQuotient(x - n, n);
      k := j + 1;
      assert n * k == n * j + n;
    }
  }

  lemma RemainderUnique(x: nat, n: nat, k: nat, r: nat)
    requires r < n && x == n * k + r
    ensures x % n == r
  {
    var a, b := x / n, x % n;
    assert x == n * a + b;
    SameQuotient(n, k, r, a, b);
  }

  lemma SameQuotient(n: nat, k: nat, r: nat, a: nat, b: nat)
    requires n * k + r == n * a + b && r < n && b < n
    ensures r == b
  {
    if k > a {
      OneMore(n, a, k);
    } else if a > k {
      OneMore(n, k, a);
    }
  }

  lemma {:induction false} OneMore(n: nat, a: nat, k: nat)
    requires a < k
    ensures n * k >= n * a + n
    decreases k
  {
    assert n * k == n * (k - 1) + n;
    if a < k - 1 {
      OneMore(n, a, k - 1);
    }
  }

  /** The consumer whose turn it is among those with room, and where the turn is left. */
  function Next(q: Queue, conns: seq<Connection>, tries: nat): (Option<Consumer>, nat)
    requires q.consumers != [] || tries == 0
    requires forall k :: k in q.consumers ==> k.owner < |conns|
    decreases tries
  {
    if tries == 0 then (None, q.turn)
    else
      var n := |q.consumers|;
      var candidate := q.consumers[Ring(q.turn, n)];
      var turn := Ring(q.turn + 1, n);
      if HasRoom(conns[candidate.owner], candidate.channel) then (Some(candidate), turn)
      else Next(q.(turn := turn), conns, tries - 1)
  }

  lemma {:induction false} NextIsListed(q: Queue, conns: seq<Connection>, tries: nat)
    requires q.consumers != [] || tries == 0
    requires forall k :: k in q.consumers ==> k.owner < |conns|
    ensures var (k, _) := Next(q, conns, tries);
            k.Some? ==> k.value in q.consumers && HasRoom(conns[k.value.owner], k.value.channel)
    decreases tries
  {
    if tries > 0 {
      var n := |q.consumers|;
      var candidate := q.consumers[Ring(q.turn, n)];
      if !HasRoom(conns[candidate.owner], candidate.channel) {
        NextIsListed(q.(turn := Ring(q.turn + 1, n)), conns, tries - 1);
      }
    }
  }

  lemma OnlyHandsTrans(s: State, m: State, r: State)
    requires OnlyHands(s, m) && OnlyHands(m, r)
    ensures OnlyHands(s, r)
  {
    forall c | 0 <= c < |s.conns| ensures HeldKept(s.conns[c], r.conns[c]) {
      assert HeldKept(s.conns[c], m.conns[c]) && HeldKept(m.conns[c], r.conns[c]);
    }
  }

  function Turned(s: State, q: nat, turn: nat): (r: State)
    requires Linked(s) && q < |s.queues|
    ensures Linked(r) && OnlyHands(s, r)
  {
    SetQueue(s, q, s.queues[q].(turn := turn))
  }

  /** The consumer a dispatch would hand the head of q to, and where the turn is left. */
  function Taker(s: State, q: nat): (r: (Option<Consumer>, nat))
    requires Linked(s) && q < |s.queues|
    ensures r.0.Some? ==> r.0.value in s.queues[q].consumers && r.0.value.queue == q && r.0.value.owner < |s.conns|
    ensures r.0.Some? ==> HasRoom(s.conns[r.0.value.owner], r.0.value.channel)
  {
    assert QueueLinked(s.queues[q], q, |s.conns|);
    NextIsListed(s.queues[q], s.conns, |s.queues[q].consumers|);
    Next(s.queues[q], s.conns, |s.queues[q].consumers|)
  }

  /** One round of a dispatch that found a taker. */
  function HandNext(s: State, q: nat): (r: State)
    requires Linked(s) && q < |s.queues| && s.queues[q].ready != [] && Taker(s, q).0.Some?
    ensures Linked(r) && OnlyHands(s, r)
    ensures r.queues[q].ready == s.queues[q].ready[1..]
    ensures forall p :: 0 <= p < |s.queues| && p != q ==> r.queues[p] == s.queues[p]
  {
    var (taking, turn) := Taker(s, q);
    var s1 := Turned(s, q, turn);
    var r := Push(s1, taking.value);
    OnlyHandsTrans(s, s1, r);
    r
  }

  /** Hands messages out until the queue is empty or no consumer has room. */
  function Dispatch(s: State, q: nat): (r: State)
    requires Linked(s) && q < |s.queues|
    ensures Linked(r) && OnlyHands(s, r)
    ensures forall p :: 0 <= p < |s.queues| && p != q ==> r.queues[p] == s.queues[p]
    decreases |s.queues[q].ready|
  {
    if s.queues[q].ready == [] then s
    else if Taker(s, q).0.None? then Turned(s, q, Taker(s, q).1)
    else
      var s1 := HandNext(s, q);
      var r := Dispatch(s1, q);
      OnlyHandsTrans(s, s1, r);
      r
  }

  /** Dispatches a list of queues in the order given. */
  function DispatchAll(s: State, order: seq<nat>): (r: State)
    requires Linked(s) && forall i :: 0 <= i < |order| ==> order[i] < |s.queues|
    ensures Linked(r) && OnlyHands(s, r)
    decreases |order|
  {
    if order == [] then s
    else
      var s1 := Dispatch(s, order[0]);
      var r := DispatchAll(s1, order[1..]);
      OnlyHandsTrans(s, s1, r);
      r
  }

  // ----- settling -----

  function Requeued(q: Queue, m: Message): Queue {
    q.(ready := [Pending(m, true)] + q.ready)
  }

  /** Releases one held delivery, putting the message back at the head when asked. */
  function Give(s: State, c: nat, tag: nat, requeue: bool): (r: State)
    requires Linked(s) && c < |s.conns| && tag in s.conns[c].held
    ensures Linked(r) && |r.conns| == |s.conns| && |r.queues| == |s.queues| && r.names == s.names
    ensures r.conns[c].held == s.conns[c].held - {tag} && r.conns[c].nextTag == s.conns[c].nextTag
    ensures r.exchanges == s.exchanges
    ensures forall q :: 0 <= q < |s.queues| ==>
              r.queues[q].consumers == s.queues[q].consumers && r.queues[q].name == s.queues[q].name
  {
    var conn := s.conns[c];
    var h := conn.held[tag];
    assert ConnLinked(conn, c, |s.queues|);
    var released := conn.(held := conn.held - {tag},
                          outstanding := conn.outstanding[h.channel := At(conn.outstanding, h.channel) - 1]);
    assert ConnLinked(released, c, |s.queues|);
    var queue := s.queues[h.queue].(unacked := s.queues[h.queue].unacked - 1);
    var l := s.ledgers[h.queue];
    s.(conns := s.conns[c := released],
       queues := s.queues[h.queue := if requeue then Requeued(queue, h.message) else queue],
       ledgers := s.ledgers[h.queue := if requeue then l else l.(settled := l.settled + multiset{h.message})])
  }

  ghost predicate Distinct<T>(list: seq<T>) {
    forall i, j :: 0 <= i < j < |list| ==> list[i] != list[j]
  }

  /** The tags an acknowledgement names, highest first, among those up to n. */
  function Selected(c: Connection, n: nat, tag: nat, channel: nat): (tags: seq<nat>)
    ensures forall t :: t in tags <==>
              1 <= t <= n && t in c.held && c.held[t].channel == channel && (tag == 0 || t <= tag)
    ensures forall i, j :: 0 <= i < j < |tags| ==> tags[i] > tags[j]
  {
    if n == 0 then []
    else
      var rest := Selected(c, n - 1, tag, channel);
      assert forall i :: 0 <= i < |rest| ==> rest[i] in rest;
      if n in c.held && c.held[n].channel == channel && (tag == 0 || n <= tag) then [n] + rest else rest
  }

  /** Settles the tags in the order given, dispatching the source queue after each. */
  function SettleAll(s: State, c: nat, tags: seq<nat>, requeue: bool): (r: State)
    requires Linked(s) && c < |s.conns| && Distinct(tags)
    requires forall t :: t in tags ==> t in s.conns[c].held
    ensures Linked(r) && |r.conns| == |s.conns| && |r.queues| == |s.queues|
    decreases |tags|
  {
    if tags == [] then s
    else
      var source := s.conns[c].held[tags[0]].queue;
      assert ConnLinked(s.conns[c], c, |s.queues|);
      var given := Give(s, c, tags[0], requeue);
      var next := Dispatch(given, source);
      assert HeldKept(given.conns[c], next.conns[c]);
      SettleAll(next, c, tags[1..], requeue)
  }

  /** Gives the tags back without dispatching in between, as a closing connection does. */
  function GiveAll(s: State, c: nat, tags: seq<nat>): (r: State)
    requires Linked(s) && c < |s.conns| && Distinct(tags)
    requires forall t :: t in tags ==> t in s.conns[c].held
    ensures Linked(r) && |r.conns| == |s.conns| && |r.queues| == |s.queues| && r.names == s.names
    decreases |tags|
  {
    if tags == [] then s else GiveAll(Give(s, c, tags[0], true), c, tags[1..])
  }

  // ----- consumers -----

  /** Drops the first consumer with the tag, whoever owns it. */
  function Dropped(consumers: seq<Consumer>, tag: string): (kept: seq<Consumer>)
    ensures forall k :: k in kept ==> k in consumers
  {
    if consumers == [] then []
    else if consumers[0].tag == tag then consumers[1..]
    else [consumers[0]] + Dropped(consumers[1..], tag)
  }

  function DropConsumer(s: State, q: nat, tag: string): (r: State)
    requires Linked(s) && q < |s.queues|
    ensures Linked(r) && r.conns == s.conns && |r.queues| == |s.queues| && r.names == s.names
  {
    var kept := Dropped(s.queues[q].consumers, tag);
    assert QueueLinked(s.queues[q], q, |s.conns|);
    var listed := exists k :: k in s.queues[q].consumers && k.tag == tag;
    if listed then SetQueue(s, q, s.queues[q].(consumers := kept, turn := 0)) else s
  }

  /** Drops the named consumers of connection c, in the order given. */
  function DropAll(s: State, c: nat, tags: seq<string>): (r: State)
    requires Linked(s) && c < |s.conns| && forall t :: t in tags ==> t in s.conns[c].consumers
    ensures Linked(r) && r.conns == s.conns && |r.queues| == |s.queues| && r.names == s.names
    decreases |tags|
  {
    if tags == [] then s
    else
      assert ConnLinked(s.conns[c], c, |s.queues|);
      DropAll(DropConsumer(s, s.conns[c].consumers[tags[0]].queue, tags[0]), c, tags[1..])
  }
}
