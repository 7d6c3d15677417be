/**
 No message is ever lost or duplicated: in every state any run of any number of
 connections reaches, the copies each queue object was given are exactly those
 waiting, held, settled, delivered without acknowledgement, or thrown away; and
 the counters the broker keeps are the counts of what is really held.
 */
module BrokerConservation {
  import opened Routing
  import opened Broker
  import opened BrokerOps

  // ----- what is held -----

  /** A question a held delivery answers yes or no. */
  datatype Query = Copy(queue: nat, message: Message) | From(queue: nat) | On(channel: nat)

  predicate Counts(query: Query, h: Held) {
    match query
    case Copy(q, m) => h.queue == q && h.message == m
    case From(q) => h.queue == q
    case On(channel) => h.channel == channel
  }

  function One(query: Query, h: Held): nat {
    if Counts(query, h) then 1 else 0
  }

  /** How many deliveries held under tags 1 to n answer the query. */
  ghost function Tally(held: map<nat, Held>, n: nat, query: Query): nat {
    if n == 0 then 0 else Tally(held, n - 1, query) + if n in held then One(query, held[n]) else 0
  }

  ghost function Share(c: Connection, query: Query): nat {
    Tally(c.held, c.nextTag, query)
  }

  /** How many deliveries held by any connection answer the query. */
  ghost function AllHeld(conns: seq<Connection>, query: Query): nat {
    if conns == [] then 0 else AllHeld(conns[..|conns| - 1], query) + Share(conns[|conns| - 1], query)
  }

  lemma {:induction false} TallyFrame(a: map<nat, Held>, b: map<nat, Held>, n: nat, query: Query)
    requires forall t :: 1 <= t <= n ==> (t in a <==> t in b) && (t in a ==> a[t] == b[t])
    ensures Tally(a, n, query) == Tally(b, n, query)
  {
    if n > 0 { TallyFrame(a, b, n - 1, query); }
  }

  lemma {:induction false} TallyGive(held: map<nat, Held>, n: nat, tag: nat, query: Query)
    requires 1 <= tag <= n && tag in held
    ensures Tally(held, n, query) == Tally(held - {tag}, n, query) + One(query, held[tag])
  {
    if n == tag {
      TallyFrame(held, held - {tag}, n - 1, query);
    } else {
      TallyGive(held, n - 1, tag, query);
    }
  }

  /** Replacing one connection changes what is held by exactly its share. */
  lemma {:induction false} AllHeldUpdate(conns: seq<Connection>, c: nat, conn: Connection, query: Query)
    requires c < |conns|
    ensures AllHeld(conns[c := conn], query) + Share(conns[c], query) == AllHeld(conns, query) + Share(conn, query)
  {
    var last := |conns| - 1;
    if c == last {
      assert conns[c := conn][..last] == conns[..last];
    } else {
      AllHeldUpdate(conns[..last], c, conn, query);
      assert conns[c := conn][..last] == conns[..last][c := conn];
    }
  }

  // ----- the invariant -----

  /** The copies of m queue q was ever given are all accounted for. */
  ghost predicate CopiesBalanced(ready: seq<Pending>, l: Ledger, held: nat, m: Message) {
    l.enqueued[m] == Messages(ready)[m] + held + l.settled[m] + l.noAck[m] + l.discarded[m]
  }

  ghost predicate QueueBalanced(q: Queue, l: Ledger, conns: seq<Connection>, id: nat) {
    && (forall m: Message :: CopiesBalanced(q.ready, l, AllHeld(conns, Copy(id, m)), m))
    && q.unacked == AllHeld(conns, From(id))
  }

  ghost predicate ConnBalanced(c: Connection) {
    forall channel: nat :: At(c.outstanding, channel) == Share(c, On(channel))
  }

  ghost predicate Balanced(s: State)
    requires Linked(s)
  {
    && (forall q :: 0 <= q < |s.queues| ==> QueueBalanced(s.queues[q], s.ledgers[q], s.conns, q))
    && (forall c :: 0 <= c < |s.conns| ==> ConnBalanced(s.conns[c]))
  }

  ghost predicate Inv(s: State) {
    Linked(s) && Balanced(s)
  }

  lemma {:induction false} MessagesAppend(ready: seq<Pending>, p: Pending)
    ensures Messages(ready + [p]) == Messages(ready) + multiset{p.message}
  {
    if ready == [] {
      assert ready + [p] == [p];
    } else {
      assert (ready + [p])[1..] == ready[1..] + [p];
      MessagesAppend(ready[1..], p);
    }
  }

  // ----- small steps keep the books -----

  /** What handing a delivery out does to one connection's share. */
  lemma HoldingShare(c: Connection, h: Held, noAck: bool, query: Query, id: nat, queues: nat)
    requires ConnLinked(c, id, queues)
    ensures Share(Holding(c, h, noAck), query) == Share(c, query) + if noAck then 0 else One(query, h)
  {
    var r := Holding(c, h, noAck);
    assert c.nextTag + 1 !in c.held;
    TallyFrame(c.held, r.held, c.nextTag, query);
  }

  lemma HandOutHeld(s: State, q: nat, c: nat, channel: nat, noAck: bool, query: Query)
    requires Linked(s) && q < |s.queues| && c < |s.conns| && s.queues[q].ready != []
    ensures AllHeld(HandOut(s, q, c, channel, noAck).conns, query) ==
            AllHeld(s.conns, query) + if noAck then 0 else One(query, Held(q, s.queues[q].ready[0].message, channel))
  {
    var h := Held(q, s.queues[q].ready[0].message, channel);
    assert ConnLinked(s.conns[c], c, |s.queues|);
    HoldingShare(s.conns[c], h, noAck, query, c, |s.queues|);
    AllHeldUpdate(s.conns, c, Holding(s.conns[c], h, noAck), query);
  }

  lemma HandOutQueue(s: State, q: nat, c: nat, channel: nat, noAck: bool, p: nat)
    requires Inv(s) && q < |s.queues| && c < |s.conns| && s.queues[q].ready != [] && p < |s.queues|
    ensures var r := HandOut(s, q, c, channel, noAck); QueueBalanced(r.queues[p], r.ledgers[p], r.conns, p)
  {
    var r := HandOut(s, q, c, channel, noAck);
    assert QueueBalanced(s.queues[p], s.ledgers[p], s.conns, p);
    HandOutHeld(s, q, c, channel, noAck, From(p));
    forall m: Message ensures CopiesBalanced(r.queues[p].ready, r.ledgers[p], AllHeld(r.conns, Copy(p, m)), m) {
      assert CopiesBalanced(s.queues[p].ready, s.ledgers[p], AllHeld(s.conns, Copy(p, m)), m);
      HandOutHeld(s, q, c, channel, noAck, Copy(p, m));
    }
  }

  lemma HandOutConn(s: State, q: nat, c: nat, channel: nat, noAck: bool, d: nat)
    requires Inv(s) && q < |s.queues| && c < |s.conns| && s.queues[q].ready != [] && d < |s.conns|
    ensures ConnBalanced(HandOut(s, q, c, channel, noAck).conns[d])
  {
    var r := HandOut(s, q, c, channel, noAck);
    var h := Held(q, s.queues[q].ready[0].message, channel);
    assert ConnBalanced(s.conns[d]);
    if d == c {
      assert ConnLinked(s.conns[c], c, |s.queues|);
      forall ch: nat ensures At(r.conns[c].outstanding, ch) == Share(r.conns[c], On(ch)) {
        HoldingShare(s.conns[c], h, noAck, On(ch), c, |s.queues|);
      }
    }
  }

  lemma HandOutBalanced(s: State, q: nat, c: nat, channel: nat, noAck: bool)
    requires Inv(s) && q < |s.queues| && c < |s.conns| && s.queues[q].ready != []
    ensures Inv(HandOut(s, q, c, channel, noAck))
  {
    var r := HandOut(s, q, c, channel, noAck);
    forall p | 0 <= p < |r.queues| ensures QueueBalanced(r.queues[p], r.ledgers[p], r.conns, p) {
      HandOutQueue(s, q, c, channel, noAck, p);
    }
    forall d | 0 <= d < |r.conns| ensures ConnBalanced(r.conns[d]) {
      HandOutConn(s, q, c, channel, noAck, d);
    }
  }

  /** The books do not depend on turns, names, sinks, consumer lists or limits. */
  lemma BalancedFrame(s: State, r: State)
    requires Inv(s) && Linked(r) && r.ledgers == s.ledgers && |r.conns| == |s.conns| && |r.queues| == |s.queues|
    requires forall q :: 0 <= q < |s.queues| ==> r.queues[q].ready == s.queues[q].ready && r.queues[q].unacked == s.queues[q].unacked
    requires forall c :: 0 <= c < |s.conns| ==> SameHeld(s.conns[c], r.conns[c])
    ensures Inv(r)
  {
    forall q | 0 <= q < |r.queues| ensures QueueBalanced(r.queues[q], r.ledgers[q], r.conns, q) {
      assert QueueBalanced(s.queues[q], s.ledgers[q], s.conns, q);
      AllHeldFrame(s.conns, r.conns, From(q));
      forall m: Message ensures CopiesBalanced(r.queues[q].ready, r.ledgers[q], AllHeld(r.conns, Copy(q, m)), m) {
        assert CopiesBalanced(s.queues[q].ready, s.ledgers[q], AllHeld(s.conns, Copy(q, m)), m);
        AllHeldFrame(s.conns, r.conns, Copy(q, m));
      }
    }
    forall c | 0 <= c < |r.conns| ensures ConnBalanced(r.conns[c]) {
      assert ConnBalanced(s.conns[c]) && SameHeld(s.conns[c], r.conns[c]);
    }
  }

  ghost predicate SameHeld(a: Connection, b: Connection) {
    a.held == b.held && a.nextTag == b.nextTag && a.outstanding == b.outstanding
  }

  lemma {:induction false} AllHeldFrame(a: seq<Connection>, b: seq<Connection>, query: Query)
    requires |a| == |b| && forall c :: 0 <= c < |a| ==> SameHeld(a[c], b[c])
    ensures AllHeld(a, query) == AllHeld(b, query)
  {
    if |a| > 0 {
      assert SameHeld(a[|a| - 1], b[|b| - 1]);
      AllHeldFrame(a[..|a| - 1], b[..|b| - 1], query);
    }
  }

  lemma PushBalanced(s: State, k: Consumer)
    requires Inv(s) && k.queue < |s.queues| && k.owner < |s.conns| && s.queues[k.queue].ready != []
    ensures Inv(Push(s, k))
  {
    HandOutBalanced(s, k.queue, k.owner, k.channel, k.noAck);
    BalancedFrame(HandOut(s, k.queue, k.owner, k.channel, k.noAck), Push(s, k));
  }

  lemma HandNextBalanced(s: State, q: nat)
    requires Inv(s) && q < |s.queues| && s.queues[q].ready != [] && Taker(s, q).0.Some?
    ensures Inv(HandNext(s, q))
  {
    var (taking, turn) := Taker(s, q);
    BalancedFrame(s, Turned(s, q, turn));
    PushBalanced(Turned(s, q, turn), taking.value);
  }

  lemma {:induction false} DispatchBalanced(s: State, q: nat)
    requires Inv(s) && q < |s.queues|
    ensures Inv(Dispatch(s, q))
    decreases |s.queues[q].ready|
  {
    if s.queues[q].ready != [] {
      if Taker(s, q).0.Some? {
        HandNextBalanced(s, q);
        DispatchBalanced(HandNext(s, q), q);
      } else {
        BalancedFrame(s, Turned(s, q, Taker(s, q).1));
      }
    }
  }

  lemma {:induction false} DispatchAllBalanced(s: State, order: seq<nat>)
    requires Inv(s) && forall i :: 0 <= i < |order| ==> order[i] < |s.queues|
    ensures Inv(DispatchAll(s, order))
    decreases |order|
  {
    if order != [] {
      DispatchBalanced(s, order[0]);
      DispatchAllBalanced(Dispatch(s, order[0]), order[1..]);
    }
  }

  lemma GiveHeld(s: State, c: nat, tag: nat, requeue: bool, query: Query)
    requires Linked(s) && c < |s.conns| && tag in s.conns[c].held
    ensures AllHeld(s.conns, query) == AllHeld(Give(s, c, tag, requeue).conns, query) + One(query, s.conns[c].held[tag])
  {
    assert ConnLinked(s.conns[c], c, |s.queues|);
    TallyGive(s.conns[c].held, s.conns[c].nextTag, tag, query);
    AllHeldUpdate(s.conns, c, Give(s, c, tag, requeue).conns[c], query);
  }

  lemma GiveQueue(s: State, c: nat, tag: nat, requeue: bool, p: nat)
    requires Inv(s) && c < |s.conns| && tag in s.conns[c].held && p < |s.queues|
    ensures var r := Give(s, c, tag, requeue); QueueBalanced(r.queues[p], r.ledgers[p], r.conns, p)
  {
    var r := Give(s, c, tag, requeue);
    var h := s.conns[c].held[tag];
    assert ConnLinked(s.conns[c], c, |s.queues|);
    assert QueueBalanced(s.queues[p], s.ledgers[p], s.conns, p);
    GiveHeld(s, c, tag, requeue, From(p));
    if h.queue == p && requeue {
      assert r.queues[p].ready == [Pending(h.message, true)] + s.queues[p].ready;
      assert r.queues[p].ready[1..] == s.queues[p].ready;
    }
    forall m: Message ensures CopiesBalanced(r.queues[p].ready, r.ledgers[p], AllHeld(r.conns, Copy(p, m)), m) {
      assert CopiesBalanced(s.queues[p].ready, s.ledgers[p], AllHeld(s.conns, Copy(p, m)), m);
      GiveHeld(s, c, tag, requeue, Copy(p, m));
    }
  }

  lemma GiveConn(s: State, c: nat, tag: nat, requeue: bool, d: nat)
    requires Inv(s) && c < |s.conns| && tag in s.conns[c].held && d < |s.conns|
    ensures ConnBalanced(Give(s, c, tag, requeue).conns[d])
  {
    var r := Give(s, c, tag, requeue);
    assert ConnBalanced(s.conns[d]);
    if d == c {
      assert ConnLinked(s.conns[c], c, |s.queues|);
      forall ch: nat ensures At(r.conns[c].outstanding, ch) == Share(r.conns[c], On(ch)) {
        TallyGive(s.conns[c].held, s.conns[c].nextTag, tag, On(ch));
      }
    }
  }

  lemma GiveBalanced(s: State, c: nat, tag: nat, requeue: bool)
    requires Inv(s) && c < |s.conns| && tag in s.conns[c].held
    ensures Inv(Give(s, c, tag, requeue))
  {
    var r := Give(s, c, tag, requeue);
    forall p | 0 <= p < |r.queues| ensures QueueBalanced(r.queues[p], r.ledgers[p], r.conns, p) {
      GiveQueue(s, c, tag, requeue, p);
    }
    forall d | 0 <= d < |r.conns| ensures ConnBalanced(r.conns[d]) {
      GiveConn(s, c, tag, requeue, d);
    }
  }

  lemma {:induction false} SettleAllBalanced(s: State, c: nat, tags: seq<nat>, requeue: bool)
    requires Inv(s) && c < |s.conns| && Distinct(tags)
    requires forall t :: t in tags ==> t in s.conns[c].held
    ensures Inv(SettleAll(s, c, tags, requeue))
    decreases |tags|
  {
    if tags != [] {
      assert ConnLinked(s.conns[c], c, |s.queues|);
      var source := s.conns[c].held[tags[0]].queue;
      var given := Give(s, c, tags[0], requeue);
      GiveBalanced(s, c, tags[0], requeue);
      DispatchBalanced(given, source);
      var next := Dispatch(given, source);
      assert HeldKept(given.conns[c], next.conns[c]);
      SettleAllBalanced(next, c, tags[1..], requeue);
    }
  }

  lemma {:induction false} GiveAllBalanced(s: State, c: nat, tags: seq<nat>)
    requires Inv(s) && c < |s.conns| && Distinct(tags)
    requires forall t :: t in tags ==> t in s.conns[c].held
    ensures Inv(GiveAll(s, c, tags))
    decreases |tags|
  {
    if tags != [] {
      GiveBalanced(s, c, tags[0], true);
      GiveAllBalanced(Give(s, c, tags[0], true), c, tags[1..]);
    }
  }

  lemma EnqueueBalanced(s: State, q: nat, sent: Message)
    requires Inv(s) && q < |s.queues|
    ensures Inv(Enqueue(s, q, sent))
  {
    var r := Enqueue(s, q, sent);
    MessagesAppend(s.queues[q].ready, Pending(sent, false));
    forall p | 0 <= p < |r.queues| ensures QueueBalanced(r.queues[p], r.ledgers[p], r.conns, p) {
      assert QueueBalanced(s.queues[p], s.ledgers[p], s.conns, p);
      forall m: Message ensures CopiesBalanced(r.queues[p].ready, r.ledgers[p], AllHeld(r.conns, Copy(p, m)), m) {
        assert CopiesBalanced(s.queues[p].ready, s.ledgers[p], AllHeld(s.conns, Copy(p, m)), m);
      }
    }
  }

  lemma {:induction false} PublishToBalanced(s: State, m: Message, reached: seq<nat>)
    requires Inv(s) && forall i :: 0 <= i < |reached| ==> reached[i] < |s.queues|
    ensures Inv(PublishTo(s, m, reached))
    decreases |reached|
  {
    if reached != [] {
      EnqueueBalanced(s, reached[0], m);
      DispatchBalanced(Enqueue(s, reached[0], m), reached[0]);
      PublishToBalanced(Dispatch(Enqueue(s, reached[0], m), reached[0]), m, reached[1..]);
    }
  }

  lemma DiscardBalanced(s: State, q: nat)
    requires Inv(s) && q < |s.queues|
    ensures Inv(Discard(s, q))
  {
    var r := Discard(s, q);
    forall p | 0 <= p < |r.queues| ensures QueueBalanced(r.queues[p], r.ledgers[p], r.conns, p) {
      assert QueueBalanced(s.queues[p], s.ledgers[p], s.conns, p);
      forall m: Message ensures CopiesBalanced(r.queues[p].ready, r.ledgers[p], AllHeld(r.conns, Copy(p, m)), m) {
        assert CopiesBalanced(s.queues[p].ready, s.ledgers[p], AllHeld(s.conns, Copy(p, m)), m);
      }
    }
  }

  lemma {:induction false} ForgetAllBalanced(s: State, listed: seq<Consumer>)
    requires Inv(s) && forall i :: 0 <= i < |listed| ==> listed[i].owner < |s.conns|
    ensures Inv(ForgetAll(s, listed))
    decreases |listed|
  {
    if listed != [] {
      var s1 := Forgotten(s, listed[0].owner, listed[0].tag);
      BalancedFrame(s, s1);
      ForgetAllBalanced(s1, listed[1..]);
    }
  }

  lemma {:induction false} DropAllBalanced(s: State, c: nat, tags: seq<string>)
    requires Inv(s) && c < |s.conns| && forall t :: t in tags ==> t in s.conns[c].consumers
    ensures Inv(DropAll(s, c, tags))
    decreases |tags|
  {
    if tags != [] {
      assert ConnLinked(s.conns[c], c, |s.queues|);
      var s1 := DropConsumer(s, s.conns[c].consumers[tags[0]].queue, tags[0]);
      BalancedFrame(s, s1);
      DropAllBalanced(s1, c, tags[1..]);
    }
  }

  // ----- operations keep the books -----

  lemma {:induction false} TallyUnknown(held: map<nat, Held>, n: nat, query: Query)
    requires forall t :: t in held ==> !Counts(query, held[t])
    ensures Tally(held, n, query) == 0
  {
    if n > 0 { TallyUnknown(held, n - 1, query); }
  }

  lemma {:induction false} AllHeldUnknown(conns: seq<Connection>, query: Query)
    requires !query.On? && forall c :: 0 <= c < |conns| ==> ConnLinked(conns[c], c, query.queue)
    ensures AllHeld(conns, query) == 0
  {
    if |conns| > 0 {
      assert ConnLinked(conns[|conns| - 1], |conns| - 1, query.queue);
      AllHeldUnknown(conns[..|conns| - 1], query);
      TallyUnknown(conns[|conns| - 1].held, conns[|conns| - 1].nextTag, query);
    }
  }

  lemma NewQueueBalanced(s: State, q: Queue)
    requires Linked(s) && q.ready == [] && q.unacked == 0
    ensures QueueBalanced(q, EMPTY_LEDGER, s.conns, |s.queues|)
  {
    AllHeldUnknown(s.conns, From(|s.queues|));
    forall m: Message ensures CopiesBalanced(q.ready, EMPTY_LEDGER, AllHeld(s.conns, Copy(|s.queues|, m)), m) {
      AllHeldUnknown(s.conns, Copy(|s.queues|, m));
    }
  }

  /** A queue nobody has used yet keeps the books. */
  lemma GrownBalanced(s: State, r: State, q: Queue)
    requires Inv(s) && Linked(r) && r.conns == s.conns && q.ready == [] && q.unacked == 0
    requires r.queues == s.queues + [q] && r.ledgers == s.ledgers + [EMPTY_LEDGER]
    ensures Inv(r)
  {
    forall p | 0 <= p < |r.queues| ensures QueueBalanced(r.queues[p], r.ledgers[p], r.conns, p) {
      if p < |s.queues| {
        assert QueueBalanced(s.queues[p], s.ledgers[p], s.conns, p);
      } else {
        NewQueueBalanced(s, q);
      }
    }
  }

  lemma DeclareQueueBalanced(s: State, name: string, passive: bool)
    requires Inv(s)
    ensures Inv(DoDeclareQueue(s, name, passive).0)
  {
    DeclareQueueLinked(s, name, passive);
    var r := DoDeclareQueue(s, name, passive).0;
    if |r.queues| == |s.queues| {
      BalancedFrame(s, r);
    } else {
      GrownBalanced(s, r, r.queues[|s.queues|]);
    }
  }

  lemma OpenBalanced(s: State)
    requires Inv(s)
    ensures Inv(DoOpen(s).0)
  {
    OpenLinked(s);
    var r := DoOpen(s).0;
    assert r.conns[..|r.conns| - 1] == s.conns;
    forall query: Query ensures AllHeld(r.conns, query) == AllHeld(s.conns, query) {}
    forall p | 0 <= p < |r.queues| ensures QueueBalanced(r.queues[p], r.ledgers[p], r.conns, p) {
      assert QueueBalanced(s.queues[p], s.ledgers[p], s.conns, p);
    }
  }

  lemma ConsumeBalanced(s: State, c: nat, name: string, tag: string, channel: nat, noAck: bool)
    requires Inv(s) && c < |s.conns|
    ensures Inv(DoConsume(s, c, name, tag, channel, noAck).0)
  {
    var s1 := WithCounter(s, c, tag);
    var chosen := ChosenTag(s, c, tag);
    BalancedFrame(s, s1);
    if name in s.names && chosen !in s1.conns[c].consumers {
      var q := s.names[name];
      var s2 := Subscribed(s1, Consumer(chosen, q, c, channel, noAck));
      BalancedFrame(s1, s2);
      DispatchBalanced(s2, q);
    }
  }

  lemma CancelBalanced(s: State, c: nat, tag: string)
    requires Inv(s) && c < |s.conns|
    ensures Inv(DoCancel(s, c, tag).0)
  {
    if tag in s.conns[c].consumers {
      BalancedFrame(s, DoCancel(s, c, tag).0);
    }
  }

  lemma QosBalanced(s: State, c: nat, channel: nat, prefetch: int, tags: seq<string>)
    requires Inv(s) && c < |s.conns| && forall i :: 0 <= i < |tags| ==> tags[i] in s.conns[c].consumers
    ensures Inv(DoQos(s, c, channel, prefetch, tags).0)
  {
    var s1 := Limited(s, c, channel, prefetch);
    BalancedFrame(s, s1);
    DispatchAllBalanced(s1, QueuesOf(s1, c, tags));
  }

  lemma DeleteBalanced(s: State, name: string)
    requires Inv(s)
    ensures Inv(DoDelete(s, name).0)
  {
    if name in s.names {
      var q := s.names[name];
      var listed := s.queues[q].consumers;
      assert QueueLinked(s.queues[q], q, |s.conns|);
      assert forall i :: 0 <= i < |listed| ==> listed[i] in listed;
      BalancedFrame(s, Unnamed(s, q));
      ForgetAllBalanced(Unnamed(s, q), listed);
      DiscardBalanced(ForgetAll(Unnamed(s, q), listed), q);
      BalancedFrame(Discard(ForgetAll(Unnamed(s, q), listed), q), Removed(s, q));
    }
  }

  lemma CloseBalanced(s: State, c: nat, tags: seq<string>, held: seq<nat>, order: seq<nat>)
    requires Inv(s) && Admissible(s, Close(c, tags, held, order))
    ensures Inv(DoClose(s, c, tags, held, order).0)
  {
    DropAllBalanced(s, c, tags);
    var s1 := Deaf(DropAll(s, c, tags), c);
    BalancedFrame(DropAll(s, c, tags), s1);
    GiveAllBalanced(s1, c, held);
    var s2 := GiveAll(s1, c, held);
    forall i | 0 <= i < |order| ensures order[i] < |s2.queues| {
      assert order[i] in s.names.Values;
    }
    DispatchAllBalanced(s2, order);
  }

  lemma SettleBalanced(s: State, c: nat, tag: nat, channel: nat, multiple: bool, requeue: bool)
    requires Inv(s) && c < |s.conns|
    ensures Inv(DoSettle(s, c, tag, channel, multiple, requeue).0)
  {
    NamedAreHeld(s.conns[c], tag, channel, multiple);
    var tags := TagsNamed(s.conns[c], tag, channel, multiple);
    if tags.Some? {
      SettleAllBalanced(s, c, tags.value, requeue);
    }
  }

  lemma GetBalanced(s: State, c: nat, name: string, channel: nat, noAck: bool)
    requires Inv(s) && c < |s.conns|
    ensures Inv(DoGet(s, c, name, channel, noAck).0)
  {
    if name in s.names && s.queues[s.names[name]].ready != [] {
      HandOutBalanced(s, s.names[name], c, channel, noAck);
    }
  }

  lemma PublishBalanced(s: State, m: Message)
    requires Inv(s)
    ensures Inv(DoPublish(s, m).0)
  {
    PublishToBalanced(s, m, Destinations(s, m.exchange, m.routingKey));
  }

  lemma TopologyBalanced(s: State, op: Op)
    requires Inv(s) && (op.DeclareExchange? || op.Bind?)
    ensures Inv(Step(s, op).0)
  {
    StepLinked(s, op);
    BalancedFrame(s, Step(s, op).0);
  }

  lemma PurgeBalanced(s: State, name: string)
    requires Inv(s)
    ensures Inv(DoPurge(s, name).0)
  {
    if name in s.names { DiscardBalanced(s, s.names[name]); }
  }

  /** Every operation keeps the books. */
  lemma StepBalanced(s: State, op: Op)
    requires Inv(s) && Admissible(s, op)
    ensures Inv(Step(s, op).0)
  {
    match op
    case Open => OpenBalanced(s);
    case DeclareExchange(_, _, _) => TopologyBalanced(s, op);
    case DeclareQueue(name, passive) => DeclareQueueBalanced(s, name, passive);
    case Bind(_, _, _) => TopologyBalanced(s, op);
    case Publish(m) => PublishBalanced(s, m);
    case Get(c, name, channel, noAck) => GetBalanced(s, c, name, channel, noAck);
    case Consume(c, name, tag, channel, noAck) => ConsumeBalanced(s, c, name, tag, channel, noAck);
    case Cancel(c, tag) => CancelBalanced(s, c, tag);
    case Qos(c, channel, prefetch, tags) =>
      assert forall i :: 0 <= i < |tags| ==> tags[i] in tags;
      QosBalanced(s, c, channel, prefetch, tags);
    case Settle(c, tag, channel, multiple, requeue) => SettleBalanced(s, c, tag, channel, multiple, requeue);
    case Purge(name) => PurgeBalanced(s, name);
    case Delete(name) => DeleteBalanced(s, name);
    case Close(c, tags, held, order) => CloseBalanced(s, c, tags, held, order);
  }

  lemma {:induction false} RunBalanced(s: State, ops: seq<Op>)
    requires Inv(s) && Runs(s, ops)
    ensures Inv(Run(s, ops))
    decreases |ops|
  {
    if ops != [] {
      StepBalanced(s, ops[0]);
      RunBalanced(Step(s, ops[0]).0, ops[1..]);
    }
  }

  // ----- the theorems -----

  /** Conservation over every run from the empty broker, copy by copy. */
  lemma Conservation(ops: seq<Op>, q: nat, m: Message)
    requires Runs(INIT, ops) && q < |Run(INIT, ops).queues|
    ensures var s := Run(INIT, ops);
            var l := s.ledgers[q];
            l.enqueued[m] ==
              Messages(s.queues[q].ready)[m] + AllHeld(s.conns, Copy(q, m)) + l.settled[m] + l.noAck[m] + l.discarded[m]
  {
    RunBalanced(INIT, ops);
    var s := Run(INIT, ops);
    assert QueueBalanced(s.queues[q], s.ledgers[q], s.conns, q);
    assert CopiesBalanced(s.queues[q].ready, s.ledgers[q], AllHeld(s.conns, Copy(q, m)), m);
  }

  /** The unacked gauge and the per-channel outstanding counts are never stale. */
  lemma CountersExact(ops: seq<Op>)
    requires Runs(INIT, ops)
    ensures var s := Run(INIT, ops);
            && (forall q :: 0 <= q < |s.queues| ==> s.queues[q].unacked == AllHeld(s.conns, From(q)))
            && (forall c, channel: nat :: 0 <= c < |s.conns| ==>
                  At(s.conns[c].outstanding, channel) == Share(s.conns[c], On(channel)))
            && (forall c, t :: 0 <= c < |s.conns| && t in s.conns[c].held ==> 1 <= t <= s.conns[c].nextTag)
  {
    RunBalanced(INIT, ops);
    var s := Run(INIT, ops);
    forall q | 0 <= q < |s.queues| ensures s.queues[q].unacked == AllHeld(s.conns, From(q)) {
      assert QueueBalanced(s.queues[q], s.ledgers[q], s.conns, q);
    }
    forall c, channel: nat | 0 <= c < |s.conns|
      ensures At(s.conns[c].outstanding, channel) == Share(s.conns[c], On(channel))
    {
      assert ConnBalanced(s.conns[c]);
    }
    forall c, t | 0 <= c < |s.conns| && t in s.conns[c].held ensures 1 <= t <= s.conns[c].nextTag {
      assert ConnLinked(s.conns[c], c, |s.queues|);
    }
  }
}
