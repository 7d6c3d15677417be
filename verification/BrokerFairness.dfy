/**
 Work conservation and prefetch. No operation but a pull pushes a channel past
 the limit it is under. And when clients keep one channel to one queue and do
 not reuse a tag another consumer of the queue has, no message ever waits in a
 queue that has a consumer with room.
 */
module BrokerFairness {
  import opened Common
  import opened Routing
  import opened Broker
  import opened BrokerOps

  // ----- the round robin -----

  /** i steps around a ring of n places, from place t. */
  function Around(t: nat, i: nat, n: nat): nat {
    if t + i < n then t + i else if t + i < n + n then t + i - n else 0
  }

  /** The i-th consumer from the queue's turn on. */
  function Candidate(q: Queue, i: nat): Consumer
    requires q.consumers != [] && i < |q.consumers|
  {
    q.consumers[Around(Ring(q.turn, |q.consumers|), i, |q.consumers|)]
  }

  /** The turn after this one is the next place around the ring. */
  lemma {:induction false} NextTurn(turn: nat, n: nat)
    requires n > 0
    ensures Ring(turn + 1, n) == Around(Ring(turn, n), 1, n)
  {
    if turn >= n {
      NextTurn(turn - n, n);
    }
  }

  ghost predicate Roomy(conns: seq<Connection>, k: Consumer) {
    k.owner < |conns| && HasRoom(conns[k.owner], k.channel)
  }

  /** The pick is the i-th from the turn, the earlier ones are full, and the turn moves past it. */
  ghost predicate Picks(q: Queue, conns: seq<Connection>, tries: nat, k: Consumer, turn: nat, i: nat)
    requires q.consumers != [] && tries <= |q.consumers|
  {
    && i < tries && k == Candidate(q, i) && Roomy(conns, k)
    && turn == Around(Ring(q.turn, |q.consumers|), i + 1, |q.consumers|)
    && forall j :: 0 <= j < i ==> !Roomy(conns, Candidate(q, j))
  }

  /** Moving the turn on by one place moves every candidate up by one. */
  lemma ShiftCandidate(q: Queue, i: nat)
    requires q.consumers != [] && i + 1 < |q.consumers|
    ensures Candidate(q.(turn := Ring(q.turn + 1, |q.consumers|)), i) == Candidate(q, i + 1)
  {
    NextTurn(q.turn, |q.consumers|);
  }

  lemma ShiftPick(q: Queue, conns: seq<Connection>, tries: nat, k: Consumer, turn: nat, i: nat)
    requires q.consumers != [] && 0 < tries <= |q.consumers| && !Roomy(conns, Candidate(q, 0))
    requires Picks(q.(turn := Ring(q.turn + 1, |q.consumers|)), conns, tries - 1, k, turn, i)
    ensures Picks(q, conns, tries, k, turn, i + 1)
  {
    var later := q.(turn := Ring(q.turn + 1, |q.consumers|));
    NextTurn(q.turn, |q.consumers|);
    ShiftCandidate(q, i);
    forall j | 0 <= j < i + 1 ensures !Roomy(conns, Candidate(q, j)) {
      if j > 0 {
        ShiftCandidate(q, j - 1);
        assert !Roomy(conns, Candidate(later, j - 1));
      }
    }
  }

  lemma ShiftNone(q: Queue, conns: seq<Connection>, tries: nat)
    requires q.consumers != [] && 0 < tries <= |q.consumers| && !Roomy(conns, Candidate(q, 0))
    requires var later := q.(turn := Ring(q.turn + 1, |q.consumers|)); forall i :: 0 <= i < tries - 1 ==> !Roomy(conns, Candidate(later, i))
    ensures forall i :: 0 <= i < tries ==> !Roomy(conns, Candidate(q, i))
  {
    var later := q.(turn := Ring(q.turn + 1, |q.consumers|));
    forall i | 0 < i < tries ensures !Roomy(conns, Candidate(q, i)) {
      ShiftCandidate(q, i - 1);
      assert !Roomy(conns, Candidate(later, i - 1));
    }
  }

  /** The pick is the first consumer with room, counting from the turn; none only when all are full. */
  lemma {:induction false} NextIsFirstWithRoom(q: Queue, conns: seq<Connection>, tries: nat)
    requires q.consumers != [] && tries <= |q.consumers|
    requires forall k :: k in q.consumers ==> k.owner < |conns|
    ensures var (k, turn) := Next(q, conns, tries);
            match k
            case None => forall i :: 0 <= i < tries ==> !Roomy(conns, Candidate(q, i))
            case Some(taking) => exists i: nat :: Picks(q, conns, tries, taking, turn, i)
    decreases tries
  {
    if tries > 0 {
      var n := |q.consumers|;
      var first := Candidate(q, 0);
      assert first in q.consumers;
      if Roomy(conns, first) {
        NextTurn(q.turn, n);
        assert Picks(q, conns, tries, first, Ring(q.turn + 1, n), 0);
      } else {
        var later := q.(turn := Ring(q.turn + 1, n));
        NextIsFirstWithRoom(later, conns, tries - 1);
        var (k, turn) := Next(later, conns, tries - 1);
        if k.Some? {
          var i: nat :| Picks(later, conns, tries - 1, k.value, turn, i);
          ShiftPick(q, conns, tries, k.value, turn, i);
        } else {
          ShiftNone(q, conns, tries);
        }
      }
    }
  }

  /** The walk stops empty-handed only when no consumer at all has room. */
  lemma NextNone(q: Queue, conns: seq<Connection>)
    requires forall k :: k in q.consumers ==> k.owner < |conns|
    requires Next(q, conns, |q.consumers|).0.None?
    ensures forall k :: k in q.consumers ==> !HasRoom(conns[k.owner], k.channel)
  {
    if q.consumers != [] {
      NextIsFirstWithRoom(q, conns, |q.consumers|);
      forall j | 0 <= j < |q.consumers| ensures !Roomy(conns, q.consumers[j]) {
        var i := StepsTo(q, j);
      }
    }
  }

  /** Every consumer is some number of steps ahead of the turn. */
  lemma StepsTo(q: Queue, j: nat) returns (i: nat)
    requires j < |q.consumers|
    ensures i < |q.consumers| && Candidate(q, i) == q.consumers[j]
  {
    var n, t := |q.consumers|, Ring(q.turn, |q.consumers|);
    i := if t <= j then j - t else j + n - t;
  }

  // ----- dispatch leaves nothing a consumer could take -----

  /** No message waits in q while one of its consumers has room. */
  ghost predicate Drained(s: State, q: nat)
    requires Linked(s) && q < |s.queues|
  {
    assert QueueLinked(s.queues[q], q, |s.conns|);
    s.queues[q].ready == [] || forall k :: k in s.queues[q].consumers ==> !HasRoom(s.conns[k.owner], k.channel)
  }

  ghost predicate WorkConserving(s: State)
    requires Linked(s)
  {
    forall q :: 0 <= q < |s.queues| ==> Drained(s, q)
  }

  lemma {:induction false} DispatchDrains(s: State, q: nat)
    requires Linked(s) && q < |s.queues|
    ensures Drained(Dispatch(s, q), q)
    decreases |s.queues[q].ready|
  {
    if s.queues[q].ready != [] {
      var (taking, turn) := Taker(s, q);
      if taking.None? {
        assert QueueLinked(s.queues[q], q, |s.conns|);
        NextNone(s.queues[q], s.conns);
      } else {
        DispatchDrains(HandNext(s, q), q);
      }
    }
  }

  /** Handing out only takes room away, so a drained queue stays drained. */
  lemma DrainedStays(s: State, r: State, p: nat)
    requires Linked(s) && Linked(r) && OnlyHands(s, r) && p < |s.queues|
    requires r.queues[p].ready == s.queues[p].ready && Drained(s, p)
    ensures Drained(r, p)
  {
    assert QueueLinked(s.queues[p], p, |s.conns|);
    forall k | k in r.queues[p].consumers && HasRoom(r.conns[k.owner], k.channel)
      ensures HasRoom(s.conns[k.owner], k.channel)
    {
      assert HeldKept(s.conns[k.owner], r.conns[k.owner]);
      assert At(s.conns[k.owner].outstanding, k.channel) <= At(r.conns[k.owner].outstanding, k.channel);
    }
  }

  lemma DispatchKeepsDrained(s: State, q: nat, p: nat)
    requires Linked(s) && q < |s.queues| && p < |s.queues| && (p == q || Drained(s, p))
    ensures Drained(Dispatch(s, q), p)
  {
    DispatchDrains(s, q);
    if p != q {
      DrainedStays(s, Dispatch(s, q), p);
    }
  }

  lemma {:induction false} DispatchAllDrains(s: State, order: seq<nat>, p: nat)
    requires Linked(s) && forall i :: 0 <= i < |order| ==> order[i] < |s.queues|
    requires p < |s.queues| && (p in order || Drained(s, p))
    ensures Drained(DispatchAll(s, order), p)
    decreases |order|
  {
    if order != [] {
      if p == order[0] || Drained(s, p) {
        DispatchKeepsDrained(s, order[0], p);
      }
      DispatchAllDrains(Dispatch(s, order[0]), order[1..], p);
    }
  }

  // ----- prefetch -----

  function Max(a: int, b: int): int {
    if a > b then a else b
  }

  /** The count was not pushed past a limit: it grew no further than the limit allows. */
  ghost predicate WithinLimit(before: Connection, after: Connection, channel: nat) {
    var limit := At(after.prefetch, channel);
    limit != 0 ==> At(after.outstanding, channel) <= Max(limit, At(before.outstanding, channel))
  }

  ghost predicate Restrained(s: State, r: State) {
    && |r.conns| == |s.conns|
    && forall c, channel: nat :: 0 <= c < |s.conns| ==>
         WithinLimit(s.conns[c], r.conns[c], channel) && At(r.conns[c].prefetch, channel) == At(s.conns[c].prefetch, channel)
  }

  lemma RestrainedTrans(s: State, m: State, r: State)
    requires Restrained(s, m) && Restrained(m, r)
    ensures Restrained(s, r)
  {
    forall c, channel: nat | 0 <= c < |s.conns|
      ensures WithinLimit(s.conns[c], r.conns[c], channel) && At(r.conns[c].prefetch, channel) == At(s.conns[c].prefetch, channel)
    {
      assert WithinLimit(s.conns[c], m.conns[c], channel) && WithinLimit(m.conns[c], r.conns[c], channel);
      assert At(m.conns[c].prefetch, channel) == At(s.conns[c].prefetch, channel);
    }
  }

  lemma HandNextRestrained(s: State, q: nat)
    requires Linked(s) && q < |s.queues| && s.queues[q].ready != [] && Taker(s, q).0.Some?
    ensures Restrained(s, HandNext(s, q))
  {
  }

  lemma {:induction false} DispatchRestrained(s: State, q: nat)
    requires Linked(s) && q < |s.queues|
    ensures Restrained(s, Dispatch(s, q))
    decreases |s.queues[q].ready|
  {
    if s.queues[q].ready != [] && Taker(s, q).0.Some? {
      var r := HandNext(s, q);
      HandNextRestrained(s, q);
      DispatchRestrained(r, q);
      RestrainedTrans(s, r, Dispatch(s, q));
    }
  }

  lemma {:induction false} DispatchAllRestrained(s: State, order: seq<nat>)
    requires Linked(s) && forall i :: 0 <= i < |order| ==> order[i] < |s.queues|
    ensures Restrained(s, DispatchAll(s, order))
    decreases |order|
  {
    if order != [] {
      var s1 := Dispatch(s, order[0]);
      DispatchRestrained(s, order[0]);
      DispatchAllRestrained(s1, order[1..]);
      RestrainedTrans(s, s1, DispatchAll(s, order));
    }
  }

  lemma GiveRestrained(s: State, c: nat, tag: nat, requeue: bool)
    requires Linked(s) && c < |s.conns| && tag in s.conns[c].held
    ensures Restrained(s, Give(s, c, tag, requeue))
  {
  }

  lemma {:induction false} SettleAllRestrained(s: State, c: nat, tags: seq<nat>, requeue: bool)
    requires Linked(s) && c < |s.conns| && Distinct(tags)
    requires forall t :: t in tags ==> t in s.conns[c].held
    ensures Restrained(s, SettleAll(s, c, tags, requeue))
    decreases |tags|
  {
    if tags != [] {
      assert ConnLinked(s.conns[c], c, |s.queues|);
      var source := s.conns[c].held[tags[0]].queue;
      var given := Give(s, c, tags[0], requeue);
      var next := Dispatch(given, source);
      GiveRestrained(s, c, tags[0], requeue);
      DispatchRestrained(given, source);
      RestrainedTrans(s, given, next);
      assert HeldKept(given.conns[c], next.conns[c]);
      SettleAllRestrained(next, c, tags[1..], requeue);
      RestrainedTrans(s, next, SettleAll(s, c, tags, requeue));
    }
  }

  lemma {:induction false} GiveAllRestrained(s: State, c: nat, tags: seq<nat>)
    requires Linked(s) && c < |s.conns| && Distinct(tags)
    requires forall t :: t in tags ==> t in s.conns[c].held
    ensures Restrained(s, GiveAll(s, c, tags))
    decreases |tags|
  {
    if tags != [] {
      var given := Give(s, c, tags[0], true);
      GiveRestrained(s, c, tags[0], true);
      GiveAllRestrained(given, c, tags[1..]);
      RestrainedTrans(s, given, GiveAll(s, c, tags));
    }
  }

  lemma {:induction false} PublishToRestrained(s: State, m: Message, reached: seq<nat>)
    requires Linked(s) && forall i :: 0 <= i < |reached| ==> reached[i] < |s.queues|
    ensures Restrained(s, PublishTo(s, m, reached))
    decreases |reached|
  {
    if reached != [] {
      var e := Enqueue(s, reached[0], m);
      var s1 := Dispatch(e, reached[0]);
      DispatchRestrained(e, reached[0]);
      assert Restrained(s, s1);
      PublishToRestrained(s1, m, reached[1..]);
      RestrainedTrans(s, s1, PublishTo(s, m, reached));
    }
  }

  lemma CloseRestrained(s: State, c: nat, tags: seq<string>, held: seq<nat>, order: seq<nat>)
    requires Linked(s) && Admissible(s, Close(c, tags, held, order))
    ensures Restrained(s, DoClose(s, c, tags, held, order).0)
  {
    var s1 := Deaf(DropAll(s, c, tags), c);
    var s2 := GiveAll(s1, c, held);
    assert Restrained(s, s1);
    GiveAllRestrained(s1, c, held);
    RestrainedTrans(s, s1, s2);
    forall i | 0 <= i < |order| ensures order[i] < |s2.queues| {
      assert order[i] in s.names.Values;
    }
    DispatchAllRestrained(s2, order);
    RestrainedTrans(s, s2, DispatchAll(s2, order));
  }

  lemma ConsumeRestrained(s: State, c: nat, name: string, tag: string, channel: nat, noAck: bool)
    requires Linked(s) && c < |s.conns|
    ensures Restrained(s, DoConsume(s, c, name, tag, channel, noAck).0)
  {
    var s1 := WithCounter(s, c, tag);
    var chosen := ChosenTag(s, c, tag);
    assert Restrained(s, s1);
    if name in s.names && chosen !in s1.conns[c].consumers {
      var q := s.names[name];
      var s2 := Subscribed(s1, Consumer(chosen, q, c, channel, noAck));
      assert Restrained(s, s2);
      DispatchRestrained(s2, q);
      RestrainedTrans(s, s2, Dispatch(s2, q));
    }
  }

  lemma {:induction false} ForgetAllRestrained(s: State, listed: seq<Consumer>)
    requires Linked(s) && forall i :: 0 <= i < |listed| ==> listed[i].owner < |s.conns|
    ensures Restrained(s, ForgetAll(s, listed))
    decreases |listed|
  {
    if listed != [] {
      var s1 := Forgotten(s, listed[0].owner, listed[0].tag);
      assert Restrained(s, s1);
      ForgetAllRestrained(s1, listed[1..]);
      RestrainedTrans(s, s1, ForgetAll(s, listed));
    }
  }

  lemma SettleRestrained(s: State, c: nat, tag: nat, channel: nat, multiple: bool, requeue: bool)
    requires Linked(s) && c < |s.conns|
    ensures Restrained(s, DoSettle(s, c, tag, channel, multiple, requeue).0)
  {
    NamedAreHeld(s.conns[c], tag, channel, multiple);
    var tags := TagsNamed(s.conns[c], tag, channel, multiple);
    if tags.Some? {
      SettleAllRestrained(s, c, tags.value, requeue);
    }
  }

  lemma DeleteRestrained(s: State, name: string)
    requires Linked(s)
    ensures Restrained(s, DoDelete(s, name).0)
  {
    if name in s.names {
      var q := s.names[name];
      var listed := s.queues[q].consumers;
      assert QueueLinked(s.queues[q], q, |s.conns|);
      assert forall i :: 0 <= i < |listed| ==> listed[i] in listed;
      ForgetAllRestrained(Unnamed(s, q), listed);
      assert Removed(s, q).conns == ForgetAll(Unnamed(s, q), listed).conns;
    }
  }

  lemma QosWithinLimit(s: State, c: nat, channel: nat, prefetch: int, tags: seq<string>, d: nat, ch: nat)
    requires Linked(s) && c < |s.conns| && forall i :: 0 <= i < |tags| ==> tags[i] in s.conns[c].consumers
    requires d < |s.conns|
    ensures WithinLimit(s.conns[d], DoQos(s, c, channel, prefetch, tags).0.conns[d], ch)
  {
    var s1 := Limited(s, c, channel, prefetch);
    DispatchAllRestrained(s1, QueuesOf(s1, c, tags));
    assert WithinLimit(s1.conns[d], DoQos(s, c, channel, prefetch, tags).0.conns[d], ch);
  }

  /** Only a pull may take a channel past its prefetch: every push respects it. */
  lemma PrefetchRespected(s: State, op: Op, c: nat, channel: nat)
    requires Linked(s) && Admissible(s, op) && c < |s.conns|
    requires !(op.Get? && op.conn == c && op.channel == channel)
    ensures c < |Step(s, op).0.conns| && WithinLimit(s.conns[c], Step(s, op).0.conns[c], channel)
  {
    match op
    case Publish(m) => PublishToRestrained(s, m, Destinations(s, m.exchange, m.routingKey));
    case Consume(d, name, tag, ch, noAck) => ConsumeRestrained(s, d, name, tag, ch, noAck);
    case Qos(d, ch, prefetch, tags) =>
      assert forall i :: 0 <= i < |tags| ==> tags[i] in tags;
      QosWithinLimit(s, d, ch, prefetch, tags, c, channel);
    case Settle(d, tag, ch, multiple, requeue) => SettleRestrained(s, d, tag, ch, multiple, requeue);
    case Delete(name) => DeleteRestrained(s, name);
    case Close(d, tags, held, order) => CloseRestrained(s, d, tags, held, order);
    case _ =>
  }
}
