/**
 When settling one delivery leaves a message waiting in front of a consumer with
 room. Settling makes room on the delivery's channel and then dispatches only the
 queue the delivery came from; another queue that the channel consumes from waits
 in vain exactly when that dispatch does not fill the channel again.
 */
module BrokerStall {
  import opened Common
  import opened Routing
  import opened Broker
  import opened BrokerOps
  import opened BrokerFairness

  // ----- one round of the ring -----

  /** The queue's consumers in the order their turns come. */
  ghost function Ringed(q: Queue): (ring: seq<Consumer>)
    ensures |ring| == |q.consumers|
  {
    if q.consumers == [] then [] else seq(|q.consumers|, i requires 0 <= i < |q.consumers| => Candidate(q, i))
  }

  predicate Own(k: Consumer, c: nat, channel: nat) {
    k.owner == c && k.channel == channel
  }

  /** Handing the waiting messages to the consumers with room, in turn, reaches one that takes a place on the channel. */
  ghost predicate Fills(ring: seq<Consumer>, waiting: nat, conns: seq<Connection>, c: nat, channel: nat)
    decreases |ring|
  {
    && ring != [] && waiting > 0
    && if !Roomy(conns, ring[0]) then Fills(ring[1..], waiting, conns, c, channel)
       else (Own(ring[0], c, channel) && !ring[0].noAck) || Fills(ring[1..], waiting - 1, conns, c, channel)
  }

  lemma {:induction false} FillsAfterFull(ring: seq<Consumer>, i: nat, waiting: nat, conns: seq<Connection>, c: nat, channel: nat)
    requires i <= |ring| && forall j :: 0 <= j < i ==> !Roomy(conns, ring[j])
    ensures Fills(ring, waiting, conns, c, channel) == Fills(ring[i..], waiting, conns, c, channel)
    decreases i
  {
    if i == 0 {
      assert ring[0..] == ring;
    } else {
      forall j | 0 <= j < i - 1 ensures !Roomy(conns, ring[1..][j]) { assert !Roomy(conns, ring[j + 1]); }
      FillsAfterFull(ring[1..], i - 1, waiting, conns, c, channel);
      assert ring[1..][i - 1..] == ring[i..];
    }
  }

  /** What the first consumer with room decides. */
  lemma FillsAtFirst(ring: seq<Consumer>, i: nat, waiting: nat, conns: seq<Connection>, c: nat, channel: nat)
    requires i < |ring| && waiting > 0 && Roomy(conns, ring[i]) && forall j :: 0 <= j < i ==> !Roomy(conns, ring[j])
    ensures Fills(ring, waiting, conns, c, channel) <==>
            (Own(ring[i], c, channel) && !ring[i].noAck) || Fills(ring[i + 1..], waiting - 1, conns, c, channel)
  {
    FillsAfterFull(ring, i, waiting, conns, c, channel);
    assert ring[i..][0] == ring[i] && ring[i..][1..] == ring[i + 1..];
  }

  /** Consumers that take no place on the channel change nothing at the end. */
  lemma {:induction false} FillsInert(a: seq<Consumer>, b: seq<Consumer>, waiting: nat, conns: seq<Connection>, c: nat, channel: nat)
    requires forall j :: 0 <= j < |b| ==> !Roomy(conns, b[j]) || !Own(b[j], c, channel) || b[j].noAck
    ensures Fills(a + b, waiting, conns, c, channel) == Fills(a, waiting, conns, c, channel)
    decreases |a| + |b|
  {
    var all := a + b;
    if a != [] {
      assert all[0] == a[0] && all[1..] == a[1..] + b;
      FillsInert(a[1..], b, waiting, conns, c, channel);
      if waiting > 0 {
        FillsInert(a[1..], b, waiting - 1, conns, c, channel);
      }
    } else if b != [] {
      assert all == b && all[1..] == [] + b[1..];
      forall j | 0 <= j < |b[1..]| ensures !Roomy(conns, b[1..][j]) || !Own(b[1..][j], c, channel) || b[1..][j].noAck {
        assert b[1..][j] == b[j + 1];
      }
      FillsInert([], b[1..], waiting, conns, c, channel);
      if waiting > 0 {
        FillsInert([], b[1..], waiting - 1, conns, c, channel);
      }
    }
  }

  /** Whether a consumer has room is all the walk asks of the connections. */
  lemma {:induction false} FillsSameRoom(ring: seq<Consumer>, waiting: nat, a: seq<Connection>, b: seq<Connection>, c: nat, channel: nat)
    requires forall k :: k in ring ==> Roomy(a, k) == Roomy(b, k)
    ensures Fills(ring, waiting, a, c, channel) == Fills(ring, waiting, b, c, channel)
    decreases |ring|
  {
    if ring != [] {
      assert ring[0] in ring;
      FillsSameRoom(ring[1..], waiting, a, b, c, channel);
      if waiting > 0 {
        FillsSameRoom(ring[1..], waiting - 1, a, b, c, channel);
      }
    }
  }

  /** After the i-th took its turn, the ring begins behind it. */
  lemma Rotated(q: Queue, i: nat, turn: nat)
    requires i < |q.consumers| && turn == Around(Ring(q.turn, |q.consumers|), i + 1, |q.consumers|)
    ensures Ringed(q.(turn := turn)) == Ringed(q)[i + 1..] + Ringed(q)[..i + 1]
  {
    var n, t := |q.consumers|, Ring(q.turn, |q.consumers|);
    var later := q.(turn := turn);
    var ring := Ringed(q);
    forall j | 0 <= j < n ensures Ringed(later)[j] == (ring[i + 1..] + ring[..i + 1])[j] {
      assert Ring(turn, n) == turn;
      if i + 1 + j < n {
        assert Around(turn, j, n) == Around(t, i + 1 + j, n);
      } else {
        assert Around(turn, j, n) == Around(t, i + 1 + j - n, n);
      }
    }
  }

  // ----- a dispatch and the channel's last place -----

  lemma HandNextDetail(s: State, q: nat)
    requires Linked(s) && q < |s.queues| && s.queues[q].ready != [] && Taker(s, q).0.Some?
    ensures var (k, turn) := Taker(s, q);
            var r := HandNext(s, q);
            && k.value.queue == q && r.queues[q].turn == turn && r.queues[q].consumers == s.queues[q].consumers
            && r.conns == s.conns[k.value.owner := Holding(s.conns[k.value.owner],
                                                           Held(q, s.queues[q].ready[0].message, k.value.channel), k.value.noAck)]
  {
  }

  ghost predicate TakesAt(s: State, q: nat, i: nat)
    requires Linked(s) && q < |s.queues|
  {
    var (k, turn) := Taker(s, q);
    var queue := s.queues[q];
    && k.Some? && i < |queue.consumers| && k.value == Ringed(queue)[i] && Roomy(s.conns, k.value)
    && (forall j :: 0 <= j < i ==> !Roomy(s.conns, Ringed(queue)[j]))
    && turn == Around(Ring(queue.turn, |queue.consumers|), i + 1, |queue.consumers|)
  }

  /** The taker is the first of the ring with room, and the turn is left behind it. */
  lemma TakerInRing(s: State, q: nat) returns (i: nat)
    requires Linked(s) && q < |s.queues| && Taker(s, q).0.Some?
    ensures TakesAt(s, q, i)
  {
    var queue := s.queues[q];
    assert QueueLinked(queue, q, |s.conns|);
    NextIsFirstWithRoom(queue, s.conns, |queue.consumers|);
    var (k, turn) := Taker(s, q);
    i :| Picks(queue, s.conns, |queue.consumers|, k.value, turn, i);
    forall j | 0 <= j < i ensures !Roomy(s.conns, Ringed(queue)[j]) {
      assert !Roomy(s.conns, Candidate(queue, j));
    }
  }

  lemma {:induction false} NobodyFills(ring: seq<Consumer>, waiting: nat, conns: seq<Connection>, c: nat, channel: nat)
    requires forall k :: k in ring ==> !Roomy(conns, k)
    ensures !Fills(ring, waiting, conns, c, channel)
    decreases |ring|
  {
    if ring != [] {
      assert ring[0] in ring;
      NobodyFills(ring[1..], waiting, conns, c, channel);
    }
  }

  lemma RingIsListed(q: Queue)
    ensures forall k :: k in Ringed(q) ==> k in q.consumers
  {
  }

  ghost predicate LastPlace(conn: Connection, channel: nat) {
    At(conn.prefetch, channel) != 0 && At(conn.outstanding, channel) == At(conn.prefetch, channel) - 1
  }

  ghost predicate OnlyOwnRoomy(s: State, q: nat, c: nat, channel: nat)
    requires q < |s.queues|
  {
    forall k :: k in s.queues[q].consumers && Roomy(s.conns, k) ==> Own(k, c, channel)
  }

  /** Room never comes back while messages are handed out. */
  lemma StaysFull(s: State, r: State, c: nat, channel: nat)
    requires OnlyHands(s, r) && c < |s.conns| && !HasRoom(s.conns[c], channel)
    ensures !HasRoom(r.conns[c], channel)
  {
    assert HeldKept(s.conns[c], r.conns[c]);
  }

  lemma TakenBy(conn: Connection, h: Held, noAck: bool, channel: nat)
    requires LastPlace(conn, channel)
    ensures var after := Holding(conn, h, noAck);
            if h.channel == channel && !noAck then !HasRoom(after, channel) else LastPlace(after, channel)
  {
  }

  /** The channel's last place is taken by a dispatch exactly when the ring says so. */
  lemma {:induction false} DispatchFills(s: State, q: nat, c: nat, channel: nat)
    requires Linked(s) && q < |s.queues| && c < |s.conns| && LastPlace(s.conns[c], channel)
    requires |s.queues[q].ready| <= 1 || OnlyOwnRoomy(s, q, c, channel)
    ensures HasRoom(Dispatch(s, q).conns[c], channel) <==>
            !Fills(Ringed(s.queues[q]), |s.queues[q].ready|, s.conns, c, channel)
    decreases |s.queues[q].ready|
  {
    var queue := s.queues[q];
    if queue.ready != [] {
      if Taker(s, q).0.None? {
        NobodyTakes(s, q, c, channel);
      } else {
        var i := TakerInRing(s, q);
        FillsAtTaker(s, q, c, channel, i);
        DispatchFillsStep(s, q, c, channel, i);
      }
    }
  }

  lemma FillsAtTaker(s: State, q: nat, c: nat, channel: nat, i: nat)
    requires Linked(s) && q < |s.queues| && s.queues[q].ready != [] && TakesAt(s, q, i)
    ensures var k := Taker(s, q).0.value;
            Fills(Ringed(s.queues[q]), |s.queues[q].ready|, s.conns, c, channel) <==>
            (Own(k, c, channel) && !k.noAck) || Fills(Ringed(s.queues[q])[i + 1..], |s.queues[q].ready| - 1, s.conns, c, channel)
  {
    FillsAtFirst(Ringed(s.queues[q]), i, |s.queues[q].ready|, s.conns, c, channel);
  }

  lemma NobodyTakes(s: State, q: nat, c: nat, channel: nat)
    requires Linked(s) && q < |s.queues| && c < |s.conns| && s.queues[q].ready != [] && Taker(s, q).0.None?
    ensures Dispatch(s, q).conns == s.conns
    ensures !Fills(Ringed(s.queues[q]), |s.queues[q].ready|, s.conns, c, channel)
  {
    var queue := s.queues[q];
    assert QueueLinked(queue, q, |s.conns|);
    NextNone(queue, s.conns);
    RingIsListed(queue);
    NobodyFills(Ringed(queue), |queue.ready|, s.conns, c, channel);
  }

  lemma {:induction false} DispatchFillsStep(s: State, q: nat, c: nat, channel: nat, i: nat)
    requires Linked(s) && q < |s.queues| && c < |s.conns| && LastPlace(s.conns[c], channel)
    requires |s.queues[q].ready| <= 1 || OnlyOwnRoomy(s, q, c, channel)
    requires s.queues[q].ready != [] && TakesAt(s, q, i)
    ensures HasRoom(Dispatch(s, q).conns[c], channel) <==>
            !((Own(Taker(s, q).0.value, c, channel) && !Taker(s, q).0.value.noAck) ||
              Fills(Ringed(s.queues[q])[i + 1..], |s.queues[q].ready| - 1, s.conns, c, channel))
    decreases |s.queues[q].ready|, 0
  {
    var queue := s.queues[q];
    var k := Taker(s, q).0.value;
    var next := HandNext(s, q);
    PlaceAfter(s, q, c, channel);
    assert Dispatch(s, q) == Dispatch(next, q);
    if Own(k, c, channel) && !k.noAck {
      StaysFull(next, Dispatch(next, q), c, channel);
    } else if |queue.ready| == 1 {
      assert Dispatch(next, q) == next && !Fills(Ringed(queue)[i + 1..], 0, s.conns, c, channel);
    } else {
      PassedOn(s, q, c, channel, i, next);
      DispatchFills(next, q, c, channel);
    }
  }

  /** Only a message its own consumer acknowledges takes the channel's last place. */
  lemma PlaceAfter(s: State, q: nat, c: nat, channel: nat)
    requires Linked(s) && q < |s.queues| && c < |s.conns| && LastPlace(s.conns[c], channel)
    requires s.queues[q].ready != [] && Taker(s, q).0.Some?
    ensures var k := Taker(s, q).0.value;
            var conn := HandNext(s, q).conns[c];
            if Own(k, c, channel) && !k.noAck then !HasRoom(conn, channel) else LastPlace(conn, channel)
  {
    var k := Taker(s, q).0.value;
    HandNextDetail(s, q);
    TakenBy(s.conns[c], Held(q, s.queues[q].ready[0].message, k.channel), k.noAck, channel);
  }

  lemma NoAckKeepsRoom(conns: seq<Connection>, c: nat, h: Held)
    requires c < |conns|
    ensures forall k :: Roomy(conns[c := Holding(conns[c], h, true)], k) == Roomy(conns, k)
  {
  }

  /** A consumer that acknowledges nothing took a message: the same walk goes on behind it. */
  lemma PassedOn(s: State, q: nat, c: nat, channel: nat, i: nat, next: State)
    requires Linked(s) && q < |s.queues| && c < |s.conns| && OnlyOwnRoomy(s, q, c, channel)
    requires s.queues[q].ready != [] && Taker(s, q).0.Some? && i < |s.queues[q].consumers| && next == HandNext(s, q)
    requires var k := Taker(s, q).0.value; k == Ringed(s.queues[q])[i] && Roomy(s.conns, k) && k.noAck
    requires forall j :: 0 <= j < i ==> !Roomy(s.conns, Ringed(s.queues[q])[j])
    requires Taker(s, q).1 == Around(Ring(s.queues[q].turn, |s.queues[q].consumers|), i + 1, |s.queues[q].consumers|)
    ensures OnlyOwnRoomy(next, q, c, channel)
    ensures Fills(Ringed(next.queues[q]), |next.queues[q].ready|, next.conns, c, channel) ==
            Fills(Ringed(s.queues[q])[i + 1..], |s.queues[q].ready| - 1, s.conns, c, channel)
  {
    var queue := s.queues[q];
    var holder := Taker(s, q).0.value;
    HandNextDetail(s, q);
    NoAckKeepsRoom(s.conns, holder.owner, Held(q, queue.ready[0].message, holder.channel));
    PassedQueue(queue, next.queues[q], i, |queue.ready| - 1, s.conns, next.conns, c, channel);
  }

  lemma PassedQueue(q: Queue, later: Queue, i: nat, waiting: nat, a: seq<Connection>, b: seq<Connection>, c: nat, channel: nat)
    requires i < |q.consumers| && later.consumers == q.consumers
    requires later.turn == Around(Ring(q.turn, |q.consumers|), i + 1, |q.consumers|)
    requires Ringed(q)[i].noAck && (forall j :: 0 <= j < i ==> !Roomy(a, Ringed(q)[j])) && forall k :: Roomy(b, k) == Roomy(a, k)
    ensures Fills(Ringed(later), waiting, b, c, channel) == Fills(Ringed(q)[i + 1..], waiting, a, c, channel)
  {
    var ring := Ringed(q);
    Rotated(q, i, later.turn);
    assert Ringed(later) == Ringed(q.(turn := later.turn));
    FillsSameRoom(Ringed(later), waiting, b, a, c, channel);
    FillsInert(ring[i + 1..], ring[..i + 1], waiting, a, c, channel);
  }

  // ----- settling one delivery -----

  /** Releasing the delivery gives its channel its only free place. */
  predicate OpensPlace(s: State, c: nat, tag: nat)
    requires c < |s.conns| && tag in s.conns[c].held
  {
    var channel := s.conns[c].held[tag].channel;
    At(s.conns[c].prefetch, channel) != 0 && At(s.conns[c].outstanding, channel) == At(s.conns[c].prefetch, channel)
  }

  /** Another queue than the source has a message waiting and a consumer on the channel. */
  ghost predicate WaitsElsewhere(s: State, c: nat, channel: nat, source: nat) {
    exists p, k :: 0 <= p < |s.queues| && p != source && s.queues[p].ready != [] && k in s.queues[p].consumers && Own(k, c, channel)
  }

  /** The dispatch of the source takes the place again. */
  ghost predicate Refills(s: State, c: nat, tag: nat, requeue: bool)
    requires Linked(s) && c < |s.conns| && tag in s.conns[c].held
  {
    var h := s.conns[c].held[tag];
    var given := Give(s, c, tag, requeue);
    assert ConnLinked(s.conns[c], c, |s.queues|);
    Fills(Ringed(given.queues[h.queue]), |given.queues[h.queue].ready|, given.conns, c, h.channel)
  }

  ghost predicate Stalls(s: State, c: nat, tag: nat, requeue: bool)
    requires Linked(s) && c < |s.conns| && tag in s.conns[c].held
  {
    && OpensPlace(s, c, tag)
    && WaitsElsewhere(s, c, s.conns[c].held[tag].channel, s.conns[c].held[tag].queue)
    && !Refills(s, c, tag, requeue)
  }

  function Settled(s: State, c: nat, tag: nat, requeue: bool): (r: State)
    requires Linked(s) && c < |s.conns| && tag in s.conns[c].held
    ensures Linked(r) && |r.queues| == |s.queues|
  {
    assert ConnLinked(s.conns[c], c, |s.queues|);
    Dispatch(Give(s, c, tag, requeue), s.conns[c].held[tag].queue)
  }

  lemma SettledIsSettle(s: State, c: nat, tag: nat, channel: nat, requeue: bool)
    requires Linked(s) && c < |s.conns| && tag in s.conns[c].held
    ensures DoSettle(s, c, tag, channel, false, requeue).0 == Settled(s, c, tag, requeue)
  {
    var tags := [tag];
    assert TagsNamed(s.conns[c], tag, channel, false) == Some(tags);
    assert tags[1..] == [];
    assert SettleAll(s, c, tags, requeue) == SettleAll(Settled(s, c, tag, requeue), c, tags[1..], requeue);
  }

  /** Releasing changes the room of the delivery's channel and of no other. */
  lemma GiveRoom(s: State, c: nat, tag: nat, requeue: bool, k: Consumer)
    requires Linked(s) && c < |s.conns| && tag in s.conns[c].held && k.owner < |s.conns|
    ensures var h := s.conns[c].held[tag];
            var given := Give(s, c, tag, requeue);
            && (!Own(k, c, h.channel) ==> Roomy(given.conns, k) == Roomy(s.conns, k))
            && (Own(k, c, h.channel) && Roomy(given.conns, k) && !Roomy(s.conns, k) ==> OpensPlace(s, c, tag))
            && (OpensPlace(s, c, tag) ==> LastPlace(given.conns[c], h.channel) && !HasRoom(s.conns[c], h.channel))
  {
  }

  lemma GiveElsewhere(s: State, c: nat, tag: nat, requeue: bool, p: nat)
    requires Linked(s) && c < |s.conns| && tag in s.conns[c].held && p < |s.queues|
    ensures var given := Give(s, c, tag, requeue);
            var source := s.conns[c].held[tag].queue;
            && given.queues[p].consumers == s.queues[p].consumers
            && (p != source ==> given.queues[p] == s.queues[p])
            && (p == source ==> |given.queues[p].ready| == |s.queues[p].ready| + if requeue then 1 else 0)
  {
  }

  /** When a place opens, the source's dispatch is one the ring decides. */
  lemma SourceReady(s: State, c: nat, tag: nat, requeue: bool)
    requires Linked(s) && WorkConserving(s) && c < |s.conns| && tag in s.conns[c].held && OpensPlace(s, c, tag)
    ensures var h := s.conns[c].held[tag];
            h.queue < |s.queues| && (HasRoom(Settled(s, c, tag, requeue).conns[c], h.channel) <==> !Refills(s, c, tag, requeue))
  {
    var h := s.conns[c].held[tag];
    assert ConnLinked(s.conns[c], c, |s.queues|);
    var given := Give(s, c, tag, requeue);
    GiveElsewhere(s, c, tag, requeue, h.queue);
    assert QueueLinked(s.queues[h.queue], h.queue, |s.conns|) && Drained(s, h.queue);
    GiveRoom(s, c, tag, requeue, Consumer("", 0, c, h.channel, false));
    if s.queues[h.queue].ready != [] {
      forall k | k in given.queues[h.queue].consumers && Roomy(given.conns, k) ensures Own(k, c, h.channel) {
        GiveRoom(s, c, tag, requeue, k);
      }
    }
    DispatchFills(given, h.queue, c, h.channel);
  }

  lemma StalledWaits(s: State, c: nat, tag: nat, requeue: bool)
    requires Linked(s) && WorkConserving(s) && c < |s.conns| && tag in s.conns[c].held && Stalls(s, c, tag, requeue)
    ensures !WorkConserving(Settled(s, c, tag, requeue))
  {
    var h := s.conns[c].held[tag];
    var given, r := Give(s, c, tag, requeue), Settled(s, c, tag, requeue);
    SourceReady(s, c, tag, requeue);
    var p, k :| 0 <= p < |s.queues| && p != h.queue && s.queues[p].ready != [] && k in s.queues[p].consumers && Own(k, c, h.channel);
    GiveElsewhere(s, c, tag, requeue, p);
    assert r.queues[p] == s.queues[p];
    assert !Drained(r, p);
  }

  lemma OthersDrained(s: State, c: nat, tag: nat, requeue: bool, p: nat)
    requires Linked(s) && WorkConserving(s) && c < |s.conns| && tag in s.conns[c].held && !Stalls(s, c, tag, requeue)
    requires p < |s.queues| && p != s.conns[c].held[tag].queue
    ensures Drained(Settled(s, c, tag, requeue), p)
  {
    var h := s.conns[c].held[tag];
    assert ConnLinked(s.conns[c], c, |s.queues|);
    var given, r := Give(s, c, tag, requeue), Settled(s, c, tag, requeue);
    GiveElsewhere(s, c, tag, requeue, p);
    assert QueueLinked(s.queues[p], p, |s.conns|) && Drained(s, p) && r.queues[p] == s.queues[p];
    if s.queues[p].ready != [] {
      forall k | k in r.queues[p].consumers ensures !HasRoom(r.conns[k.owner], k.channel) {
        assert !Roomy(s.conns, k);
        GiveRoom(s, c, tag, requeue, k);
        if Roomy(given.conns, k) {
          assert WaitsElsewhere(s, c, h.channel, h.queue);
          SourceReady(s, c, tag, requeue);
        } else {
          StaysFull(given, r, k.owner, k.channel);
        }
      }
    }
  }

  /**
   Settling one delivery, acknowledged or put back, in any state that had no work
   undone, leaves work undone if and only if it opens the channel's only place,
   another queue waits with a consumer on the channel, and the dispatch of the
   source does not take the place again.
   */
  lemma SettleStallsExactly(s: State, c: nat, tag: nat, requeue: bool)
    requires Linked(s) && WorkConserving(s) && c < |s.conns| && tag in s.conns[c].held
    ensures WorkConserving(Settled(s, c, tag, requeue)) <==> !Stalls(s, c, tag, requeue)
  {
    if Stalls(s, c, tag, requeue) {
      StalledWaits(s, c, tag, requeue);
    } else {
      var h := s.conns[c].held[tag];
      assert ConnLinked(s.conns[c], c, |s.queues|);
      forall p | 0 <= p < |s.queues| ensures Drained(Settled(s, c, tag, requeue), p) {
        if p == h.queue {
          DispatchDrains(Give(s, c, tag, requeue), p);
        } else {
          OthersDrained(s, c, tag, requeue, p);
        }
      }
    }
  }

  // ----- acknowledgements, where every consumer of the source on the channel acknowledges too -----

  lemma {:induction false} FillsWhenOwned(ring: seq<Consumer>, waiting: nat, conns: seq<Connection>, c: nat, channel: nat)
    requires forall k :: k in ring ==> (Roomy(conns, k) <==> Own(k, c, channel)) && (Own(k, c, channel) ==> !k.noAck)
    ensures Fills(ring, waiting, conns, c, channel) <==> waiting > 0 && exists k :: k in ring && Own(k, c, channel)
    decreases |ring|
  {
    if ring != [] {
      assert ring[0] in ring;
      FillsWhenOwned(ring[1..], waiting, conns, c, channel);
      assert forall k :: k in ring <==> k == ring[0] || k in ring[1..];
    }
  }

  lemma ListedInRing(q: Queue, k: Consumer)
    ensures k in q.consumers <==> k in Ringed(q)
  {
    RingIsListed(q);
    if k in q.consumers {
      var j :| 0 <= j < |q.consumers| && q.consumers[j] == k;
      var i := StepsTo(q, j);
      assert Ringed(q)[i] == k;
    }
  }

  /** There, the place is taken again exactly when the source has a message waiting and a consumer on the channel. */
  lemma AckRefillsExactly(s: State, c: nat, tag: nat)
    requires Linked(s) && WorkConserving(s) && c < |s.conns| && tag in s.conns[c].held && OpensPlace(s, c, tag)
    requires var h := s.conns[c].held[tag];
             h.queue < |s.queues| && forall k :: k in s.queues[h.queue].consumers && Own(k, c, h.channel) ==> !k.noAck
    ensures var h := s.conns[c].held[tag];
            Refills(s, c, tag, false) <==>
            s.queues[h.queue].ready != [] && exists k :: k in s.queues[h.queue].consumers && Own(k, c, h.channel)
  {
    var h := s.conns[c].held[tag];
    var given := Give(s, c, tag, false);
    var queue := given.queues[h.queue];
    GiveElsewhere(s, c, tag, false, h.queue);
    assert QueueLinked(s.queues[h.queue], h.queue, |s.conns|) && Drained(s, h.queue);
    if s.queues[h.queue].ready != [] {
      forall k | k in Ringed(queue) ensures (Roomy(given.conns, k) <==> Own(k, c, h.channel)) && (Own(k, c, h.channel) ==> !k.noAck) {
        ListedInRing(queue, k);
        GiveRoom(s, c, tag, false, k);
      }
      FillsWhenOwned(Ringed(queue), |queue.ready|, given.conns, c, h.channel);
      forall k ensures k in queue.consumers <==> k in Ringed(queue) {
        ListedInRing(queue, k);
      }
    }
  }
}
