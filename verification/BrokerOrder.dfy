/**
 The order messages keep: a dispatch delivers from the head and in order, and a
 batch that was pulled and refused goes back exactly where it came from.
 */
module BrokerOrder {
  import opened Common
  import opened Routing
  import opened Broker
  import opened BrokerOps

  // ----- first in, first out -----

  /** The sink gained, in order and from the head, what the queue lost. */
  ghost predicate InOrder(s: State, r: State, q: nat, n: nat)
    requires q < |s.queues| && |r.queues| == |s.queues|
  {
    && n <= |s.queues[q].ready|
    && r.queues[q].ready == s.queues[q].ready[n..]
    && |r.sink| == |s.sink| + n
    && r.sink[..|s.sink|] == s.sink
    && forall i :: 0 <= i < n ==> Carries(r.sink[|s.sink| + i], q, s.queues[q].ready[i], |s.queues[q].ready| - i - 1)
  }

  ghost predicate Carries(d: Delivery, q: nat, waiting: Pending, remaining: nat) {
    d.queue == q && d.pending == waiting && d.remaining == remaining
  }

  lemma HandNextInOrder(s: State, q: nat)
    requires Linked(s) && q < |s.queues| && s.queues[q].ready != [] && Taker(s, q).0.Some?
    ensures InOrder(s, HandNext(s, q), q, 1)
  {
    assert Taker(s, q).0.value.queue == q;
  }

  lemma InOrderTrans(s: State, m: State, r: State, q: nat, n: nat)
    requires q < |s.queues| && |m.queues| == |s.queues| && |r.queues| == |s.queues|
    requires InOrder(s, m, q, 1) && InOrder(m, r, q, n)
    ensures InOrder(s, r, q, n + 1)
  {
    var ready := s.queues[q].ready;
    assert ready[1..][n..] == ready[n + 1..];
    assert r.sink[..|s.sink|] == r.sink[..|m.sink|][..|s.sink|];
    assert r.sink[|s.sink|] == r.sink[..|m.sink|][|s.sink|];
    assert Carries(m.sink[|s.sink| + 0], q, ready[0], |ready| - 1);
    forall i | 0 <= i < n + 1 ensures Carries(r.sink[|s.sink| + i], q, ready[i], |ready| - i - 1) {
      if i > 0 {
        assert Carries(r.sink[|m.sink| + (i - 1)], q, m.queues[q].ready[i - 1], |m.queues[q].ready| - (i - 1) - 1);
      }
    }
  }

  lemma {:induction false} DispatchInOrder(s: State, q: nat) returns (n: nat)
    requires Linked(s) && q < |s.queues|
    ensures InOrder(s, Dispatch(s, q), q, n)
    decreases |s.queues[q].ready|
  {
    n := 0;
    if s.queues[q].ready != [] && Taker(s, q).0.Some? {
      var rest := DispatchInOrder(HandNext(s, q), q);
      HandNextInOrder(s, q);
      InOrderTrans(s, HandNext(s, q), Dispatch(s, q), q, rest);
      n := rest + 1;
    }
  }

  // ----- pulling a batch and refusing it -----

  /** k pulls in a row, each to be acknowledged. */
  function Pulled(s: State, c: nat, name: string, channel: nat, k: nat): (r: State)
    requires Linked(s) && c < |s.conns| && name in s.names && k <= |s.queues[s.names[name]].ready|
    ensures Linked(r) && |r.conns| == |s.conns| && r.names == s.names && |r.queues| == |s.queues|
    ensures r.queues[s.names[name]].ready == s.queues[s.names[name]].ready[k..]
    ensures forall p :: 0 <= p < |s.queues| && p != s.names[name] ==> r.queues[p] == s.queues[p]
    ensures r.queues[s.names[name]].consumers == s.queues[s.names[name]].consumers
  {
    if k == 0 then s
    else
      var before := Pulled(s, c, name, channel, k - 1);
      DoGet(before, c, name, channel, false).0
  }

  /** Tags above t up to t + k, highest first. */
  function Down(t: nat, k: nat): (tags: seq<nat>)
    ensures forall x :: x in tags <==> t < x <= t + k
    ensures forall i, j :: 0 <= i < j < |tags| ==> tags[i] > tags[j]
  {
    if k == 0 then []
    else
      var rest := Down(t, k - 1);
      assert forall i :: 0 <= i < |rest| ==> rest[i] in rest;
      [t + k] + rest
  }

  function Marked(ready: seq<Pending>): seq<Pending> {
    if ready == [] then [] else Marked(ready[..|ready| - 1]) + [Pending(ready[|ready| - 1].message, true)]
  }

  lemma {:induction false} MarkedMeaning(ready: seq<Pending>)
    ensures |Marked(ready)| == |ready|
    ensures forall i :: 0 <= i < |ready| ==> Marked(ready)[i] == Pending(ready[i].message, true)
  {
    if ready != [] { MarkedMeaning(ready[..|ready| - 1]); }
  }

  /** Tags t+1 to t+k hold the first k of `ready`, on one channel. */
  ghost predicate Batch(held: map<nat, Held>, t: nat, k: nat, q: nat, channel: nat, ready: seq<Pending>)
    requires k <= |ready|
  {
    forall x :: t < x <= t + k ==> x in held && held[x] == Held(q, ready[x - t - 1].message, channel)
  }

  /** The connection gained a batch under fresh tags and holds all else as before. */
  ghost predicate HoldsBatch(before: Connection, c: Connection, q: nat, channel: nat, ready: seq<Pending>, k: nat)
    requires k <= |ready|
  {
    && c.nextTag == before.nextTag + k
    && Batch(c.held, before.nextTag, k, q, channel, ready)
    && forall t :: t in c.held && t <= before.nextTag ==> t in before.held && c.held[t] == before.held[t]
  }

  lemma HoldsBatchGrows(before: Connection, c: Connection, q: nat, channel: nat, ready: seq<Pending>, k: nat)
    requires k < |ready| && HoldsBatch(before, c, q, channel, ready, k)
    ensures HoldsBatch(before, Holding(c, Held(q, ready[k].message, channel), false), q, channel, ready, k + 1)
  {
  }

  lemma GetHolding(s: State, c: nat, name: string, channel: nat)
    requires Linked(s) && c < |s.conns| && name in s.names && s.queues[s.names[name]].ready != []
    ensures var q := s.names[name];
            DoGet(s, c, name, channel, false).0.conns[c] ==
            Holding(s.conns[c], Held(q, s.queues[q].ready[0].message, channel), false)
  {
  }

  lemma {:induction false} PulledHolds(s: State, c: nat, name: string, channel: nat, k: nat)
    requires Linked(s) && c < |s.conns| && name in s.names && k <= |s.queues[s.names[name]].ready|
    ensures var q := s.names[name];
            HoldsBatch(s.conns[c], Pulled(s, c, name, channel, k).conns[c], q, channel, s.queues[q].ready, k)
  {
    if k > 0 {
      var q := s.names[name];
      var before := Pulled(s, c, name, channel, k - 1);
      PulledHolds(s, c, name, channel, k - 1);
      GetHolding(before, c, name, channel);
      HoldsBatchGrows(s.conns[c], before.conns[c], q, channel, s.queues[q].ready, k - 1);
    }
  }

  lemma {:induction false} SelectedNone(c: Connection, n: nat, channel: nat)
    requires forall t :: t in c.held && t <= n ==> c.held[t].channel != channel
    ensures Selected(c, n, 0, channel) == []
  {
    if n > 0 { SelectedNone(c, n - 1, channel); }
  }

  lemma {:induction false} SelectedDown(c: Connection, t: nat, k: nat, channel: nat)
    requires forall x :: t < x <= t + k ==> x in c.held && c.held[x].channel == channel
    requires forall x :: x in c.held && x <= t ==> c.held[x].channel != channel
    ensures Selected(c, t + k, 0, channel) == Down(t, k)
  {
    if k == 0 {
      SelectedNone(c, t, channel);
    } else {
      SelectedDown(c, t, k - 1, channel);
      assert t + k in c.held;
    }
  }

  /** With nobody to take a message a dispatch changes nothing. */
  lemma IdleDispatch(s: State, q: nat)
    requires Linked(s) && q < |s.queues| && s.queues[q].consumers == []
    ensures Dispatch(s, q) == s
  {
    assert s.queues[q := s.queues[q].(turn := s.queues[q].turn)] == s.queues;
  }

  lemma GiveBack(s: State, c: nat, tag: nat, q: nat, m: Message, channel: nat)
    requires Linked(s) && c < |s.conns| && tag in s.conns[c].held && q < |s.queues|
    requires s.conns[c].held[tag] == Held(q, m, channel)
    ensures var r := Give(s, c, tag, true);
            && r.queues[q].ready == [Pending(m, true)] + s.queues[q].ready
            && r.queues[q].consumers == s.queues[q].consumers
            && (forall p :: 0 <= p < |s.queues| && p != q ==> r.queues[p] == s.queues[p])
  {
  }

  /** Settling from a queue nobody consumes is giving back, one tag after another. */
  lemma SettleIdleStep(s: State, c: nat, tags: seq<nat>, q: nat)
    requires Linked(s) && c < |s.conns| && Distinct(tags) && tags != [] && (forall t :: t in tags ==> t in s.conns[c].held)
    requires q < |s.queues| && s.queues[q].consumers == [] && s.conns[c].held[tags[0]].queue == q
    ensures forall t :: t in tags[1..] ==> t in Give(s, c, tags[0], true).conns[c].held
    ensures SettleAll(s, c, tags, true) == SettleAll(Give(s, c, tags[0], true), c, tags[1..], true)
  {
    IdleDispatch(Give(s, c, tags[0], true), q);
  }

  lemma {:induction false} SettleIdle(s: State, c: nat, tags: seq<nat>, q: nat)
    requires Linked(s) && c < |s.conns| && Distinct(tags) && (forall t :: t in tags ==> t in s.conns[c].held)
    requires q < |s.queues| && s.queues[q].consumers == [] && (forall t :: t in tags ==> s.conns[c].held[t].queue == q)
    ensures SettleAll(s, c, tags, true) == GiveAll(s, c, tags)
    decreases |tags|
  {
    if tags != [] {
      SettleIdleStep(s, c, tags, q);
      SettleIdle(Give(s, c, tags[0], true), c, tags[1..], q);
    }
  }

  lemma {:induction false} GiveElsewhere(s: State, c: nat, tags: seq<nat>, q: nat, p: nat)
    requires Linked(s) && c < |s.conns| && Distinct(tags) && (forall t :: t in tags ==> t in s.conns[c].held)
    requires (forall t :: t in tags ==> s.conns[c].held[t].queue == q) && p < |s.queues| && p != q
    ensures GiveAll(s, c, tags).queues[p] == s.queues[p]
    decreases |tags|
  {
    if tags != [] { GiveElsewhere(Give(s, c, tags[0], true), c, tags[1..], q, p); }
  }

  /** What giving the tags back one after another puts at the head of their queue. */
  ghost function Back(held: map<nat, Held>, tags: seq<nat>): seq<Pending>
    requires forall t :: t in tags ==> t in held
  {
    if tags == [] then [] else Back(held, tags[1..]) + [Pending(held[tags[0]].message, true)]
  }

  lemma {:induction false} BackFrame(a: map<nat, Held>, b: map<nat, Held>, tags: seq<nat>)
    requires forall t :: t in tags ==> t in a && t in b && a[t] == b[t]
    ensures Back(a, tags) == Back(b, tags)
  {
    if tags != [] { BackFrame(a, b, tags[1..]); }
  }

  lemma {:induction false} GiveAllBack(s: State, c: nat, tags: seq<nat>, q: nat)
    requires Linked(s) && c < |s.conns| && Distinct(tags) && (forall t :: t in tags ==> t in s.conns[c].held)
    requires q < |s.queues| && (forall t :: t in tags ==> s.conns[c].held[t].queue == q)
    ensures GiveAll(s, c, tags).queues[q].ready == Back(s.conns[c].held, tags) + s.queues[q].ready
    decreases |tags|
  {
    if tags != [] {
      var h := s.conns[c].held[tags[0]];
      GiveBack(s, c, tags[0], q, h.message, h.channel);
      GiveAllBack(Give(s, c, tags[0], true), c, tags[1..], q);
      BackFrame(s.conns[c].held, Give(s, c, tags[0], true).conns[c].held, tags[1..]);
    }
  }

  lemma {:induction false} BackDown(held: map<nat, Held>, t: nat, k: nat, q: nat, channel: nat, ready: seq<Pending>)
    requires k <= |ready| && Batch(held, t, k, q, channel, ready)
    ensures Back(held, Down(t, k)) == Marked(ready[..k])
  {
    if k > 0 {
      assert Down(t, k)[0] == t + k && Down(t, k)[1..] == Down(t, k - 1);
      BackDown(held, t, k - 1, q, channel, ready);
      assert ready[..k][..k - 1] == ready[..k - 1];
    }
  }

  lemma SettleDown(s: State, c: nat, t: nat, k: nat, q: nat, channel: nat, ready: seq<Pending>)
    requires Linked(s) && c < |s.conns| && q < |s.queues| && s.queues[q].consumers == [] && k <= |ready|
    requires Batch(s.conns[c].held, t, k, q, channel, ready)
    ensures forall x :: x in Down(t, k) ==> x in s.conns[c].held
    ensures SettleAll(s, c, Down(t, k), true).queues[q].ready == Marked(ready[..k]) + s.queues[q].ready
    ensures forall p :: 0 <= p < |s.queues| && p != q ==> SettleAll(s, c, Down(t, k), true).queues[p] == s.queues[p]
  {
    GiveAllBack(s, c, Down(t, k), q);
    BackDown(s.conns[c].held, t, k, q, channel, ready);
    forall p | 0 <= p < |s.queues| && p != q ensures GiveAll(s, c, Down(t, k)).queues[p] == s.queues[p] {
      GiveElsewhere(s, c, Down(t, k), q, p);
    }
    SettleIdle(s, c, Down(t, k), q);
  }

  /** The batch is exactly what a refusal of everything on the channel names. */
  lemma BatchIsNamed(before: Connection, c: Connection, q: nat, channel: nat, ready: seq<Pending>, k: nat)
    requires k <= |ready| && HoldsBatch(before, c, q, channel, ready, k)
    requires forall t :: t in before.held ==> before.held[t].channel != channel
    ensures TagsNamed(c, 0, channel, true) == Some(Down(before.nextTag, k))
  {
    SelectedDown(c, before.nextTag, k, channel);
  }

  /**
   On a queue with no consumers, pulling k messages onto a channel that held
   nothing and refusing them all at once puts every one back where it was,
   marked as redelivered, and touches no other queue.
   */
  lemma RefusedBatchReturns(s: State, c: nat, name: string, channel: nat, k: nat)
    requires Linked(s) && c < |s.conns| && name in s.names
    requires s.queues[s.names[name]].consumers == [] && k <= |s.queues[s.names[name]].ready|
    requires forall t :: t in s.conns[c].held ==> s.conns[c].held[t].channel != channel
    ensures var q := s.names[name];
            var ready := s.queues[q].ready;
            var r := DoSettle(Pulled(s, c, name, channel, k), c, 0, channel, true, true).0;
            && |r.queues| == |s.queues|
            && r.queues[q].ready == Marked(ready[..k]) + ready[k..]
            && (forall p :: 0 <= p < |s.queues| && p != q ==> r.queues[p] == s.queues[p])
  {
    var q := s.names[name];
    var p := Pulled(s, c, name, channel, k);
    PulledHolds(s, c, name, channel, k);
    BatchIsNamed(s.conns[c], p.conns[c], q, channel, s.queues[q].ready, k);
    SettleDown(p, c, s.conns[c].nextTag, k, q, channel, s.queues[q].ready);
  }

  // ----- what the history records -----

  /** A publish gives each queue the exchange reaches one copy, and no other queue any. */
  lemma {:induction false} PublishToRecords(s: State, m: Message, reached: seq<nat>, q: nat)
    requires Linked(s) && (forall i :: 0 <= i < |reached| ==> reached[i] < |s.queues|) && Distinct(reached)
    requires q < |s.queues|
    ensures PublishTo(s, m, reached).ledgers[q].enqueued ==
            s.ledgers[q].enqueued + if q in reached then multiset{m} else multiset{}
    decreases |reached|
  {
    if reached != [] {
      assert reached == [reached[0]] + reached[1..];
      PublishToRecords(Dispatch(Enqueue(s, reached[0], m), reached[0]), m, reached[1..], q);
    }
  }

  /** How many of the tags are held copies of m from queue q. */
  ghost function Copies(held: map<nat, Held>, tags: seq<nat>, q: nat, m: Message): nat {
    if tags == [] then 0
    else Copies(held, tags[1..], q, m) +
         if tags[0] in held && held[tags[0]].queue == q && held[tags[0]].message == m then 1 else 0
  }

  lemma {:induction false} CopiesFrame(a: map<nat, Held>, b: map<nat, Held>, tags: seq<nat>, q: nat, m: Message)
    requires forall t :: t in tags ==> t in a && t in b && a[t] == b[t]
    ensures Copies(a, tags, q, m) == Copies(b, tags, q, m)
  {
    if tags != [] { CopiesFrame(a, b, tags[1..], q, m); }
  }

  lemma GiveRecords(s: State, c: nat, tag: nat, requeue: bool, q: nat, m: Message)
    requires Linked(s) && c < |s.conns| && tag in s.conns[c].held && q < |s.queues|
    ensures var h := s.conns[c].held[tag];
            Give(s, c, tag, requeue).ledgers[q].settled[m] ==
            s.ledgers[q].settled[m] + if !requeue && h.queue == q && h.message == m then 1 else 0
  {
  }

  /** An acknowledgement settles exactly the copies it names; a refusal that requeues settles none. */
  lemma {:induction false} SettleAllRecords(s: State, c: nat, tags: seq<nat>, requeue: bool, q: nat, m: Message)
    requires Linked(s) && c < |s.conns| && Distinct(tags) && (forall t :: t in tags ==> t in s.conns[c].held)
    requires q < |s.queues|
    ensures SettleAll(s, c, tags, requeue).ledgers[q].settled[m] ==
            s.ledgers[q].settled[m] + if requeue then 0 else Copies(s.conns[c].held, tags, q, m)
    decreases |tags|
  {
    if tags != [] {
      assert ConnLinked(s.conns[c], c, |s.queues|);
      var source := s.conns[c].held[tags[0]].queue;
      var given := Give(s, c, tags[0], requeue);
      GiveRecords(s, c, tags[0], requeue, q, m);
      var next := Dispatch(given, source);
      assert next.ledgers[q].settled == given.ledgers[q].settled;
      assert HeldKept(given.conns[c], next.conns[c]);
      assert forall t :: t in tags[1..] ==> t in next.conns[c].held && next.conns[c].held[t] == s.conns[c].held[t];
      SettleAllRecords(next, c, tags[1..], requeue, q, m);
      CopiesFrame(next.conns[c].held, s.conns[c].held, tags[1..], q, m);
    }
  }

  lemma {:induction false} GiveAllRecords(s: State, c: nat, tags: seq<nat>, q: nat)
    requires Linked(s) && c < |s.conns| && Distinct(tags) && (forall t :: t in tags ==> t in s.conns[c].held) && q < |s.queues|
    ensures GiveAll(s, c, tags).ledgers[q].settled == s.ledgers[q].settled
    decreases |tags|
  {
    if tags != [] {
      assert ConnLinked(s.conns[c], c, |s.queues|);
      GiveAllRecords(Give(s, c, tags[0], true), c, tags[1..], q);
    }
  }

  lemma {:induction false} DropAllRecords(s: State, c: nat, tags: seq<string>)
    requires Linked(s) && c < |s.conns| && forall t :: t in tags ==> t in s.conns[c].consumers
    ensures DropAll(s, c, tags).ledgers == s.ledgers && DropAll(s, c, tags).conns == s.conns
    decreases |tags|
  {
    if tags != [] {
      assert ConnLinked(s.conns[c], c, |s.queues|);
      DropAllRecords(DropConsumer(s, s.conns[c].consumers[tags[0]].queue, tags[0]), c, tags[1..]);
    }
  }

  /** A closing connection settles nothing: every delivery in its hands goes back to its queue. */
  lemma CloseSettlesNothing(s: State, c: nat, tags: seq<string>, held: seq<nat>, order: seq<nat>, q: nat)
    requires Linked(s) && Admissible(s, Close(c, tags, held, order)) && q < |s.queues|
    ensures DoClose(s, c, tags, held, order).0.ledgers[q].settled == s.ledgers[q].settled
  {
    var s1 := Deaf(DropAll(s, c, tags), c);
    DropAllRecords(s, c, tags);
    GiveAllRecords(s1, c, held, q);
  }
}
