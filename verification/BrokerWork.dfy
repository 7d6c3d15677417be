/**
 Work conservation over whole runs. A client is courteous when it never takes a
 tag another consumer of the queue has and keeps each channel to one queue.
 While every client is, no message waits while a consumer of its queue has
 room.
 */
module BrokerWork {
  import opened Routing
  import opened Broker
  import opened BrokerOps
  import opened BrokerFairness

  ghost predicate Listed(s: State, k: Consumer) {
    k.queue < |s.queues| && k in s.queues[k.queue].consumers
  }

  ghost predicate TagsDiffer(listed: seq<Consumer>) {
    forall i, j :: 0 <= i < j < |listed| ==> listed[i].tag != listed[j].tag
  }

  /** A listed consumer is the one its connection knows under its tag. */
  ghost predicate Known(s: State, k: Consumer) {
    k.owner < |s.conns| && k.tag in s.conns[k.owner].consumers && s.conns[k.owner].consumers[k.tag] == k
  }

  /** The queue of a listed consumer can still be named. */
  ghost predicate Reachable(s: State, k: Consumer)
    requires k.queue < |s.queues|
  {
    s.queues[k.queue].name in s.names && s.names[s.queues[k.queue].name] == k.queue
  }

  ghost predicate SameChannel(a: Consumer, b: Consumer) {
    a.owner == b.owner && a.channel == b.channel
  }

  /** Everything the consumer's channel holds came from the consumer's queue. */
  ghost predicate HoldsOwn(s: State, k: Consumer)
    requires k.owner < |s.conns|
  {
    forall t :: t in s.conns[k.owner].held && s.conns[k.owner].held[t].channel == k.channel
                ==> s.conns[k.owner].held[t].queue == k.queue
  }

  ghost predicate Tidy(s: State) {
    && Linked(s)
    && (forall q :: 0 <= q < |s.queues| ==> TagsDiffer(s.queues[q].consumers))
    && (forall k :: Listed(s, k) ==> Known(s, k) && Reachable(s, k) && HoldsOwn(s, k))
    && (forall k, j :: Listed(s, k) && Listed(s, j) && SameChannel(k, j) ==> k.queue == j.queue)
  }

  ghost predicate Good(s: State) {
    Tidy(s) && WorkConserving(s)
  }

  /** A state whose lists, registers and held deliveries only shrank stays tidy. */
  lemma TidyShrinks(s: State, r: State)
    requires Tidy(s) && Linked(r) && |r.queues| == |s.queues| && |r.conns| == |s.conns|
    requires forall q :: 0 <= q < |s.queues| ==> TagsDiffer(r.queues[q].consumers) && r.queues[q].name == s.queues[q].name
    requires forall k :: Listed(r, k) ==> Listed(s, k) && Known(r, k) && Reachable(r, k)
    requires forall c :: 0 <= c < |s.conns| ==> r.conns[c].held == s.conns[c].held
    ensures Tidy(r)
  {
    forall k | Listed(r, k) ensures HoldsOwn(r, k) {
      assert Listed(s, k) && Known(s, k) && HoldsOwn(s, k);
    }
  }

  // ----- handing out -----

  lemma HandNextTidy(s: State, q: nat)
    requires Tidy(s) && q < |s.queues| && s.queues[q].ready != [] && Taker(s, q).0.Some?
    ensures Tidy(HandNext(s, q))
  {
    var r := HandNext(s, q);
    var taking := Taker(s, q).0.value;
    assert Listed(s, taking);
    forall k | Listed(r, k) ensures Known(r, k) && Reachable(r, k) && HoldsOwn(r, k) {
      assert Listed(s, k);
      assert Known(s, k) && Reachable(s, k) && HoldsOwn(s, k);
      assert HeldKept(s.conns[k.owner], r.conns[k.owner]);
      HandNextHoldsOwn(s, q, k);
    }
    forall k, j | Listed(r, k) && Listed(r, j) && SameChannel(k, j) ensures k.queue == j.queue {
      assert Listed(s, k) && Listed(s, j);
    }
  }

  lemma HandNextHoldsOwn(s: State, q: nat, k: Consumer)
    requires Tidy(s) && q < |s.queues| && s.queues[q].ready != [] && Taker(s, q).0.Some?
    requires Listed(s, k) && k.owner < |s.conns|
    ensures HoldsOwn(HandNext(s, q), k)
  {
    var r := HandNext(s, q);
    var taking := Taker(s, q).0.value;
    assert Listed(s, taking) && HoldsOwn(s, k);
    forall t | t in r.conns[k.owner].held && r.conns[k.owner].held[t].channel == k.channel
      ensures r.conns[k.owner].held[t].queue == k.queue
    {
      if t !in s.conns[k.owner].held {
        assert SameChannel(k, taking);
      }
    }
  }

  lemma {:induction false} DispatchTidy(s: State, q: nat)
    requires Tidy(s) && q < |s.queues|
    ensures Tidy(Dispatch(s, q))
    decreases |s.queues[q].ready|
  {
    if s.queues[q].ready != [] {
      var (taking, turn) := Taker(s, q);
      if taking.Some? {
        HandNextTidy(s, q);
        DispatchTidy(HandNext(s, q), q);
      } else {
        var r := Turned(s, q, turn);
        forall k | Listed(r, k) ensures Listed(s, k) && Known(r, k) && Reachable(r, k) {
          assert Listed(s, k);
        }
        TidyShrinks(s, r);
      }
    }
  }

  lemma {:induction false} DispatchAllTidy(s: State, order: seq<nat>)
    requires Tidy(s) && forall i :: 0 <= i < |order| ==> order[i] < |s.queues|
    ensures Tidy(DispatchAll(s, order))
    decreases |order|
  {
    if order != [] {
      DispatchTidy(s, order[0]);
      DispatchAllTidy(Dispatch(s, order[0]), order[1..]);
    }
  }

  lemma DispatchGood(s: State, q: nat)
    requires Tidy(s) && q < |s.queues| && forall p :: 0 <= p < |s.queues| && p != q ==> Drained(s, p)
    ensures Good(Dispatch(s, q))
  {
    DispatchTidy(s, q);
    forall p | 0 <= p < |s.queues| ensures Drained(Dispatch(s, q), p) {
      DispatchKeepsDrained(s, q, p);
    }
  }

  // ----- settling -----

  lemma GiveTidy(s: State, c: nat, tag: nat, requeue: bool)
    requires Tidy(s) && c < |s.conns| && tag in s.conns[c].held
    ensures Tidy(Give(s, c, tag, requeue))
  {
    var r := Give(s, c, tag, requeue);
    forall k | Listed(r, k) ensures Known(r, k) && Reachable(r, k) && HoldsOwn(r, k) {
      assert Listed(s, k);
      assert Known(s, k) && Reachable(s, k) && HoldsOwn(s, k);
    }
    forall k, j | Listed(r, k) && Listed(r, j) && SameChannel(k, j) ensures k.queue == j.queue {
      assert Listed(s, k) && Listed(s, j);
    }
  }

  /** Settling makes room only where the channel consumes, which is the queue dispatched next. */
  lemma GiveKeepsOthersDrained(s: State, c: nat, tag: nat, requeue: bool, p: nat)
    requires Good(s) && c < |s.conns| && tag in s.conns[c].held
    requires p < |s.queues| && p != s.conns[c].held[tag].queue
    ensures Drained(Give(s, c, tag, requeue), p)
  {
    var r := Give(s, c, tag, requeue);
    var h := s.conns[c].held[tag];
    assert ConnLinked(s.conns[c], c, |s.queues|) && QueueLinked(s.queues[p], p, |s.conns|);
    assert Drained(s, p) && r.queues[p] == s.queues[p];
    forall k | k in r.queues[p].consumers && HasRoom(r.conns[k.owner], k.channel)
      ensures HasRoom(s.conns[k.owner], k.channel)
    {
      assert Listed(s, k) && HoldsOwn(s, k);
      assert !(k.owner == c && k.channel == h.channel);
    }
  }

  lemma {:induction false} SettleAllGood(s: State, c: nat, tags: seq<nat>, requeue: bool)
    requires Good(s) && c < |s.conns| && Distinct(tags)
    requires forall t :: t in tags ==> t in s.conns[c].held
    ensures Good(SettleAll(s, c, tags, requeue))
    decreases |tags|
  {
    if tags != [] {
      assert ConnLinked(s.conns[c], c, |s.queues|);
      var source := s.conns[c].held[tags[0]].queue;
      var given := Give(s, c, tags[0], requeue);
      GiveTidy(s, c, tags[0], requeue);
      forall p | 0 <= p < |s.queues| && p != source ensures Drained(given, p) {
        GiveKeepsOthersDrained(s, c, tags[0], requeue, p);
      }
      DispatchGood(given, source);
      var next := Dispatch(given, source);
      assert HeldKept(given.conns[c], next.conns[c]);
      SettleAllGood(next, c, tags[1..], requeue);
    }
  }

  // ----- publishing and taking -----

  /** Changing only what waits and what is counted leaves a state tidy. */
  lemma TidyReady(s: State, r: State)
    requires Tidy(s) && Linked(r) && r.names == s.names && r.conns == s.conns && |r.queues| == |s.queues|
    requires forall q :: 0 <= q < |s.queues| ==>
               r.queues[q].consumers == s.queues[q].consumers && r.queues[q].name == s.queues[q].name
    ensures Tidy(r)
  {
    forall k | Listed(r, k) ensures Listed(s, k) && Known(r, k) && Reachable(r, k) {
      assert Listed(s, k);
    }
    TidyShrinks(s, r);
  }

  lemma {:induction false} PublishToGood(s: State, m: Message, reached: seq<nat>)
    requires Good(s) && forall i :: 0 <= i < |reached| ==> reached[i] < |s.queues|
    ensures Good(PublishTo(s, m, reached))
    decreases |reached|
  {
    if reached != [] {
      var e := Enqueue(s, reached[0], m);
      TidyReady(s, e);
      forall p | 0 <= p < |s.queues| && p != reached[0] ensures Drained(e, p) {
        assert Drained(s, p);
      }
      DispatchGood(e, reached[0]);
      PublishToGood(Dispatch(e, reached[0]), m, reached[1..]);
    }
  }

  lemma PurgeGood(s: State, q: nat)
    requires Good(s) && q < |s.queues|
    ensures Good(Discard(s, q))
  {
    var r := Discard(s, q);
    TidyReady(s, r);
    forall p | 0 <= p < |r.queues| ensures Drained(r, p) {
      assert Drained(s, p);
    }
  }

  // ----- courtesy -----

  /** Every consumer on the channel is on queue q. */
  ghost predicate ChannelConsumes(s: State, c: nat, channel: nat, q: nat) {
    forall k :: Listed(s, k) && k.owner == c && k.channel == channel ==> k.queue == q
  }

  /** Everything held on the channel came from queue q. */
  ghost predicate ChannelHolds(s: State, c: nat, channel: nat, q: nat)
    requires c < |s.conns|
  {
    forall t :: t in s.conns[c].held && s.conns[c].held[t].channel == channel ==> s.conns[c].held[t].queue == q
  }

  /** What a client can check before it consumes or pulls. */
  ghost predicate Courteous(s: State, op: Op)
    requires Linked(s) && Admissible(s, op)
  {
    match op
    case Consume(c, name, tag, channel, _) =>
      name in s.names ==>
        var q := s.names[name];
        && (forall k :: k in s.queues[q].consumers ==> k.tag != ChosenTag(s, c, tag))
        && ChannelConsumes(s, c, channel, q)
        && ChannelHolds(s, c, channel, q)
    case Get(c, name, channel, noAck) =>
      name in s.names && !noAck ==> ChannelConsumes(s, c, channel, s.names[name])
    case _ => true
  }

  lemma GetGood(s: State, c: nat, name: string, channel: nat, noAck: bool)
    requires Good(s) && c < |s.conns| && Courteous(s, Get(c, name, channel, noAck))
    ensures Good(DoGet(s, c, name, channel, noAck).0)
  {
    if name in s.names && s.queues[s.names[name]].ready != [] {
      var q := s.names[name];
      var r := HandOut(s, q, c, channel, noAck);
      forall k | Listed(r, k) ensures Known(r, k) && Reachable(r, k) && HoldsOwn(r, k) {
        assert Listed(s, k);
        assert Known(s, k) && Reachable(s, k) && HoldsOwn(s, k);
        assert HeldKept(s.conns[k.owner], r.conns[k.owner]);
      }
      forall k, j | Listed(r, k) && Listed(r, j) && SameChannel(k, j) ensures k.queue == j.queue {
        assert Listed(s, k) && Listed(s, j);
      }
      forall p | 0 <= p < |r.queues| ensures Drained(r, p) {
        GetDrained(s, q, c, channel, noAck, p);
      }
    }
  }

  lemma GetDrained(s: State, q: nat, c: nat, channel: nat, noAck: bool, p: nat)
    requires Good(s) && q < |s.queues| && c < |s.conns| && s.queues[q].ready != [] && p < |s.queues|
    ensures Drained(HandOut(s, q, c, channel, noAck), p)
  {
    var r := HandOut(s, q, c, channel, noAck);
    assert Drained(s, p) && QueueLinked(s.queues[p], p, |s.conns|);
    forall k | k in r.queues[p].consumers && HasRoom(r.conns[k.owner], k.channel)
      ensures HasRoom(s.conns[k.owner], k.channel)
    {
      assert HeldKept(s.conns[k.owner], r.conns[k.owner]);
      assert At(s.conns[k.owner].outstanding, k.channel) <= At(r.conns[k.owner].outstanding, k.channel);
    }
  }

  lemma SubscribedTidy(s: State, k: Consumer)
    requires Tidy(s) && k.queue < |s.queues| && k.owner < |s.conns|
    requires k.tag !in s.conns[k.owner].consumers && Reachable(s, k)
    requires forall j :: j in s.queues[k.queue].consumers ==> j.tag != k.tag
    requires ChannelConsumes(s, k.owner, k.channel, k.queue) && ChannelHolds(s, k.owner, k.channel, k.queue)
    ensures Tidy(Subscribed(s, k))
  {
    var r := Subscribed(s, k);
    forall j | Listed(r, j) ensures (j == k || Listed(s, j)) && Known(r, j) && Reachable(r, j) && HoldsOwn(r, j) {
      if j != k {
        assert Listed(s, j);
        assert Known(s, j) && Reachable(s, j) && HoldsOwn(s, j);
      }
    }
    forall i, j | Listed(r, i) && Listed(r, j) && SameChannel(i, j) ensures i.queue == j.queue {
      assert (i == k || Listed(s, i)) && (j == k || Listed(s, j));
    }
    forall q | 0 <= q < |r.queues| ensures TagsDiffer(r.queues[q].consumers) {
      assert TagsDiffer(s.queues[q].consumers);
    }
  }

  lemma ConsumeGood(s: State, c: nat, name: string, tag: string, channel: nat, noAck: bool)
    requires Good(s) && c < |s.conns| && Courteous(s, Consume(c, name, tag, channel, noAck))
    ensures Good(DoConsume(s, c, name, tag, channel, noAck).0)
  {
    if name in s.names {
      var s1 := WithCounter(s, c, tag);
      var chosen := ChosenTag(s, c, tag);
      WithCounterGood(s, c, tag);
      if chosen !in s1.conns[c].consumers {
        var q := s.names[name];
        var k := Consumer(chosen, q, c, channel, noAck);
        assert ChannelConsumes(s1, c, channel, q) by {
          forall j | Listed(s1, j) && j.owner == c && j.channel == channel ensures j.queue == q {
            assert Listed(s, j);
          }
        }
        SubscribedTidy(s1, k);
        var s2 := Subscribed(s1, k);
        forall p | 0 <= p < |s2.queues| && p != q ensures Drained(s2, p) {
          assert Drained(s1, p) && QueueLinked(s1.queues[p], p, |s1.conns|);
        }
        DispatchGood(s2, q);
      }
    }
  }

  lemma WithCounterGood(s: State, c: nat, tag: string)
    requires Good(s) && c < |s.conns|
    ensures Good(WithCounter(s, c, tag))
  {
    var r := WithCounter(s, c, tag);
    forall k | Listed(r, k) ensures Listed(s, k) && Known(r, k) && Reachable(r, k) {
      assert Listed(s, k);
    }
    TidyShrinks(s, r);
    forall p | 0 <= p < |r.queues| ensures Drained(r, p) {
      assert Drained(s, p) && QueueLinked(s.queues[p], p, |s.conns|);
    }
  }

  // ----- dropping consumers -----

  lemma {:induction false} DroppedMembers(listed: seq<Consumer>, tag: string, k: Consumer)
    requires TagsDiffer(listed)
    ensures k in Dropped(listed, tag) <==> k in listed && k.tag != tag
  {
    if listed != [] {
      var rest := listed[1..];
      assert listed == [listed[0]] + rest;
      assert TagsDiffer(rest);
      DroppedMembers(rest, tag, k);
      if listed[0].tag == tag && k in rest {
        var i :| 0 <= i < |rest| && rest[i] == k;
        assert listed[i + 1].tag != tag;
      }
    }
  }

  lemma {:induction false} DroppedDiffer(listed: seq<Consumer>, tag: string)
    requires TagsDiffer(listed)
    ensures TagsDiffer(Dropped(listed, tag))
  {
    if listed != [] {
      var rest := listed[1..];
      assert TagsDiffer(rest);
      if listed[0].tag != tag {
        DroppedDiffer(rest, tag);
        var kept := Dropped(rest, tag);
        assert Dropped(listed, tag) == [listed[0]] + kept;
        forall j | 0 <= j < |kept| ensures kept[j].tag != listed[0].tag {
          assert kept[j] in rest;
          var i :| 0 <= i < |rest| && rest[i] == kept[j];
          assert listed[i + 1].tag != listed[0].tag;
        }
      }
    }
  }

  lemma DroppedTags(listed: seq<Consumer>, tag: string)
    requires TagsDiffer(listed)
    ensures TagsDiffer(Dropped(listed, tag))
    ensures forall k :: k in Dropped(listed, tag) <==> k in listed && k.tag != tag
  {
    DroppedDiffer(listed, tag);
    forall k: Consumer ensures k in Dropped(listed, tag) <==> k in listed && k.tag != tag {
      DroppedMembers(listed, tag, k);
    }
  }

  lemma DropConsumerLists(s: State, q: nat, tag: string)
    requires Linked(s) && q < |s.queues| && TagsDiffer(s.queues[q].consumers)
    ensures var r := DropConsumer(s, q, tag);
            && TagsDiffer(r.queues[q].consumers)
            && (forall k :: k in r.queues[q].consumers <==> k in s.queues[q].consumers && k.tag != tag)
            && (forall p :: 0 <= p < |s.queues| && p != q ==> r.queues[p] == s.queues[p])
            && r.queues[q].ready == s.queues[q].ready && r.queues[q].name == s.queues[q].name
  {
    DroppedTags(s.queues[q].consumers, tag);
  }

  lemma CancelTidy(s: State, c: nat, tag: string)
    requires Tidy(s) && c < |s.conns| && tag in s.conns[c].consumers && s.conns[c].consumers[tag].queue < |s.queues|
    ensures var q := s.conns[c].consumers[tag].queue;
            var r := DropConsumer(Forgotten(s, c, tag), q, tag);
            && Tidy(r)
            && forall p :: 0 <= p < |s.queues| ==>
                 r.queues[p].ready == s.queues[p].ready && forall k :: k in r.queues[p].consumers ==> k in s.queues[p].consumers
  {
    var q := s.conns[c].consumers[tag].queue;
    var f := Forgotten(s, c, tag);
    var r := DropConsumer(f, q, tag);
    DropConsumerLists(f, q, tag);
    forall k | Listed(r, k) ensures Listed(s, k) && Known(r, k) && Reachable(r, k) {
      assert Listed(s, k);
      assert Known(s, k) && Reachable(s, k);
    }
    TidyShrinks(s, r);
  }

  lemma CancelGood(s: State, c: nat, tag: string)
    requires Good(s) && c < |s.conns|
    ensures Good(DoCancel(s, c, tag).0)
  {
    if tag in s.conns[c].consumers {
      assert ConnLinked(s.conns[c], c, |s.queues|);
      CancelTidy(s, c, tag);
      var r := DoCancel(s, c, tag).0;
      forall p | 0 <= p < |r.queues| ensures Drained(r, p) {
        assert Drained(s, p) && QueueLinked(s.queues[p], p, |s.conns|);
      }
    }
  }

  /** Dropping the registered consumers of c takes every one of them off every list. */
  lemma {:induction false} DropAllLists(s: State, c: nat, tags: seq<string>)
    requires Linked(s) && c < |s.conns| && (forall t :: t in tags ==> t in s.conns[c].consumers)
    requires forall q :: 0 <= q < |s.queues| ==> TagsDiffer(s.queues[q].consumers)
    ensures var r := DropAll(s, c, tags);
            && (forall q :: 0 <= q < |s.queues| ==> TagsDiffer(r.queues[q].consumers) && r.queues[q].name == s.queues[q].name)
            && (forall k :: Listed(r, k) ==> Listed(s, k) && !(Known(s, k) && k.owner == c && k.tag in tags))
    decreases |tags|
  {
    if tags != [] {
      assert ConnLinked(s.conns[c], c, |s.queues|);
      var q := s.conns[c].consumers[tags[0]].queue;
      var s1 := DropConsumer(s, q, tags[0]);
      DropConsumerLists(s, q, tags[0]);
      DropAllLists(s1, c, tags[1..]);
      var r := DropAll(s, c, tags);
      forall k | Listed(r, k) ensures Listed(s, k) && !(Known(s, k) && k.owner == c && k.tag in tags) {
        assert Listed(s1, k) && Listed(s, k);
      }
    }
  }

  lemma {:induction false} GiveAllTidy(s: State, c: nat, tags: seq<nat>)
    requires Tidy(s) && c < |s.conns| && Distinct(tags)
    requires forall t :: t in tags ==> t in s.conns[c].held
    ensures Tidy(GiveAll(s, c, tags))
    decreases |tags|
  {
    if tags != [] {
      GiveTidy(s, c, tags[0], true);
      GiveAllTidy(Give(s, c, tags[0], true), c, tags[1..]);
    }
  }

  lemma CloseTidy(s: State, c: nat, tags: seq<string>)
    requires Tidy(s) && c < |s.conns| && IsOrder(tags, s.conns[c].consumers.Keys)
    ensures Tidy(Deaf(DropAll(s, c, tags), c))
  {
    DropAllLists(s, c, tags);
    var d := DropAll(s, c, tags);
    var r := Deaf(d, c);
    forall k | Listed(r, k) ensures Listed(s, k) && Known(r, k) && Reachable(r, k) {
      assert Listed(d, k) && Listed(s, k);
      assert Known(s, k) && Reachable(s, k);
      assert k.owner != c;
    }
    TidyShrinks(s, r);
  }

  /** Dispatching every queue that can be named leaves no work undone in a tidy state. */
  lemma DispatchNamedGood(s: State, order: seq<nat>)
    requires Tidy(s) && IsOrder(order, s.names.Values)
    requires forall i :: 0 <= i < |order| ==> order[i] < |s.queues|
    ensures Good(DispatchAll(s, order))
  {
    DispatchAllTidy(s, order);
    forall p | 0 <= p < |s.queues| ensures Drained(DispatchAll(s, order), p) {
      if s.queues[p].consumers != [] {
        var k := s.queues[p].consumers[0];
        assert QueueLinked(s.queues[p], p, |s.conns|) && k in s.queues[p].consumers;
        assert Listed(s, k) && Reachable(s, k);
        assert p in s.names.Values;
      }
      DispatchAllDrains(s, order, p);
    }
  }

  lemma CloseGood(s: State, c: nat, tags: seq<string>, held: seq<nat>, order: seq<nat>)
    requires Good(s) && Admissible(s, Close(c, tags, held, order))
    ensures Good(DoClose(s, c, tags, held, order).0)
  {
    CloseTidy(s, c, tags);
    var s1 := Deaf(DropAll(s, c, tags), c);
    var s2 := GiveAll(s1, c, held);
    GiveAllTidy(s1, c, held);
    forall i | 0 <= i < |order| ensures order[i] < |s2.queues| {
      assert order[i] in s.names.Values;
    }
    DispatchNamedGood(s2, order);
  }

  lemma QosGood(s: State, c: nat, channel: nat, prefetch: int, tags: seq<string>)
    requires Good(s) && Admissible(s, Qos(c, channel, prefetch, tags))
    requires forall i :: 0 <= i < |tags| ==> tags[i] in s.conns[c].consumers
    ensures Good(DoQos(s, c, channel, prefetch, tags).0)
  {
    var s1 := Limited(s, c, channel, prefetch);
    forall k | Listed(s1, k) ensures Listed(s, k) && Known(s1, k) && Reachable(s1, k) {
      assert Listed(s, k);
    }
    TidyShrinks(s, s1);
    var order := QueuesOf(s1, c, tags);
    DispatchAllTidy(s1, order);
    forall p | 0 <= p < |s1.queues| ensures Drained(DispatchAll(s1, order), p) {
      if p !in order {
        QosElsewhere(s, c, channel, prefetch, tags, p);
      }
      DispatchAllDrains(s1, order, p);
    }
  }

  /** A queue with a consumer of c on it is among those a new limit dispatches. */
  lemma QosDispatches(s: State, c: nat, tags: seq<string>, k: Consumer)
    requires Tidy(s) && c < |s.conns| && IsOrder(tags, s.conns[c].consumers.Keys)
    requires forall i :: 0 <= i < |tags| ==> tags[i] in s.conns[c].consumers
    requires Listed(s, k) && k.owner == c
    ensures k.queue in QueuesOf(s, c, tags)
  {
    assert Known(s, k) && k.tag in tags;
    var i :| 0 <= i < |tags| && tags[i] == k.tag;
    assert QueuesOf(s, c, tags)[i] == k.queue;
  }

  lemma QosElsewhere(s: State, c: nat, channel: nat, prefetch: int, tags: seq<string>, p: nat)
    requires Good(s) && Admissible(s, Qos(c, channel, prefetch, tags)) && p < |s.queues|
    requires forall i :: 0 <= i < |tags| ==> tags[i] in s.conns[c].consumers
    requires p !in QueuesOf(Limited(s, c, channel, prefetch), c, tags)
    ensures Drained(Limited(s, c, channel, prefetch), p)
  {
    var s1 := Limited(s, c, channel, prefetch);
    assert QueuesOf(s1, c, tags) == QueuesOf(s, c, tags);
    assert Drained(s, p) && QueueLinked(s.queues[p], p, |s.conns|);
    forall k | k in s1.queues[p].consumers ensures s1.conns[k.owner] == s.conns[k.owner] {
      assert Listed(s, k);
      if k.owner == c {
        QosDispatches(s, c, tags, k);
      }
    }
  }

  lemma {:induction false} ForgetAllKeeps(s: State, listed: seq<Consumer>, c: nat, tag: string)
    requires Linked(s) && (forall i :: 0 <= i < |listed| ==> listed[i].owner < |s.conns|)
    requires c < |s.conns| && tag in s.conns[c].consumers
    requires forall k :: k in listed ==> !(k.owner == c && k.tag == tag)
    ensures var r := ForgetAll(s, listed); tag in r.conns[c].consumers && r.conns[c].consumers[tag] == s.conns[c].consumers[tag]
    decreases |listed|
  {
    if listed != [] {
      assert listed[0] in listed;
      ForgetAllKeeps(Forgotten(s, listed[0].owner, listed[0].tag), listed[1..], c, tag);
    }
  }

  lemma {:induction false} ForgetAllFrame(s: State, listed: seq<Consumer>, c: nat)
    requires Linked(s) && (forall i :: 0 <= i < |listed| ==> listed[i].owner < |s.conns|) && c < |s.conns|
    ensures var r := ForgetAll(s, listed).conns[c]; r == s.conns[c].(consumers := r.consumers)
    decreases |listed|
  {
    if listed != [] {
      ForgetAllFrame(Forgotten(s, listed[0].owner, listed[0].tag), listed[1..], c);
    }
  }

  lemma RemovedKeeps(s: State, q: nat, k: Consumer)
    requires Tidy(s) && q < |s.queues| && Listed(Removed(s, q), k)
    requires s.queues[q].name in s.names && s.names[s.queues[q].name] == q
    ensures Listed(s, k) && Known(Removed(s, q), k) && Reachable(Removed(s, q), k)
  {
    var listed := s.queues[q].consumers;
    assert k.queue != q && Listed(s, k);
    assert Known(s, k) && Reachable(s, k) && QueueLinked(s.queues[q], q, |s.conns|);
    assert forall i :: 0 <= i < |listed| ==> listed[i] in listed;
    forall j | j in listed ensures !(j.owner == k.owner && j.tag == k.tag) {
      assert Listed(s, j) && Known(s, j);
    }
    ForgetAllKeeps(Unnamed(s, q), listed, k.owner, k.tag);
  }

  lemma DeleteGood(s: State, name: string)
    requires Good(s)
    ensures Good(DoDelete(s, name).0)
  {
    if name in s.names {
      var q := s.names[name];
      var r := Removed(s, q);
      forall k | Listed(r, k) ensures Listed(s, k) && Known(r, k) && Reachable(r, k) {
        RemovedKeeps(s, q, k);
      }
      var listed := s.queues[q].consumers;
      assert QueueLinked(s.queues[q], q, |s.conns|);
      assert forall i :: 0 <= i < |listed| ==> listed[i] in listed;
      forall c | 0 <= c < |s.conns| ensures r.conns[c] == s.conns[c].(consumers := r.conns[c].consumers) {
        ForgetAllFrame(Unnamed(s, q), listed, c);
      }
      TidyShrinks(s, r);
      forall p | 0 <= p < |r.queues| ensures Drained(r, p) {
        assert Drained(s, p) && QueueLinked(s.queues[p], p, |s.conns|);
      }
    }
  }

  // ----- topology -----

  lemma OpenGood(s: State)
    requires Good(s)
    ensures Good(DoOpen(s).0)
  {
    OpenLinked(s);
    var r := DoOpen(s).0;
    forall k | Listed(r, k) ensures Known(r, k) && Reachable(r, k) && HoldsOwn(r, k) {
      assert Listed(s, k);
      assert Known(s, k) && Reachable(s, k) && HoldsOwn(s, k);
    }
    forall k, j | Listed(r, k) && Listed(r, j) && SameChannel(k, j) ensures k.queue == j.queue {
      assert Listed(s, k) && Listed(s, j);
    }
    forall p | 0 <= p < |r.queues| ensures Drained(r, p) {
      assert Drained(s, p) && QueueLinked(s.queues[p], p, |s.conns|);
    }
  }

  lemma DeclareQueueGood(s: State, name: string, passive: bool)
    requires Good(s)
    ensures Good(DoDeclareQueue(s, name, passive).0)
  {
    DeclareQueueLinked(s, name, passive);
    var r := DoDeclareQueue(s, name, passive).0;
    assert s.queues <= r.queues && r.conns == s.conns;
    assert forall p :: |s.queues| <= p < |r.queues| ==> r.queues[p].consumers == [] && r.queues[p].ready == [];
    forall k | Listed(r, k) ensures Known(r, k) && Reachable(r, k) && HoldsOwn(r, k) && Listed(s, k) {
      assert Listed(s, k);
      assert Known(s, k) && Reachable(s, k) && HoldsOwn(s, k);
    }
    forall p | 0 <= p < |r.queues| ensures Drained(r, p) && TagsDiffer(r.queues[p].consumers) {
      if p < |s.queues| {
        assert Drained(s, p) && TagsDiffer(s.queues[p].consumers);
      }
    }
  }

  lemma TopologyGood(s: State, op: Op)
    requires Good(s) && (op.DeclareExchange? || op.Bind?)
    ensures Good(Step(s, op).0)
  {
    StepLinked(s, op);
    var r := Step(s, op).0;
    assert r.queues == s.queues && r.conns == s.conns && r.names == s.names;
    TidyReady(s, r);
    forall p | 0 <= p < |r.queues| ensures Drained(r, p) {
      assert Drained(s, p);
    }
  }

  lemma SettleGood(s: State, c: nat, tag: nat, channel: nat, multiple: bool, requeue: bool)
    requires Good(s) && c < |s.conns|
    ensures Good(DoSettle(s, c, tag, channel, multiple, requeue).0)
  {
    NamedAreHeld(s.conns[c], tag, channel, multiple);
    var tags := TagsNamed(s.conns[c], tag, channel, multiple);
    if tags.Some? {
      SettleAllGood(s, c, tags.value, requeue);
    }
  }

  // ----- runs -----

  lemma StepGood(s: State, op: Op)
    requires Good(s) && Admissible(s, op) && Courteous(s, op)
    ensures Good(Step(s, op).0)
  {
    match op
    case Open => OpenGood(s);
    case DeclareExchange(_, _, _) => TopologyGood(s, op);
    case DeclareQueue(name, passive) => DeclareQueueGood(s, name, passive);
    case Bind(_, _, _) => TopologyGood(s, op);
    case Publish(m) => PublishToGood(s, m, Destinations(s, m.exchange, m.routingKey));
    case Get(c, name, channel, noAck) => GetGood(s, c, name, channel, noAck);
    case Consume(c, name, tag, channel, noAck) => ConsumeGood(s, c, name, tag, channel, noAck);
    case Cancel(c, tag) => CancelGood(s, c, tag);
    case Qos(c, channel, prefetch, tags) =>
      assert forall i :: 0 <= i < |tags| ==> tags[i] in tags;
      QosGood(s, c, channel, prefetch, tags);
    case Settle(c, tag, channel, multiple, requeue) => SettleGood(s, c, tag, channel, multiple, requeue);
    case Purge(name) => if name in s.names { PurgeGood(s, s.names[name]); }
    case Delete(name) => DeleteGood(s, name);
    case Close(c, tags, held, order) => CloseGood(s, c, tags, held, order);
  }

  /** Every operation of the run was courteous when it was sent. */
  ghost predicate CourteousRun(s: State, ops: seq<Op>)
    requires Linked(s) && Runs(s, ops)
    decreases |ops|
  {
    ops == [] || (Courteous(s, ops[0]) && (StepLinked(s, ops[0]); CourteousRun(Step(s, ops[0]).0, ops[1..])))
  }

  lemma {:induction false} RunGood(s: State, ops: seq<Op>)
    requires Good(s) && Runs(s, ops) && CourteousRun(s, ops)
    ensures Good(Run(s, ops))
    decreases |ops|
  {
    if ops != [] {
      StepGood(s, ops[0]);
      RunGood(Step(s, ops[0]).0, ops[1..]);
    }
  }

  /** After any courteous run no queue has both a waiting message and a consumer with room. */
  lemma WorkConservation(ops: seq<Op>, q: nat, k: Consumer)
    requires Runs(INIT, ops) && CourteousRun(INIT, ops)
    requires q < |Run(INIT, ops).queues| && k in Run(INIT, ops).queues[q].consumers
    ensures k.owner < |Run(INIT, ops).conns|
    ensures Run(INIT, ops).queues[q].ready == [] || !HasRoom(Run(INIT, ops).conns[k.owner], k.channel)
  {
    RunGood(INIT, ops);
    var s := Run(INIT, ops);
    assert Drained(s, q) && QueueLinked(s.queues[q], q, |s.conns|);
  }
}
