/**
 What each operation leaves and answers, said on the fields a client can see: the
 queue's messages and what was written out of it, the deliveries in hand, the
 lists of consumers and the reply.
 */
module BrokerMeaning {
  import opened Common
  import opened Routing
  import opened Broker
  import opened BrokerOps
  import opened BrokerOrder

  // ----- messages flow through a queue in order -----

  /** What the deliveries took from a queue. */
  function SentFrom(sink: seq<Delivery>, q: nat): seq<Pending> {
    if sink == [] then [] else (if sink[0].queue == q then [sink[0].pending] else []) + SentFrom(sink[1..], q)
  }

  lemma {:induction false} SentJoin(a: seq<Delivery>, b: seq<Delivery>, q: nat)
    ensures SentFrom(a + b, q) == SentFrom(a, q) + SentFrom(b, q)
    decreases |a|
  {
    if a == [] {
      assert a + b == b;
    } else {
      var head := if a[0].queue == q then [a[0].pending] else [];
      assert (a + b)[0] == a[0] && (a + b)[1..] == a[1..] + b;
      SentJoin(a[1..], b, q);
      SentCons(a + b, a[1..] + b, q);
      SentCons(a, a[1..], q);
      Regroup(head, SentFrom(a[1..], q), SentFrom(b, q));
    }
  }

  lemma SentCons(sink: seq<Delivery>, rest: seq<Delivery>, q: nat)
    requires sink != [] && sink[1..] == rest
    ensures SentFrom(sink, q) == (if sink[0].queue == q then [sink[0].pending] else []) + SentFrom(rest, q)
  {
  }

  lemma Regroup(a: seq<Pending>, b: seq<Pending>, c: seq<Pending>)
    ensures a + (b + c) == a + b + c
  {
  }

  /** What was written out of the queue, followed by what waits now, is what waited before followed by what came. */
  ghost predicate Flows(s: State, r: State, q: nat, came: seq<Pending>) {
    && q < |s.queues| && q < |r.queues| && |s.sink| <= |r.sink| && r.sink[..|s.sink|] == s.sink
    && SentFrom(r.sink[|s.sink|..], q) + r.queues[q].ready == s.queues[q].ready + came
  }

  lemma FlowsOn(s: State, m: State, r: State, q: nat, a: seq<Pending>, b: seq<Pending>)
    requires Flows(s, m, q, a) && Flows(m, r, q, b)
    ensures Flows(s, r, q, a + b)
  {
    var x, y := m.sink[|s.sink|..], r.sink[|m.sink|..];
    assert r.sink[..|s.sink|] == r.sink[..|m.sink|][..|s.sink|];
    assert r.sink[|s.sink|..] == x + y by {
      assert r.sink == r.sink[..|m.sink|] + y;
    }
    SentJoin(x, y, q);
    FlowSum(SentFrom(x, q), SentFrom(y, q), s.queues[q].ready, m.queues[q].ready, r.queues[q].ready, a, b);
  }

  lemma FlowSum(x: seq<Pending>, y: seq<Pending>, s: seq<Pending>, m: seq<Pending>, r: seq<Pending>, a: seq<Pending>, b: seq<Pending>)
    requires x + m == s + a && y + r == m + b
    ensures x + y + r == s + (a + b)
  {
    assert x + y + r == x + (y + r);
    assert x + (m + b) == (x + m) + b;
    assert s + a + b == s + (a + b);
  }

  lemma {:induction false} SentInOrder(sink: seq<Delivery>, q: nat, p: nat, ready: seq<Pending>)
    requires |sink| <= |ready| && forall i :: 0 <= i < |sink| ==> sink[i].queue == q && sink[i].pending == ready[i]
    ensures SentFrom(sink, p) == if p == q then ready[..|sink|] else []
    decreases |sink|
  {
    if sink != [] {
      SentInOrder(sink[1..], q, p, ready[1..]);
      assert ready[..|sink|] == [ready[0]] + ready[1..][..|sink| - 1];
    }
  }

  lemma InOrderFlows(s: State, r: State, q: nat, p: nat, n: nat)
    requires q < |s.queues| && p < |s.queues| && |r.queues| == |s.queues| && InOrder(s, r, q, n)
    requires p != q ==> r.queues[p].ready == s.queues[p].ready
    ensures Flows(s, r, p, [])
  {
    var sent, ready := r.sink[|s.sink|..], s.queues[q].ready;
    forall i | 0 <= i < n ensures sent[i].queue == q && sent[i].pending == ready[i] {
      assert Carries(r.sink[|s.sink| + i], q, ready[i], |ready| - i - 1);
    }
    SentInOrder(sent, q, p, ready);
    assert ready[..n] + ready[n..] == ready;
    assert s.queues[p].ready + [] == s.queues[p].ready;
  }

  lemma DispatchFlows(s: State, q: nat, p: nat)
    requires Linked(s) && q < |s.queues| && p < |s.queues|
    ensures Flows(s, Dispatch(s, q), p, [])
  {
    var n := DispatchInOrder(s, q);
    InOrderFlows(s, Dispatch(s, q), q, p, n);
  }

  lemma EnqueueFlows(s: State, q: nat, m: Message, p: nat)
    requires Linked(s) && q < |s.queues| && p < |s.queues|
    ensures Flows(s, Enqueue(s, q, m), p, if p == q then [Pending(m, false)] else [])
  {
    var r := Enqueue(s, q, m);
    assert r.sink == s.sink && r.sink[|s.sink|..] == [];
    assert s.queues[p].ready + [] == s.queues[p].ready;
  }

  lemma FlowsNothing(s: State, p: nat)
    requires p < |s.queues|
    ensures Flows(s, s, p, [])
  {
    assert s.sink[|s.sink|..] == [] && s.queues[p].ready + [] == s.queues[p].ready;
  }

  /** A publish puts its message behind all that waited, once into each queue reached, and no other. */
  lemma {:induction false} PublishFlows(s: State, m: Message, reached: seq<nat>, p: nat)
    requires Linked(s) && Distinct(reached) && p < |s.queues| && forall i :: 0 <= i < |reached| ==> reached[i] < |s.queues|
    ensures Flows(s, PublishTo(s, m, reached), p, if p in reached then [Pending(m, false)] else [])
    decreases |reached|
  {
    if reached == [] {
      FlowsNothing(s, p);
    } else {
      var next := Dispatch(Enqueue(s, reached[0], m), reached[0]);
      FirstFlows(s, reached[0], m, p);
      PublishFlows(next, m, reached[1..], p);
      FlowsOn(s, next, PublishTo(next, m, reached[1..]), p, Copy(m, p == reached[0]), Copy(m, p in reached[1..]));
      CopiesJoin(m, reached, p);
    }
  }

  /** The copy a queue gets, if it gets one. */
  function Copy(m: Message, gets: bool): seq<Pending> {
    if gets then [Pending(m, false)] else []
  }

  lemma CopiesJoin(m: Message, reached: seq<nat>, p: nat)
    requires reached != [] && Distinct(reached)
    ensures Copy(m, p == reached[0]) + Copy(m, p in reached[1..]) == Copy(m, p in reached)
  {
    assert reached == [reached[0]] + reached[1..];
  }

  lemma FirstFlows(s: State, q: nat, m: Message, p: nat)
    requires Linked(s) && q < |s.queues| && p < |s.queues|
    ensures Flows(s, Dispatch(Enqueue(s, q, m), q), p, Copy(m, p == q))
  {
    var waiting := Enqueue(s, q, m);
    EnqueueFlows(s, q, m, p);
    DispatchFlows(waiting, q, p);
    FlowsOn(s, waiting, Dispatch(waiting, q), p, Copy(m, p == q), []);
    assert Copy(m, p == q) + [] == Copy(m, p == q);
  }

  /** The whole publish: refused only for an exchange that is not there, and otherwise answered with how many queues it reached. */
  lemma PublishMeans(s: State, m: Message, p: nat)
    requires Linked(s) && p < |s.queues|
    ensures var (r, reply) := DoPublish(s, m);
            if m.exchange != "" && m.exchange !in s.exchanges then r == s && reply == Refused(404)
            else
              var reached := Destinations(s, m.exchange, m.routingKey);
              && Flows(s, r, p, if p in reached then [Pending(m, false)] else [])
              && reply.Routed? && reply.routed == |reached|
              && (reached == [] ==> reply.gauges == Gauges(0, 0, 0))
              && (reached != [] ==> exists i: nat :: ShowsFullest(r, reached, i, reply.gauges))
  {
    if m.exchange == "" || m.exchange in s.exchanges {
      var reached := Destinations(s, m.exchange, m.routingKey);
      PublishFlows(s, m, reached, p);
      var r := PublishTo(s, m, reached);
      if reached != [] {
        var i := FullestIsFirst(r.queues, reached);
        assert ShowsFullest(r, reached, i, GaugesFor(r.queues, reached));
      }
    }
  }

  /** The gauges are those of the first queue reached that has no fewer messages waiting than any other. */
  predicate ShowsFullest(r: State, reached: seq<nat>, i: nat, g: Gauges) {
    && (forall j :: 0 <= j < |reached| ==> reached[j] < |r.queues|)
    && i < |reached| && ShowsGauges(r, reached[i], g) && FirstFullest(r.queues, reached, i)
  }

  predicate FirstFullest(queues: seq<Queue>, reached: seq<nat>, i: nat)
    requires i < |reached| && forall j :: 0 <= j < |reached| ==> reached[j] < |queues|
  {
    && (forall j :: 0 <= j < i ==> |queues[reached[j]].ready| < |queues[reached[i]].ready|)
    && (forall j :: i < j < |reached| ==> |queues[reached[j]].ready| <= |queues[reached[i]].ready|)
  }

  lemma {:induction false} FullestIsFirst(queues: seq<Queue>, reached: seq<nat>) returns (i: nat)
    requires reached != [] && forall j :: 0 <= j < |reached| ==> reached[j] < |queues|
    ensures i < |reached| && Fullest(queues, reached) == Some(reached[i]) && FirstFullest(queues, reached, i)
  {
    var n := |reached| - 1;
    i := 0;
    if n > 0 {
      var front := reached[..n];
      i := FullestIsFirst(queues, front);
      i := FirstOfMore(queues, front, reached[n], i);
      assert reached == front + [reached[n]];
    } else {
      assert Fullest(queues, reached[..0]) == None;
    }
  }

  /** One more queue is the fullest if it has more waiting than the one that was, and changes nothing if it has no more. */
  lemma FirstOfMore(queues: seq<Queue>, front: seq<nat>, last: nat, k: nat) returns (i: nat)
    requires k < |front| && last < |queues| && forall j :: 0 <= j < |front| ==> front[j] < |queues|
    requires FirstFullest(queues, front, k)
    ensures i == if |queues[last].ready| > |queues[front[k]].ready| then |front| else k
    ensures FirstFullest(queues, front + [last], i)
  {
    i := if |queues[last].ready| > |queues[front[k]].ready| then |front| else k;
  }

  /** The gauges are the queue's waiting messages, its deliveries in hand and its consumers. */
  predicate ShowsGauges(s: State, q: nat, g: Gauges) {
    q < |s.queues| && g.depth == |s.queues[q].ready| && g.unacked == s.queues[q].unacked && g.consumers == |s.queues[q].consumers|
  }

  // ----- taking -----

  /** The delivery of the head of a queue on a channel, under the next tag, which the connection then holds unless no acknowledgement is owed. */
  ghost predicate Delivers(s: State, r: State, d: Delivery, q: nat, c: nat, channel: nat, noAck: bool) {
    && q < |s.queues| && q < |r.queues| && c < |s.conns| && c < |r.conns| && s.queues[q].ready != []
    && d.conn == c && d.queue == q && d.channel == channel && d.noAck == noAck
    && d.tag == s.conns[c].nextTag + 1 && r.conns[c].nextTag == d.tag
    && d.pending == s.queues[q].ready[0] && d.remaining == |s.queues[q].ready| - 1
    && r.queues[q].ready == s.queues[q].ready[1..]
    && r.conns[c].held == (if noAck then s.conns[c].held else s.conns[c].held[d.tag := Held(q, d.pending.message, channel)])
    && (forall o :: 0 <= o < |s.conns| && o != c ==> o < |r.conns| && r.conns[o] == s.conns[o])
    && (forall p :: 0 <= p < |s.queues| && p != q ==> p < |r.queues| && r.queues[p] == s.queues[p])
  }

  lemma GetMeans(s: State, c: nat, name: string, channel: nat, noAck: bool)
    requires Linked(s) && c < |s.conns|
    ensures var (r, reply) := DoGet(s, c, name, channel, noAck);
            if name !in s.names then r == s && reply == Refused(404)
            else
              var q := s.names[name];
              if s.queues[q].ready == [] then r == s && reply.Done? && ShowsGauges(s, q, reply.gauges)
              else
                && reply.Fetched? && Delivers(s, r, reply.delivery, q, c, channel, noAck) && reply.delivery.consumer == ""
                && r.sink == s.sink && ShowsGauges(r, q, reply.gauges)
  {
  }

  /** What a push writes out is what its connection then holds, under the consumer's tag and channel. */
  lemma PushMeans(s: State, k: Consumer)
    requires Linked(s) && k.queue < |s.queues| && k.owner < |s.conns| && s.queues[k.queue].ready != []
    ensures var r := Push(s, k);
            && |r.sink| == |s.sink| + 1 && r.sink[..|s.sink|] == s.sink
            && Delivers(s, r, r.sink[|s.sink|], k.queue, k.owner, k.channel, k.noAck) && r.sink[|s.sink|].consumer == k.tag
  {
  }

  // ----- consumers -----

  /** A consumer is listed last on its queue and registered with its connection, and then the queue is dispatched. */
  lemma ConsumeMeans(s: State, c: nat, name: string, tag: string, channel: nat, noAck: bool)
    requires Linked(s) && c < |s.conns|
    ensures var (r, reply) := DoConsume(s, c, name, tag, channel, noAck);
            if name !in s.names then r == s && reply == Refused(404)
            else
              var q := s.names[name];
              var chosen := if tag != "" then tag else "amq.ctag-" + Digits(s.conns[c].generated + 1);
              if chosen in s.conns[c].consumers then
                reply == Refused(530) && r.queues == s.queues && r.sink == s.sink && r.conns[c].consumers == s.conns[c].consumers
              else
                var k := Consumer(chosen, q, c, channel, noAck);
                && reply.Named? && reply.name == chosen && ShowsGauges(r, q, reply.gauges)
                && c < |r.conns| && r.conns[c].consumers == s.conns[c].consumers[chosen := k]
                && q < |r.queues| && r.queues[q].consumers == s.queues[q].consumers + [k] && Flows(s, r, q, [])
                && r.conns[c].generated == s.conns[c].generated + if tag == "" then 1 else 0
  {
    if name in s.names {
      var q := s.names[name];
      var s1 := WithCounter(s, c, tag);
      var chosen := ChosenTag(s, c, tag);
      if chosen !in s1.conns[c].consumers {
        SubscribeFlows(s, s1, Consumer(chosen, q, c, channel, noAck));
      }
    }
  }

  lemma SubscribeFlows(s: State, s1: State, k: Consumer)
    requires Linked(s) && Linked(s1) && k.queue < |s1.queues| && k.owner < |s1.conns| && s1.queues == s.queues && s1.sink == s.sink
    ensures var s2 := Subscribed(s1, k);
            var r := Dispatch(s2, k.queue);
            && Flows(s, r, k.queue, []) && k.owner < |r.conns|
            && r.conns[k.owner].consumers == s1.conns[k.owner].consumers[k.tag := k]
            && r.conns[k.owner].generated == s1.conns[k.owner].generated
            && r.queues[k.queue].consumers == s.queues[k.queue].consumers + [k]
  {
    var s2 := Subscribed(s1, k);
    FlowsNothing(s, k.queue);
    assert Flows(s, s2, k.queue, []) by {
      assert s2.sink[|s.sink|..] == [] && s2.queues[k.queue].ready + [] == s2.queues[k.queue].ready;
    }
    DispatchFlows(s2, k.queue, k.queue);
    var r := Dispatch(s2, k.queue);
    var none: seq<Pending> := [];
    FlowsOn(s, s2, r, k.queue, none, none);
    assert none + none == none;
    assert HeldKept(s2.conns[k.owner], r.conns[k.owner]);
    DispatchKeepsNames(s2, k.queue, k.owner);
  }

  lemma {:induction false} DispatchKeepsNames(s: State, q: nat, c: nat)
    requires Linked(s) && q < |s.queues| && c < |s.conns|
    ensures Dispatch(s, q).conns[c].generated == s.conns[c].generated
    decreases |s.queues[q].ready|
  {
    if s.queues[q].ready != [] && Taker(s, q).0.Some? {
      DispatchKeepsNames(HandNext(s, q), q, c);
    }
  }

  /** Where the first consumer of the tag is listed, or the length. */
  function FirstOf(listed: seq<Consumer>, tag: string): (i: nat)
    ensures i <= |listed| && (forall j :: 0 <= j < i ==> listed[j].tag != tag) && (i < |listed| ==> listed[i].tag == tag)
  {
    if listed == [] || listed[0].tag == tag then 0 else 1 + FirstOf(listed[1..], tag)
  }

  /** The list without the first of the tag. */
  predicate LosesFirst(before: seq<Consumer>, after: seq<Consumer>, tag: string) {
    var i := FirstOf(before, tag);
    after == if i < |before| then before[..i] + before[i + 1..] else before
  }

  lemma {:induction false} DroppedLoses(listed: seq<Consumer>, tag: string)
    ensures LosesFirst(listed, Dropped(listed, tag), tag)
  {
    if listed != [] && listed[0].tag != tag {
      var rest := listed[1..];
      var i := FirstOf(rest, tag);
      DroppedLoses(rest, tag);
      if i < |rest| {
        WithoutAt(listed, i);
      }
    }
  }

  lemma WithoutAt(listed: seq<Consumer>, i: nat)
    requires i + 1 < |listed|
    ensures listed[..i + 1] + listed[i + 2..] == [listed[0]] + (listed[1..][..i] + listed[1..][i + 1..])
  {
  }

  lemma DropConsumerLoses(s: State, q: nat, tag: string)
    requires Linked(s) && q < |s.queues|
    ensures LosesFirst(s.queues[q].consumers, DropConsumer(s, q, tag).queues[q].consumers, tag)
    ensures DropConsumer(s, q, tag).queues[q].turn ==
            if FirstOf(s.queues[q].consumers, tag) < |s.queues[q].consumers| then 0 else s.queues[q].turn
  {
    var listed := s.queues[q].consumers;
    DroppedLoses(listed, tag);
    var i := FirstOf(listed, tag);
    if i < |listed| {
      assert listed[i] in listed;
    }
  }

  lemma CancelMeans(s: State, c: nat, tag: string)
    requires Linked(s) && c < |s.conns|
    ensures var (r, reply) := DoCancel(s, c, tag);
            if tag !in s.conns[c].consumers then r == s && reply == Refused(404)
            else
              var q := s.conns[c].consumers[tag].queue;
              && q < |s.queues| && q < |r.queues| && reply.Named? && reply.name == tag && ShowsGauges(r, q, reply.gauges)
              && r.conns == s.conns[c := s.conns[c].(consumers := s.conns[c].consumers - {tag})]
              && LosesFirst(s.queues[q].consumers, r.queues[q].consumers, tag)
              && r.queues[q].ready == s.queues[q].ready && r.sink == s.sink
              && forall p :: 0 <= p < |s.queues| && p != q ==> p < |r.queues| && r.queues[p] == s.queues[p]
  {
    if tag in s.conns[c].consumers {
      assert ConnLinked(s.conns[c], c, |s.queues|);
      DropConsumerLoses(Forgotten(s, c, tag), s.conns[c].consumers[tag].queue, tag);
    }
  }

  /** A new limit holds for its channel, and leaves every other limit and every delivery in hand. */
  lemma QosMeans(s: State, c: nat, channel: nat, prefetch: int, tags: seq<string>)
    requires Linked(s) && c < |s.conns| && forall i :: 0 <= i < |tags| ==> tags[i] in s.conns[c].consumers
    ensures var (r, reply) := DoQos(s, c, channel, prefetch, tags);
            && reply == Done(Gauges(0, 0, 0)) && c < |r.conns| && r.conns[c].prefetch == s.conns[c].prefetch[channel := prefetch]
            && (forall t :: t in s.conns[c].held ==> t in r.conns[c].held && r.conns[c].held[t] == s.conns[c].held[t])
            && (forall o :: 0 <= o < |s.conns| && o != c ==> o < |r.conns| && r.conns[o].prefetch == s.conns[o].prefetch)
  {
    var s1 := Limited(s, c, channel, prefetch);
    var r := DispatchAll(s1, QueuesOf(s1, c, tags));
    forall o | 0 <= o < |s1.conns| ensures r.conns[o].prefetch == s1.conns[o].prefetch {
      assert HeldKept(s1.conns[o], r.conns[o]);
    }
    assert HeldKept(s1.conns[c], r.conns[c]);
  }

  // ----- settling -----

  /** The delivery is one the acknowledgement speaks of. */
  predicate Speaks(h: Held, t: nat, tag: nat, channel: nat, multiple: bool) {
    if multiple then h.channel == channel && (tag == 0 || t <= tag) else t == tag
  }

  lemma {:induction false} SettledTags(s: State, c: nat, tags: seq<nat>, requeue: bool, t: nat)
    requires Linked(s) && c < |s.conns| && Distinct(tags) && (forall u :: u in tags ==> u in s.conns[c].held) && t <= s.conns[c].nextTag
    ensures var r := SettleAll(s, c, tags, requeue);
            && (t in r.conns[c].held <==> t in s.conns[c].held && t !in tags)
            && (t in r.conns[c].held ==> r.conns[c].held[t] == s.conns[c].held[t])
    decreases |tags|
  {
    if tags != [] {
      var source := s.conns[c].held[tags[0]].queue;
      assert ConnLinked(s.conns[c], c, |s.queues|);
      var given := Give(s, c, tags[0], requeue);
      var next := Dispatch(given, source);
      assert HeldKept(given.conns[c], next.conns[c]);
      NothingOldTaken(given, source, c, t);
      SettledTags(next, c, tags[1..], requeue, t);
    }
  }

  /** A dispatch issues only tags above the last one. */
  lemma {:induction false} NothingOldTaken(s: State, q: nat, c: nat, t: nat)
    requires Linked(s) && q < |s.queues| && c < |s.conns| && t <= s.conns[c].nextTag
    ensures t in Dispatch(s, q).conns[c].held <==> t in s.conns[c].held
    decreases |s.queues[q].ready|
  {
    if s.queues[q].ready != [] && Taker(s, q).0.Some? {
      NothingOldTaken(HandNext(s, q), q, c, t);
    }
  }

  /** A settlement is refused only for one tag that is not held; it takes exactly the deliveries it speaks of out of hand. */
  lemma SettleMeans(s: State, c: nat, tag: nat, channel: nat, multiple: bool, requeue: bool, t: nat)
    requires Linked(s) && c < |s.conns| && t <= s.conns[c].nextTag
    ensures var (r, reply) := DoSettle(s, c, tag, channel, multiple, requeue);
            if !multiple && tag !in s.conns[c].held then r == s && reply == Refused(406)
            else
              && reply.Done? && c < |r.conns|
              && (t in r.conns[c].held <==> t in s.conns[c].held && !Speaks(s.conns[c].held[t], t, tag, channel, multiple))
  {
    if multiple || tag in s.conns[c].held {
      NamedAreHeld(s.conns[c], tag, channel, multiple);
      var tags := TagsNamed(s.conns[c], tag, channel, multiple).value;
      assert ConnLinked(s.conns[c], c, |s.queues|);
      SettledTags(s, c, tags, requeue, t);
    }
  }

  // ----- queues -----

  lemma DeclareQueueMeans(s: State, name: string, passive: bool)
    requires Linked(s)
    ensures var (r, reply) := DoDeclareQueue(s, name, passive);
            var chosen := if name == "" && !passive then "amq.gen-" + Digits(s.generated + 1) else name;
            if chosen in s.names then
              && reply.Named? && reply.name == chosen && ShowsGauges(s, s.names[chosen], reply.gauges) && r.queues == s.queues && r.names == s.names
            else if passive then r == s && reply == Refused(404)
            else
              && reply == Named(chosen, Gauges(0, 0, 0)) && r.names == s.names[chosen := |s.queues|]
              && |r.queues| == |s.queues| + 1 && r.queues[..|s.queues|] == s.queues
              && r.queues[|s.queues|].ready == [] && r.queues[|s.queues|].consumers == [] && r.conns == s.conns && r.exchanges == s.exchanges
  {
  }

  /** A purge throws the waiting messages away and counts them; deliveries in hand, consumers and every other queue stay. */
  lemma PurgeMeans(s: State, name: string)
    requires Linked(s)
    ensures var (r, reply) := DoPurge(s, name);
            if name !in s.names then r == s && reply == Refused(404)
            else
              var q := s.names[name];
              && reply.Counted? && reply.removed == |s.queues[q].ready| && ShowsGauges(r, q, reply.gauges)
              && r.conns == s.conns && r.sink == s.sink && |r.queues| == |s.queues|
              && r.queues[q] == s.queues[q].(ready := [])
              && forall p :: 0 <= p < |s.queues| && p != q ==> r.queues[p] == s.queues[p]
  {
  }

  lemma {:induction false} ForgetAllMeans(s: State, listed: seq<Consumer>, c: nat, tag: string)
    requires Linked(s) && (forall i :: 0 <= i < |listed| ==> listed[i].owner < |s.conns|) && c < |s.conns|
    ensures var r := ForgetAll(s, listed);
            && r.conns[c].held == s.conns[c].held
            && (tag in r.conns[c].consumers <==>
                  tag in s.conns[c].consumers && forall i :: 0 <= i < |listed| ==> !(listed[i].owner == c && listed[i].tag == tag))
    decreases |listed|
  {
    if listed != [] {
      var rest := listed[1..];
      assert forall i :: 0 <= i < |rest| ==> rest[i] == listed[i + 1];
      ForgetAllMeans(Forgotten(s, listed[0].owner, listed[0].tag), rest, c, tag);
      if forall i :: 0 <= i < |rest| ==> !(rest[i].owner == c && rest[i].tag == tag) {
        forall i | 0 < i < |listed| ensures !(listed[i].owner == c && listed[i].tag == tag) { assert rest[i - 1] == listed[i]; }
      }
    }
  }

  /** A deletion takes the name, the waiting messages and the list of consumers, and each of those off its owner's register; deliveries in hand stay. */
  lemma DeleteMeans(s: State, name: string, c: nat, tag: string)
    requires Linked(s) && c < |s.conns|
    ensures var (r, reply) := DoDelete(s, name);
            if name !in s.names then r == s && reply == Refused(404)
            else
              var q := s.names[name];
              && reply.Counted? && reply.removed == |s.queues[q].ready| && r.names == s.names - {name}
              && |r.queues| == |s.queues| && r.queues[q].ready == [] && r.queues[q].consumers == []
              && (forall p :: 0 <= p < |s.queues| && p != q ==> r.queues[p] == s.queues[p])
              && c < |r.conns| && r.conns[c].held == s.conns[c].held
              && (tag in r.conns[c].consumers <==>
                    tag in s.conns[c].consumers && forall k :: k in s.queues[q].consumers ==> !(k.owner == c && k.tag == tag))
  {
    if name in s.names {
      var q := s.names[name];
      var listed := s.queues[q].consumers;
      assert QueueLinked(s.queues[q], q, |s.conns|);
      forall i | 0 <= i < |listed| ensures listed[i].owner < |s.conns| { assert listed[i] in listed; }
      ForgetAllMeans(Unnamed(s, q), listed, c, tag);
    }
  }
}
