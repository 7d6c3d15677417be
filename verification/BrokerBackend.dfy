/**
 The broker as the object it is: one set of fields behind one mutex, changed in
 place by loops. Every method is tied to the function of the same operation on
 values, so what is proved of those functions holds of this object.
 */
module BrokerBackend {
  import opened Common
  import opened Routing
  import S = Broker
  import opened Broker
  import Ops = BrokerOps
  import opened BrokerOps

  ghost predicate Descending(tags: seq<nat>) {
    forall i, j :: 0 <= i < j < |tags| ==> tags[i] > tags[j]
  }

  lemma TailMembers(a: seq<nat>, t: nat)
    requires a != [] && Descending(a)
    ensures t in a[1..] <==> t in a && t != a[0]
  {
    assert a == [a[0]] + a[1..];
  }

  /** A descending list is determined by its elements. */
  lemma {:induction false} DescendingUnique(a: seq<nat>, b: seq<nat>)
    requires Descending(a) && Descending(b) && forall t :: t in a <==> t in b
    ensures a == b
    decreases |a|
  {
    if b != [] {
      assert b[0] in a;
    }
    if a != [] {
      assert a[0] in a && a[0] in b;
      assert b[0] in b && b[0] in a;
      var i :| 0 <= i < |b| && b[i] == a[0];
      var j :| 0 <= j < |a| && a[j] == b[0];
      assert a[0] == b[0];
      forall t ensures t in a[1..] <==> t in b[1..] {
        TailMembers(a, t);
        TailMembers(b, t);
      }
      DescendingUnique(a[1..], b[1..]);
    }
  }

  lemma InsertedDescends(tags: seq<nat>, i: nat, t: nat)
    requires Descending(tags) && i <= |tags|
    requires forall j :: 0 <= j < i ==> tags[j] > t
    requires forall j :: i <= j < |tags| ==> tags[j] < t
    ensures Descending(tags[..i] + [t] + tags[i..])
  {
    var r := tags[..i] + [t] + tags[i..];
    assert |r| == |tags| + 1;
    assert forall a :: 0 <= a < i ==> r[a] == tags[a];
    assert forall a :: i < a < |r| ==> r[a] == tags[a - 1];
  }

  lemma InsertedMembers(tags: seq<nat>, i: nat, t: nat)
    requires i <= |tags|
    ensures forall x :: x in tags[..i] + [t] + tags[i..] <==> x in tags || x == t
  {
    assert tags == tags[..i] + tags[i..];
  }

  lemma {:induction false} DroppedAt(listed: seq<Consumer>, i: nat, tag: string)
    requires i < |listed| && listed[i].tag == tag && forall j :: 0 <= j < i ==> listed[j].tag != tag
    ensures Dropped(listed, tag) == listed[..i] + listed[i + 1..]
  {
    if i > 0 {
      var rest := listed[1..];
      DroppedAt(rest, i - 1, tag);
      assert [listed[0]] + rest[..i - 1] == listed[..i] && rest[i..] == listed[i + 1..];
    }
  }

  lemma {:induction false} DropAllSnoc(s: State, c: nat, tags: seq<string>, tag: string)
    requires Linked(s) && c < |s.conns| && (forall t :: t in tags ==> t in s.conns[c].consumers)
    requires tag in s.conns[c].consumers && s.conns[c].consumers[tag].queue < |s.queues|
    ensures DropAll(s, c, tags + [tag]) == DropConsumer(DropAll(s, c, tags), s.conns[c].consumers[tag].queue, tag)
    decreases |tags|
  {
    if tags == [] {
      assert [] + [tag] == [tag];
    } else {
      assert ConnLinked(s.conns[c], c, |s.queues|);
      assert (tags + [tag])[1..] == tags[1..] + [tag];
      DropAllSnoc(DropConsumer(s, s.conns[c].consumers[tags[0]].queue, tags[0]), c, tags[1..], tag);
    }
  }

  lemma {:induction false} GiveAllSnoc(s: State, c: nat, tags: seq<nat>, tag: nat)
    requires Linked(s) && c < |s.conns| && Distinct(tags) && tag !in tags && tag in s.conns[c].held
    requires forall t :: t in tags ==> t in s.conns[c].held
    ensures Distinct(tags + [tag]) && (forall t :: t in tags + [tag] ==> t in s.conns[c].held)
    ensures tag in GiveAll(s, c, tags).conns[c].held
    ensures GiveAll(s, c, tags + [tag]) == Give(GiveAll(s, c, tags), c, tag, true)
    decreases |tags|
  {
    if tags == [] {
      assert [] + [tag] == [tag];
    } else {
      assert (tags + [tag])[1..] == tags[1..] + [tag];
      GiveAllSnoc(Give(s, c, tags[0], true), c, tags[1..], tag);
    }
  }

  lemma {:induction false} DispatchAllSnoc(s: State, order: seq<nat>, q: nat)
    requires Linked(s) && (forall i :: 0 <= i < |order| ==> order[i] < |s.queues|) && q < |s.queues|
    ensures DispatchAll(s, order + [q]) == S.Dispatch(DispatchAll(s, order), q)
    decreases |order|
  {
    if order == [] {
      assert [] + [q] == [q];
    } else {
      assert (order + [q])[1..] == order[1..] + [q];
      DispatchAllSnoc(S.Dispatch(s, order[0]), order[1..], q);
    }
  }

  lemma PublishStep(s: State, m: Message, reached: seq<nat>, i: nat)
    requires Linked(s) && i < |reached| && forall j :: 0 <= j < |reached| ==> reached[j] < |s.queues|
    ensures PublishTo(s, m, reached[i..]) ==
            PublishTo(S.Dispatch(Ops.Enqueue(s, reached[i], m), reached[i]), m, reached[i + 1..])
  {
    assert reached[i..][0] == reached[i] && reached[i..][1..] == reached[i + 1..];
  }

  /** The tags from i on can be settled. */
  ghost predicate Settleable(s: State, c: nat, tags: seq<nat>, i: nat)
    requires i <= |tags|
  {
    Linked(s) && c < |s.conns| && Distinct(tags[i..]) && forall t :: t in tags[i..] ==> t in s.conns[c].held
  }

  lemma DistinctTail(tags: seq<nat>)
    requires Distinct(tags) && tags != []
    ensures Distinct(tags[1..]) && tags[0] !in tags[1..]
  {
  }

  lemma SettleKeeps(s: State, c: nat, tags: seq<nat>, i: nat, requeue: bool)
    requires i < |tags| && Settleable(s, c, tags, i) && tags[i] in s.conns[c].held
    requires s.conns[c].held[tags[i]].queue < |s.queues|
    ensures var next := S.Dispatch(S.Give(s, c, tags[i], requeue), s.conns[c].held[tags[i]].queue);
            && Settleable(next, c, tags, i + 1)
            && forall t :: t in tags[i + 1..] ==> next.conns[c].held[t] == s.conns[c].held[t]
  {
    var given := S.Give(s, c, tags[i], requeue);
    var next := S.Dispatch(given, s.conns[c].held[tags[i]].queue);
    assert HeldKept(given.conns[c], next.conns[c]);
    assert tags[i..] == [tags[i]] + tags[i + 1..];
    DistinctTail(tags[i..]);
    assert tags[i..][1..] == tags[i + 1..];
    forall t | t in tags[i + 1..] ensures t in given.conns[c].held && given.conns[c].held[t] == s.conns[c].held[t] {
      assert t in tags[i..] && t != tags[i];
    }
  }

  lemma SettleStep(s: State, c: nat, tags: seq<nat>, i: nat, requeue: bool)
    requires i < |tags| && Settleable(s, c, tags, i) && tags[i] in s.conns[c].held
    requires s.conns[c].held[tags[i]].queue < |s.queues|
    requires Settleable(S.Dispatch(S.Give(s, c, tags[i], requeue), s.conns[c].held[tags[i]].queue), c, tags, i + 1)
    ensures var next := S.Dispatch(S.Give(s, c, tags[i], requeue), s.conns[c].held[tags[i]].queue);
            SettleAll(s, c, tags[i..], requeue) == SettleAll(next, c, tags[i + 1..], requeue)
  {
    assert tags[i..][0] == tags[i] && tags[i..][1..] == tags[i + 1..];
  }

  /** From s0 the tags before i were settled, giving s; settling the rest gives what settling all would. */
  ghost predicate Settling(s0: State, s: State, c: nat, tags: seq<nat>, i: nat, requeue: bool)
    requires Linked(s0) && c < |s0.conns| && Distinct(tags) && i <= |tags|
    requires forall t :: t in tags ==> t in s0.conns[c].held
  {
    && Settleable(s, c, tags, i) && |s.queues| == |s0.queues|
    && (forall t :: t in tags[i..] ==> s.conns[c].held[t] == s0.conns[c].held[t])
    && SettleAll(s, c, tags[i..], requeue) == SettleAll(s0, c, tags, requeue)
  }

  lemma SettlingStep(s0: State, s: State, c: nat, tags: seq<nat>, i: nat, requeue: bool)
    requires Linked(s0) && c < |s0.conns| && Distinct(tags) && i < |tags|
    requires (forall t :: t in tags ==> t in s0.conns[c].held) && Settling(s0, s, c, tags, i, requeue)
    ensures tags[i] in s.conns[c].held && s.conns[c].held[tags[i]] == s0.conns[c].held[tags[i]]
    ensures s.conns[c].held[tags[i]].queue < |s.queues|
    ensures Settling(s0, S.Dispatch(S.Give(s, c, tags[i], requeue), s.conns[c].held[tags[i]].queue), c, tags, i + 1, requeue)
  {
    assert tags[i] in tags[i..] && ConnLinked(s.conns[c], c, |s.queues|);
    SettleKeeps(s, c, tags, i, requeue);
    SettleStep(s, c, tags, i, requeue);
  }

  lemma ForgetStep(s: State, listed: seq<Consumer>, i: nat)
    requires Linked(s) && i < |listed| && forall j :: 0 <= j < |listed| ==> listed[j].owner < |s.conns|
    ensures ForgetAll(s, listed[i..]) == ForgetAll(Forgotten(s, listed[i].owner, listed[i].tag), listed[i + 1..])
  {
    assert listed[i..][0] == listed[i] && listed[i..][1..] == listed[i + 1..];
  }

  /** One more consumer visited: its queue joins the list of those dispatched. */
  lemma QueuesSnoc(s: State, c: nat, order: seq<string>, tag: string)
    requires Linked(s) && c < |s.conns| && (forall i :: 0 <= i < |order| ==> order[i] in s.conns[c].consumers)
    requires tag in s.conns[c].consumers
    ensures forall i :: 0 <= i < |order + [tag]| ==> (order + [tag])[i] in s.conns[c].consumers
    ensures QueuesOf(s, c, order + [tag]) == QueuesOf(s, c, order) + [s.conns[c].consumers[tag].queue]
  {
    var longer := order + [tag];
    forall i | 0 <= i < |longer| ensures longer[i] in s.conns[c].consumers {}
  }

  /** Visiting one more key of a map extends the order. */
  lemma OrderSnoc<T(!new)>(order: seq<T>, keys: set<T>, rest: set<T>, x: T)
    requires IsOrder(order, keys - rest) && x in rest && rest <= keys
    ensures IsOrder(order + [x], keys - (rest - {x}))
  {
  }

  /** One step of the round robin, with the remainder the program takes. */
  lemma NextStep(q: Queue, conns: seq<Connection>, tries: nat)
    requires q.consumers != [] && tries > 0 && forall k :: k in q.consumers ==> k.owner < |conns|
    ensures var n := |q.consumers|;
            var k := q.consumers[q.turn % n];
            S.Next(q, conns, tries) ==
              if k.owner < |conns| && HasRoom(conns[k.owner], k.channel) then (Some(k), (q.turn + 1) % n)
              else S.Next(q.(turn := (q.turn + 1) % n), conns, tries - 1)
  {
    RingIsRemainder(q.turn, |q.consumers|);
    RingIsRemainder(q.turn + 1, |q.consumers|);
  }

  /** Walks the consumers at most once from the turn, stopping at the first with room. */
  method Walk(queue: Queue, conns: seq<Connection>) returns (taking: Option<Consumer>, turn: nat)
    requires forall k :: k in queue.consumers ==> k.owner < |conns|
    ensures (taking, turn) == S.Next(queue, conns, |queue.consumers|)
  {
    var n := |queue.consumers|;
    var tries := n;
    turn := queue.turn;
    while tries > 0
      invariant 0 <= tries <= n
      invariant S.Next(queue.(turn := turn), conns, tries) == S.Next(queue, conns, n)
    {
      NextStep(queue.(turn := turn), conns, tries);
      var candidate := queue.consumers[turn % n];
      turn := (turn + 1) % n;
      if HasRoom(conns[candidate.owner], candidate.channel) {
        return Some(candidate), turn;
      }
      tries := tries - 1;
    }
    return None, turn;
  }

  class Backend {
    var queues: seq<Queue>
    var names: map<string, nat>
    var exchanges: map<string, Exchange>
    var conns: seq<Connection>
    var generated: nat
    var sink: seq<Delivery>
    ghost var ledgers: seq<Ledger>

    ghost function Abs(): State
      reads this
    {
      State(queues, names, exchanges, conns, generated, sink, ledgers)
    }

    constructor ()
      ensures Abs() == INIT && Linked(Abs())
    {
      queues, names, exchanges, conns := [], map[], map[], [];
      generated, sink, ledgers := 0, [], [];
    }

    // ----- topology -----

    method DeclareQueue(name: string, passive: bool) returns (reply: Reply)
      requires Linked(Abs())
      modifies this`queues, this`names, this`generated, this`ledgers
      ensures (Abs(), reply) == DoDeclareQueue(old(Abs()), name, passive)
    {
      if passive {
        return if name in names then Named(name, GaugesOf(queues[names[name]])) else Refused(NOT_FOUND);
      }
      var chosen := name;
      if name == "" {
        generated := generated + 1;
        chosen := QUEUE_PREFIX + Digits(generated);
      }
      if chosen in names {
        return Named(chosen, GaugesOf(queues[names[chosen]]));
      }
      var created := Queue(chosen, [], 0, [], 0);
      names := names[chosen := |queues|];
      queues := queues + [created];
      ledgers := ledgers + [EMPTY_LEDGER];
      return Named(chosen, GaugesOf(created));
    }

    method DeclareExchange(name: string, kind: string, passive: bool) returns (reply: Reply)
      modifies this`exchanges
      ensures (Abs(), reply) == DoDeclareExchange(old(Abs()), name, kind, passive)
    {
      if name == DEFAULT_EXCHANGE {
        return Refused(ACCESS_REFUSED);
      }
      if passive {
        return if name in exchanges then Done(NO_GAUGES) else Refused(NOT_FOUND);
      }
      if kind != "direct" && kind != "fanout" && kind != "topic" {
        return Refused(COMMAND_INVALID);
      }
      var wanted := if kind == "direct" then Direct else if kind == "fanout" then Fanout else Topic;
      if name in exchanges {
        return if exchanges[name].kind != wanted then Refused(PRECONDITION_FAILED) else Done(NO_GAUGES);
      }
      exchanges := exchanges[name := Exchange(wanted, [])];
      return Done(NO_GAUGES);
    }

    method Bind(name: string, exchange: string, key: string) returns (reply: Reply)
      requires Linked(Abs())
      modifies this`exchanges
      ensures (Abs(), reply) == DoBind(old(Abs()), name, exchange, key)
    {
      if name !in names {
        return Refused(NOT_FOUND);
      }
      if exchange == DEFAULT_EXCHANGE {
        return Refused(ACCESS_REFUSED);
      }
      if exchange !in exchanges {
        return Refused(NOT_FOUND);
      }
      var q := names[name];
      var routed := exchanges[exchange];
      exchanges := exchanges[exchange := routed.(bindings := routed.bindings + [Binding(q, key)])];
      return Done(GaugesOf(queues[q]));
    }

    // ----- dispatching -----

    /** The round robin, leaving the turn where the walk left it. */
    method Next(q: nat) returns (taking: Option<Consumer>)
      requires Linked(Abs()) && q < |queues|
      modifies this`queues
      ensures taking == Taker(old(Abs()), q).0
      ensures Abs() == Turned(old(Abs()), q, Taker(old(Abs()), q).1)
    {
      assert QueueLinked(queues[q], q, |conns|);
      var turn;
      taking, turn := Walk(queues[q], conns);
      queues := queues[q := queues[q].(turn := turn)];
    }

    /** Takes the head of a queue and issues a delivery tag for it. */
    method HandOut(q: nat, c: nat, channel: nat, noAck: bool) returns (tag: nat)
      requires Linked(Abs()) && q < |queues| && c < |conns| && queues[q].ready != []
      modifies this`queues, this`conns, this`ledgers
      ensures Abs() == S.HandOut(old(Abs()), q, c, channel, noAck)
      ensures tag == old(conns[c]).nextTag + 1
    {
      var m := queues[q].ready[0].message;
      queues := queues[q := queues[q].(ready := queues[q].ready[1..])];
      tag := conns[c].nextTag + 1;
      conns := conns[c := conns[c].(nextTag := tag)];
      if noAck {
        ledgers := ledgers[q := ledgers[q].(noAck := ledgers[q].noAck + multiset{m})];
      } else {
        var conn := conns[c];
        conns := conns[c := conn.(held := conn.held[tag := Held(q, m, channel)],
                                  outstanding := conn.outstanding[channel := At(conn.outstanding, channel) + 1])];
        queues := queues[q := queues[q].(unacked := queues[q].unacked + 1)];
      }
    }

    method Push(k: Consumer)
      requires Linked(Abs()) && k.queue < |queues| && k.owner < |conns| && queues[k.queue].ready != []
      modifies this`queues, this`conns, this`ledgers, this`sink
      ensures Abs() == S.Push(old(Abs()), k)
    {
      var d := DeliveryOf(State(queues, names, exchanges, conns, generated, sink, []), k.queue, k.owner, k.tag, k.channel, k.noAck);
      var tag := HandOut(k.queue, k.owner, k.channel, k.noAck);
      sink := sink + [d];
    }

    /** Hands messages out until the queue runs out or nobody has room. */
    method Dispatch(q: nat)
      requires Linked(Abs()) && q < |queues|
      modifies this`queues, this`conns, this`ledgers, this`sink
      ensures Abs() == S.Dispatch(old(Abs()), q)
    {
      while |queues[q].ready| > 0
        invariant Linked(Abs()) && q < |queues|
        invariant S.Dispatch(Abs(), q) == S.Dispatch(old(Abs()), q)
        decreases |queues[q].ready|
      {
        ghost var before := Abs();
        var taking := Next(q);
        if taking.None? {
          return;
        }
        Push(taking.value);
        assert Abs() == HandNext(before, q);
      }
    }

    // ----- publishing -----

    /** The queues the exchange routes the key to, each once. */
    method Destinations(exchange: string, key: string) returns (reached: seq<nat>)
      requires Linked(Abs())
      ensures reached == Ops.Destinations(Abs(), exchange, key)
    {
      if exchange == DEFAULT_EXCHANGE {
        return if key in names then [names[key]] else [];
      }
      if exchange !in exchanges {
        return [];
      }
      var bindings := exchanges[exchange].bindings;
      reached := [];
      for i := 0 to |bindings|
        invariant reached == Reached(exchanges[exchange].kind, bindings[..i], key)
      {
        assert bindings[..i + 1][..i] == bindings[..i];
        if Reaches(exchanges[exchange].kind, bindings[i].key, key) && bindings[i].target !in reached {
          reached := reached + [bindings[i].target];
        }
      }
      assert bindings[..|bindings|] == bindings;
    }

    method Publish(m: Message) returns (reply: Reply)
      requires Linked(Abs())
      modifies this`queues, this`conns, this`ledgers, this`sink
      ensures (Abs(), reply) == DoPublish(old(Abs()), m)
    {
      if m.exchange != DEFAULT_EXCHANGE && m.exchange !in exchanges {
        return Refused(NOT_FOUND);
      }
      var reached := Destinations(m.exchange, m.routingKey);
      PublishEach(m, reached);
      return Routed(|reached|, GaugesFor(queues, reached));
    }

    method PublishEach(m: Message, reached: seq<nat>)
      requires Linked(Abs()) && forall i :: 0 <= i < |reached| ==> reached[i] < |queues|
      modifies this`queues, this`conns, this`ledgers, this`sink
      ensures Abs() == PublishTo(old(Abs()), m, reached)
    {
      var i := 0;
      assert reached[0..] == reached;
      while i < |reached|
        invariant 0 <= i <= |reached| && Linked(Abs()) && |queues| == |old(queues)|
        invariant PublishTo(Abs(), m, reached[i..]) == PublishTo(old(Abs()), m, reached)
      {
        PublishStep(Abs(), m, reached, i);
        Enqueue(reached[i], m);
        Dispatch(reached[i]);
        i := i + 1;
      }
    }

    method Enqueue(q: nat, m: Message)
      requires Linked(Abs()) && q < |queues|
      modifies this`queues, this`ledgers
      ensures Abs() == Ops.Enqueue(old(Abs()), q, m)
    {
      queues := queues[q := queues[q].(ready := queues[q].ready + [Pending(m, false)])];
      ledgers := ledgers[q := ledgers[q].(enqueued := ledgers[q].enqueued + multiset{m})];
    }

    // ----- taking -----

    method Get(c: nat, name: string, channel: nat, noAck: bool) returns (reply: Reply)
      requires Linked(Abs()) && c < |conns|
      modifies this`queues, this`conns, this`ledgers
      ensures (Abs(), reply) == DoGet(old(Abs()), c, name, channel, noAck)
    {
      if name !in names {
        return Refused(NOT_FOUND);
      }
      var q := names[name];
      if |queues[q].ready| == 0 {
        return Done(GaugesOf(queues[q]));
      }
      var waiting := queues[q].ready[0];
      var tag := HandOut(q, c, channel, noAck);
      return Fetched(Delivery(c, q, "", channel, tag, noAck, waiting, |queues[q].ready|), GaugesOf(queues[q]));
    }

    method Consume(c: nat, name: string, tag: string, channel: nat, noAck: bool) returns (reply: Reply)
      requires Linked(Abs()) && c < |conns|
      modifies this`queues, this`conns, this`ledgers, this`sink
      ensures (Abs(), reply) == DoConsume(old(Abs()), c, name, tag, channel, noAck)
    {
      if name !in names {
        return Refused(NOT_FOUND);
      }
      var q := names[name];
      var chosen := tag;
      if chosen == "" {
        conns := conns[c := conns[c].(generated := conns[c].generated + 1)];
        chosen := CONSUMER_PREFIX + Digits(conns[c].generated);
      }
      assert Abs() == WithCounter(old(Abs()), c, tag);
      if chosen in conns[c].consumers {
        return Refused(NOT_ALLOWED);
      }
      ghost var counted := Abs();
      var k := Consumer(chosen, q, c, channel, noAck);
      conns := conns[c := conns[c].(consumers := conns[c].consumers[chosen := k])];
      queues := queues[q := queues[q].(consumers := queues[q].consumers + [k])];
      assert Abs() == Subscribed(counted, k);
      Dispatch(q);
      return Named(chosen, GaugesOf(queues[q]));
    }

    /** Drops the first consumer under the tag, and starts the turns again. */
    method DropConsumer(q: nat, tag: string)
      requires Linked(Abs()) && q < |queues|
      modifies this`queues
      ensures Abs() == S.DropConsumer(old(Abs()), q, tag)
    {
      var listed := queues[q].consumers;
      var i := 0;
      while i < |listed|
        invariant 0 <= i <= |listed|
        invariant forall j :: 0 <= j < i ==> listed[j].tag != tag
      {
        if listed[i].tag == tag {
          assert listed[i] in listed;
          DroppedAt(listed, i, tag);
          queues := queues[q := queues[q].(consumers := listed[..i] + listed[i + 1..], turn := 0)];
          return;
        }
        i := i + 1;
      }
    }

    method Cancel(c: nat, tag: string) returns (reply: Reply)
      requires Linked(Abs()) && c < |conns|
      modifies this`queues, this`conns
      ensures (Abs(), reply) == DoCancel(old(Abs()), c, tag)
    {
      if tag !in conns[c].consumers {
        return Refused(NOT_FOUND);
      }
      assert ConnLinked(conns[c], c, |queues|);
      var q := conns[c].consumers[tag].queue;
      conns := conns[c := conns[c].(consumers := conns[c].consumers - {tag})];
      assert Abs() == Forgotten(old(Abs()), c, tag);
      DropConsumer(q, tag);
      return Named(tag, GaugesOf(queues[q]));
    }

    // ----- settling -----

    /** Collects the named deliveries from the unordered map, then puts the highest tag first. */
    method SelectTags(c: nat, tag: nat, channel: nat) returns (tags: seq<nat>)
      requires Linked(Abs()) && c < |conns|
      ensures tags == Selected(conns[c], conns[c].nextTag, tag, channel)
    {
      var held := conns[c].held;
      var rest := held.Keys;
      tags := [];
      while rest != {}
        invariant rest <= held.Keys && Descending(tags)
        invariant forall t :: t in tags <==>
                    t in held && t !in rest && held[t].channel == channel && (tag == 0 || t <= tag)
        decreases |rest|
      {
        var t :| t in rest;
        rest := rest - {t};
        if held[t].channel == channel && (tag == 0 || t <= tag) {
          tags := InsertDescending(tags, t);
        }
      }
      assert ConnLinked(conns[c], c, |queues|);
      DescendingUnique(tags, Selected(conns[c], conns[c].nextTag, tag, channel));
    }

    method InsertDescending(tags: seq<nat>, t: nat) returns (r: seq<nat>)
      requires Descending(tags) && t !in tags
      ensures Descending(r) && forall x :: x in r <==> x in tags || x == t
    {
      var i := 0;
      while i < |tags| && tags[i] > t
        invariant 0 <= i <= |tags| && forall j :: 0 <= j < i ==> tags[j] > t
      {
        i := i + 1;
      }
      r := tags[..i] + [t] + tags[i..];
      InsertedMembers(tags, i, t);
      forall j | i <= j < |tags| ensures tags[j] < t {
        assert tags[j] in tags;
      }
      InsertedDescends(tags, i, t);
    }

    /** Releases one held delivery. */
    method Give(c: nat, tag: nat, requeue: bool) returns (source: nat)
      requires Linked(Abs()) && c < |conns| && tag in conns[c].held
      modifies this`queues, this`conns, this`ledgers
      ensures Abs() == S.Give(old(Abs()), c, tag, requeue)
      ensures source == old(conns[c]).held[tag].queue < |queues|
    {
      var h := conns[c].held[tag];
      assert ConnLinked(conns[c], c, |queues|);
      conns := conns[c := conns[c].(held := conns[c].held - {tag},
                                    outstanding := conns[c].outstanding[h.channel := At(conns[c].outstanding, h.channel) - 1])];
      queues := queues[h.queue := queues[h.queue].(unacked := queues[h.queue].unacked - 1)];
      if requeue {
        queues := queues[h.queue := Requeued(queues[h.queue], h.message)];
      } else {
        ledgers := ledgers[h.queue := ledgers[h.queue].(settled := ledgers[h.queue].settled + multiset{h.message})];
      }
      return h.queue;
    }

    method Settle(c: nat, tag: nat, channel: nat, multiple: bool, requeue: bool) returns (reply: Reply)
      requires Linked(Abs()) && c < |conns|
      modifies this`queues, this`conns, this`ledgers, this`sink
      ensures (Abs(), reply) == DoSettle(old(Abs()), c, tag, channel, multiple, requeue)
    {
      NamedAreHeld(conns[c], tag, channel, multiple);
      var tags := [tag];
      if multiple {
        tags := SelectTags(c, tag, channel);
      } else if tag !in conns[c].held {
        return Refused(PRECONDITION_FAILED);
      }
      var last := SettleEach(c, tags, requeue);
      return Done(if last.None? then NO_GAUGES else GaugesOf(queues[last.value]));
    }

    method SettleOne(c: nat, tag: nat, requeue: bool) returns (source: nat)
      requires Linked(Abs()) && c < |conns| && tag in conns[c].held && conns[c].held[tag].queue < |queues|
      modifies this`queues, this`conns, this`ledgers, this`sink
      ensures source == old(conns[c]).held[tag].queue
      ensures Abs() == S.Dispatch(S.Give(old(Abs()), c, tag, requeue), source)
      ensures |queues| == |old(queues)|
    {
      source := Give(c, tag, requeue);
      Dispatch(source);
    }

    /** Settles the tags in order, dispatching each one's queue before the next. */
    method SettleEach(c: nat, tags: seq<nat>, requeue: bool) returns (last: Option<nat>)
      requires c < |conns| && Settleable(Abs(), c, tags, 0) && (forall t :: t in tags ==> t in conns[c].held) && Distinct(tags)
      modifies this`queues, this`conns, this`ledgers, this`sink
      ensures Abs() == SettleAll(old(Abs()), c, tags, requeue)
      ensures last == if tags == [] then None else Some(LastSource(old(Abs()), c, tags))
    {
      last := None;
      var i := 0;
      assert tags[0..] == tags;
      while i < |tags|
        invariant 0 <= i <= |tags| && Settling(old(Abs()), Abs(), c, tags, i, requeue)
        invariant last == if i == 0 then None else Some(old(conns[c]).held[tags[i - 1]].queue)
      {
        SettlingStep(old(Abs()), Abs(), c, tags, i, requeue);
        var source := SettleOne(c, tags[i], requeue);
        last := Some(source);
        i := i + 1;
      }
    }

    method Qos(c: nat, channel: nat, prefetch: int) returns (reply: Reply, ghost order: seq<string>)
      requires Linked(Abs()) && c < |conns|
      modifies this`queues, this`conns, this`ledgers, this`sink
      ensures Admissible(old(Abs()), Op.Qos(c, channel, prefetch, order))
      ensures (forall i :: 0 <= i < |order| ==> order[i] in old(conns[c]).consumers)
              && (Abs(), reply) == DoQos(old(Abs()), c, channel, prefetch, order)
    {
      conns := conns[c := conns[c].(prefetch := conns[c].prefetch[channel := prefetch])];
      assert Abs() == Limited(old(Abs()), c, channel, prefetch);
      order := DispatchTakers(c);
      return Done(NO_GAUGES), order;
    }

    /** Dispatches the queue of every consumer of c, in whatever order the map gives them. */
    method DispatchTakers(c: nat) returns (ghost order: seq<string>)
      requires Linked(Abs()) && c < |conns|
      modifies this`queues, this`conns, this`ledgers, this`sink
      ensures IsOrder(order, old(conns[c]).consumers.Keys)
      ensures (forall i :: 0 <= i < |order| ==> order[i] in old(conns[c]).consumers)
              && Abs() == DispatchAll(old(Abs()), QueuesOf(old(Abs()), c, order))
    {
      order := [];
      var takers := conns[c].consumers;
      var rest := takers.Keys;
      assert QueuesOf(old(Abs()), c, order) == [];
      while rest != {}
        invariant rest <= takers.Keys && Linked(Abs()) && |queues| == |old(queues)|
        invariant IsOrder(order, takers.Keys - rest)
        invariant forall i :: 0 <= i < |order| ==> order[i] in takers
        invariant Abs() == DispatchAll(old(Abs()), QueuesOf(old(Abs()), c, order))
        decreases |rest|
      {
        var tag :| tag in rest;
        OrderSnoc(order, takers.Keys, rest, tag);
        rest := rest - {tag};
        assert ConnLinked(old(conns[c]), c, |queues|);
        QueuesSnoc(old(Abs()), c, order, tag);
        DispatchAllSnoc(old(Abs()), QueuesOf(old(Abs()), c, order), takers[tag].queue);
        Dispatch(takers[tag].queue);
        order := order + [tag];
      }
    }

    // ----- closing -----

    /** Drops every consumer of a connection, in whatever order the map gives them. */
    method DropEvery(c: nat) returns (ghost order: seq<string>)
      requires Linked(Abs()) && c < |conns|
      modifies this`queues
      ensures IsOrder(order, conns[c].consumers.Keys)
      ensures Abs() == DropAll(old(Abs()), c, order)
    {
      order := [];
      var takers := conns[c].consumers;
      var rest := takers.Keys;
      while rest != {}
        invariant rest <= takers.Keys && Linked(Abs()) && |queues| == |old(queues)|
        invariant IsOrder(order, takers.Keys - rest)
        invariant Abs() == DropAll(old(Abs()), c, order)
        decreases |rest|
      {
        var tag :| tag in rest;
        OrderSnoc(order, takers.Keys, rest, tag);
        rest := rest - {tag};
        assert ConnLinked(conns[c], c, |queues|);
        DropAllSnoc(old(Abs()), c, order, tag);
        DropConsumer(takers[tag].queue, tag);
        order := order + [tag];
      }
    }

    /** Gives back every held delivery of a connection, in whatever order the map gives them. */
    method GiveEvery(c: nat) returns (ghost order: seq<nat>)
      requires Linked(Abs()) && c < |conns|
      modifies this`queues, this`conns, this`ledgers
      ensures IsOrder(order, old(conns[c]).held.Keys)
      ensures Abs() == GiveAll(old(Abs()), c, order)
    {
      order := [];
      var held := conns[c].held;
      var rest := held.Keys;
      while rest != {}
        invariant rest <= held.Keys && Linked(Abs()) && c < |conns|
        invariant IsOrder(order, held.Keys - rest)
        invariant Abs() == GiveAll(old(Abs()), c, order)
        decreases |rest|
      {
        var tag :| tag in rest;
        OrderSnoc(order, held.Keys, rest, tag);
        rest := rest - {tag};
        GiveAllSnoc(old(Abs()), c, order, tag);
        var source := Give(c, tag, true);
        order := order + [tag];
      }
    }

    /** Dispatches every one of the queues, in any order. */
    method DispatchEvery(targets: set<nat>) returns (ghost order: seq<nat>)
      requires Linked(Abs()) && forall q :: q in targets ==> q < |queues|
      modifies this`queues, this`conns, this`ledgers, this`sink
      ensures IsOrder(order, targets)
      ensures (forall i :: 0 <= i < |order| ==> order[i] < |old(queues)|) && Abs() == DispatchAll(old(Abs()), order)
    {
      order := [];
      var rest := targets;
      while rest != {}
        invariant rest <= targets && Linked(Abs()) && |queues| == |old(queues)|
        invariant IsOrder(order, targets - rest)
        invariant forall i :: 0 <= i < |order| ==> order[i] < |old(queues)|
        invariant Abs() == DispatchAll(old(Abs()), order)
        decreases |rest|
      {
        var q :| q in rest;
        OrderSnoc(order, targets, rest, q);
        rest := rest - {q};
        DispatchAllSnoc(old(Abs()), order, q);
        Dispatch(q);
        order := order + [q];
      }
    }

    method Close(c: nat) returns (ghost tags: seq<string>, ghost held: seq<nat>, ghost order: seq<nat>)
      requires Linked(Abs()) && c < |conns|
      modifies this`queues, this`conns, this`ledgers, this`sink
      ensures Admissible(old(Abs()), Op.Close(c, tags, held, order))
      ensures Abs() == DoClose(old(Abs()), c, tags, held, order).0
    {
      tags := DropEvery(c);
      conns := conns[c := conns[c].(consumers := map[])];
      assert Abs() == Deaf(DropAll(old(Abs()), c, tags), c);
      held := GiveEvery(c);
      order := DispatchEvery(names.Values);
    }

    // ----- throwing away -----

    method Discard(q: nat)
      requires Linked(Abs()) && q < |queues|
      modifies this`queues, this`ledgers
      ensures Abs() == Ops.Discard(old(Abs()), q)
    {
      ledgers := ledgers[q := ledgers[q].(discarded := ledgers[q].discarded + Messages(queues[q].ready))];
      queues := queues[q := queues[q].(ready := [])];
    }

    method Purge(name: string) returns (reply: Reply)
      requires Linked(Abs())
      modifies this`queues, this`ledgers
      ensures (Abs(), reply) == DoPurge(old(Abs()), name)
    {
      if name !in names {
        return Refused(NOT_FOUND);
      }
      var q := names[name];
      var removed := |queues[q].ready|;
      Discard(q);
      return Counted(removed, GaugesOf(queues[q]));
    }

    /** Takes each consumer off its owner's list. */
    method ForgetListed(listed: seq<Consumer>)
      requires Linked(Abs()) && forall i :: 0 <= i < |listed| ==> listed[i].owner < |conns|
      modifies this`conns
      ensures Abs() == ForgetAll(old(Abs()), listed)
    {
      var i := 0;
      assert listed[0..] == listed;
      while i < |listed|
        invariant 0 <= i <= |listed| && Linked(Abs()) && |conns| == |old(conns)|
        invariant ForgetAll(Abs(), listed[i..]) == ForgetAll(old(Abs()), listed)
      {
        var k := listed[i];
        ForgetStep(Abs(), listed, i);
        ghost var forgotten := Forgotten(Abs(), k.owner, k.tag);
        conns := conns[k.owner := conns[k.owner].(consumers := conns[k.owner].consumers - {k.tag})];
        assert Abs() == forgotten;
        i := i + 1;
      }
    }

    method Delete(name: string) returns (reply: Reply)
      requires Linked(Abs())
      modifies this
      ensures (Abs(), reply) == DoDelete(old(Abs()), name)
    {
      if name !in names {
        return Refused(NOT_FOUND);
      }
      var q := names[name];
      var removed := |queues[q].ready|;
      names := names - {queues[q].name};
      exchanges := map e | e in exchanges :: exchanges[e].(bindings := UnbindAll(exchanges[e].bindings, q));
      assert Abs() == Unnamed(old(Abs()), q);
      assert QueueLinked(queues[q], q, |conns|);
      assert forall i :: 0 <= i < |queues[q].consumers| ==> queues[q].consumers[i] in queues[q].consumers;
      ForgetListed(queues[q].consumers);
      Discard(q);
      queues := queues[q := queues[q].(consumers := [])];
      return Counted(removed, GaugesOf(queues[q]));
    }
  }
}
