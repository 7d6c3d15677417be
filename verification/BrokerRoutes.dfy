/**
 Which queues a published message reaches, said from what clients declared and
 bound along the run: the kind by its name, the binding by its key.
 */
module BrokerRoutes {
  import opened Common
  import opened Routing
  import opened Broker
  import opened BrokerOps

  /** A binding as it was asked for. */
  datatype Bound = Bound(exchange: string, queue: nat, key: string)

  /** The kind name each exchange was first declared with, and the bindings that stand. */
  datatype History = History(kinds: map<string, string>, bound: set<Bound>)

  predicate KnownKind(kind: string) {
    kind == "direct" || kind == "fanout" || kind == "topic"
  }

  /** What one operation adds to the history, or a deleted queue takes from it. */
  function Told(s: State, h: History, op: Op): History {
    match op
    case DeclareExchange(x, kind, passive) =>
      if x != "" && !passive && KnownKind(kind) && x !in h.kinds then h.(kinds := h.kinds[x := kind]) else h
    case Bind(name, x, key) =>
      if name in s.names && x in h.kinds then h.(bound := h.bound + {Bound(x, s.names[name], key)}) else h
    case Delete(name) =>
      if name in s.names then h.(bound := set b | b in h.bound && b.queue != s.names[name]) else h
    case _ => h
  }

  ghost function Remembered(s: State, h: History, ops: seq<Op>): History
    requires Linked(s) && Runs(s, ops)
    decreases |ops|
  {
    if ops == [] then h
    else
      StepLinked(s, ops[0]);
      Remembered(Step(s, ops[0]).0, Told(s, h, ops[0]), ops[1..])
  }

  /** A binding of the key on an exchange of the kind takes a message with the routing key. */
  ghost predicate Takes(kind: string, key: string, routingKey: string) {
    || kind == "fanout"
    || (kind == "direct" && key == routingKey)
    || (kind == "topic" && exists parts :: Cuts(parts, Split(key), Split(routingKey)))
  }

  // ----- the state agrees with the history -----

  predicate SameKind(kind: Kind, name: string) {
    match kind
    case Direct => name == "direct"
    case Fanout => name == "fanout"
    case Topic => name == "topic"
  }

  ghost predicate SameBindings(e: Exchange, x: string, bound: set<Bound>) {
    && (forall b :: b in e.bindings ==> Bound(x, b.target, b.key) in bound)
    && (forall b :: b in bound && b.exchange == x ==> Binding(b.queue, b.key) in e.bindings)
  }

  ghost predicate Agrees(s: State, h: History) {
    && s.exchanges.Keys == h.kinds.Keys && "" !in h.kinds
    && (forall x :: x in s.exchanges ==> SameKind(s.exchanges[x].kind, h.kinds[x]) && SameBindings(s.exchanges[x], x, h.bound))
    && (forall b :: b in h.bound ==> b.exchange in h.kinds)
  }

  lemma TakesExactly(kind: Kind, name: string, key: string, routingKey: string)
    requires SameKind(kind, name)
    ensures Reaches(kind, key, routingKey) <==> Takes(name, key, routingKey)
  {
    WordsMatchExact(Split(key), Split(routingKey));
  }

  lemma AgreedRoutes(s: State, h: History, x: string, routingKey: string, q: nat)
    requires Linked(s) && Agrees(s, h) && x != ""
    ensures q in Destinations(s, x, routingKey) <==>
            exists b :: b in h.bound && b.exchange == x && b.queue == q && Takes(h.kinds[x], b.key, routingKey)
  {
    if x in s.exchanges {
      var e := s.exchanges[x];
      forall b: Binding ensures Reaches(e.kind, b.key, routingKey) <==> Takes(h.kinds[x], b.key, routingKey) {
        TakesExactly(e.kind, h.kinds[x], b.key, routingKey);
      }
      if q in Destinations(s, x, routingKey) {
        var b :| b in e.bindings && b.target == q && Reaches(e.kind, b.key, routingKey);
        assert Bound(x, b.target, b.key) in h.bound;
      }
      if b :| b in h.bound && b.exchange == x && b.queue == q && Takes(h.kinds[x], b.key, routingKey) {
        assert Binding(b.queue, b.key) in e.bindings;
      }
    }
  }

  // ----- every step keeps them agreed -----

  lemma {:induction false} PublishKeepsExchanges(s: State, m: Message, reached: seq<nat>)
    requires Linked(s) && forall i :: 0 <= i < |reached| ==> reached[i] < |s.queues|
    ensures PublishTo(s, m, reached).exchanges == s.exchanges
    decreases |reached|
  {
    if reached != [] {
      PublishKeepsExchanges(Dispatch(Enqueue(s, reached[0], m), reached[0]), m, reached[1..]);
    }
  }

  lemma {:induction false} SettleKeepsExchanges(s: State, c: nat, tags: seq<nat>, requeue: bool)
    requires Linked(s) && c < |s.conns| && Distinct(tags) && forall t :: t in tags ==> t in s.conns[c].held
    ensures SettleAll(s, c, tags, requeue).exchanges == s.exchanges
    decreases |tags|
  {
    if tags != [] {
      var source := s.conns[c].held[tags[0]].queue;
      assert ConnLinked(s.conns[c], c, |s.queues|);
      var given := Give(s, c, tags[0], requeue);
      var next := Dispatch(given, source);
      assert HeldKept(given.conns[c], next.conns[c]);
      SettleKeepsExchanges(next, c, tags[1..], requeue);
    }
  }

  lemma {:induction false} GiveAllKeepsExchanges(s: State, c: nat, tags: seq<nat>)
    requires Linked(s) && c < |s.conns| && Distinct(tags) && forall t :: t in tags ==> t in s.conns[c].held
    ensures GiveAll(s, c, tags).exchanges == s.exchanges
    decreases |tags|
  {
    if tags != [] {
      GiveAllKeepsExchanges(Give(s, c, tags[0], true), c, tags[1..]);
    }
  }

  lemma {:induction false} DropAllKeepsExchanges(s: State, c: nat, tags: seq<string>)
    requires Linked(s) && c < |s.conns| && forall t :: t in tags ==> t in s.conns[c].consumers
    ensures DropAll(s, c, tags).exchanges == s.exchanges
    decreases |tags|
  {
    if tags != [] {
      assert ConnLinked(s.conns[c], c, |s.queues|);
      DropAllKeepsExchanges(DropConsumer(s, s.conns[c].consumers[tags[0]].queue, tags[0]), c, tags[1..]);
    }
  }

  /** No operation but a declaration, a binding and a deletion touches the exchanges. */
  lemma ExchangesStay(s: State, op: Op)
    requires Linked(s) && Admissible(s, op) && !op.DeclareExchange? && !op.Bind? && !op.Delete?
    ensures Step(s, op).0.exchanges == s.exchanges
  {
    match op
    case Publish(m) => PublishKeepsExchanges(s, m, Destinations(s, m.exchange, m.routingKey));
    case Consume(c, name, tag, channel, noAck) => ConsumeKeepsExchanges(s, c, name, tag, channel, noAck);
    case Settle(c, tag, channel, multiple, requeue) => SettleStays(s, c, tag, channel, multiple, requeue);
    case Close(c, tags, held, order) => CloseKeepsExchanges(s, c, tags, held, order);
    case _ =>
  }

  lemma ConsumeKeepsExchanges(s: State, c: nat, name: string, tag: string, channel: nat, noAck: bool)
    requires Linked(s) && c < |s.conns|
    ensures DoConsume(s, c, name, tag, channel, noAck).0.exchanges == s.exchanges
  {
  }

  lemma SettleStays(s: State, c: nat, tag: nat, channel: nat, multiple: bool, requeue: bool)
    requires Linked(s) && c < |s.conns|
    ensures DoSettle(s, c, tag, channel, multiple, requeue).0.exchanges == s.exchanges
  {
    NamedAreHeld(s.conns[c], tag, channel, multiple);
    var tags := TagsNamed(s.conns[c], tag, channel, multiple);
    if tags.Some? {
      SettleKeepsExchanges(s, c, tags.value, requeue);
    }
  }

  lemma CloseKeepsExchanges(s: State, c: nat, tags: seq<string>, held: seq<nat>, order: seq<nat>)
    requires Linked(s) && Admissible(s, Close(c, tags, held, order))
    ensures DoClose(s, c, tags, held, order).0.exchanges == s.exchanges
  {
    DropAllKeepsExchanges(s, c, tags);
    GiveAllKeepsExchanges(Deaf(DropAll(s, c, tags), c), c, held);
  }

  lemma DeclareAgrees(s: State, h: History, x: string, kind: string, passive: bool)
    requires Linked(s) && Agrees(s, h)
    ensures Agrees(DoDeclareExchange(s, x, kind, passive).0, Told(s, h, DeclareExchange(x, kind, passive)))
  {
    var r, k := DoDeclareExchange(s, x, kind, passive).0, Told(s, h, DeclareExchange(x, kind, passive));
    if r.exchanges != s.exchanges {
      assert r.exchanges[x].bindings == [];
      assert forall b :: b in h.bound ==> b.exchange != x;
    }
  }

  lemma BindAgrees(s: State, h: History, name: string, x: string, key: string)
    requires Linked(s) && Agrees(s, h)
    ensures Agrees(DoBind(s, name, x, key).0, Told(s, h, Op.Bind(name, x, key)))
  {
    var r, k := DoBind(s, name, x, key).0, Told(s, h, Op.Bind(name, x, key));
    if name in s.names && x in h.kinds {
      var q := s.names[name];
      assert r.exchanges.Keys == s.exchanges.Keys;
      forall y | y in r.exchanges ensures SameBindings(r.exchanges[y], y, k.bound) {
        assert SameBindings(s.exchanges[y], y, h.bound);
        if y == x {
          assert r.exchanges[x].bindings == s.exchanges[x].bindings + [Binding(q, key)];
        }
      }
    }
  }

  lemma {:induction false} ForgetKeepsExchanges(s: State, listed: seq<Consumer>)
    requires Linked(s) && forall i :: 0 <= i < |listed| ==> listed[i].owner < |s.conns|
    ensures ForgetAll(s, listed).exchanges == s.exchanges
  {
  }

  lemma DeleteAgrees(s: State, h: History, name: string)
    requires Linked(s) && Agrees(s, h)
    ensures Agrees(DoDelete(s, name).0, Told(s, h, Delete(name)))
  {
    if name in s.names {
      var q := s.names[name];
      var r, k := DoDelete(s, name).0, Told(s, h, Delete(name));
      RemovedExchanges(s, q);
      assert r.exchanges.Keys == s.exchanges.Keys;
      forall y | y in r.exchanges ensures SameBindings(r.exchanges[y], y, k.bound) {
        assert SameBindings(s.exchanges[y], y, h.bound);
        assert r.exchanges[y].bindings == UnbindAll(s.exchanges[y].bindings, q);
      }
    }
  }

  lemma RemovedExchanges(s: State, q: nat)
    requires Linked(s) && q < |s.queues|
    ensures Removed(s, q).exchanges == Unnamed(s, q).exchanges
  {
  }

  lemma StepAgrees(s: State, h: History, op: Op)
    requires Linked(s) && Agrees(s, h) && Admissible(s, op)
    ensures Agrees(Step(s, op).0, Told(s, h, op))
  {
    match op
    case DeclareExchange(x, kind, passive) => DeclareAgrees(s, h, x, kind, passive);
    case Bind(name, x, key) => BindAgrees(s, h, name, x, key);
    case Delete(name) => DeleteAgrees(s, h, name);
    case _ => ExchangesStay(s, op);
  }

  lemma {:induction false} RunAgrees(s: State, h: History, ops: seq<Op>)
    requires Linked(s) && Agrees(s, h) && Runs(s, ops)
    ensures Agrees(Run(s, ops), Remembered(s, h, ops))
    decreases |ops|
  {
    if ops != [] {
      StepLinked(s, ops[0]);
      StepAgrees(s, h, ops[0]);
      RunAgrees(Step(s, ops[0]).0, Told(s, h, ops[0]), ops[1..]);
    }
  }

  const NOTHING := History(map[], {})

  /**
   After every run a message reaches, by an exchange, exactly the queues with a
   standing binding that takes it: any at all where the exchange was declared
   fanout, one of the very key where direct, one whose words fit where topic. By
   the default exchange it reaches the queue of that name alone.
   */
  lemma RoutesExactly(ops: seq<Op>, x: string, routingKey: string, q: nat)
    requires Runs(INIT, ops)
    ensures var s := Run(INIT, ops);
            var h := Remembered(INIT, NOTHING, ops);
            && (x != "" ==> (q in Destinations(s, x, routingKey) <==>
                  exists b :: b in h.bound && b.exchange == x && b.queue == q && x in h.kinds && Takes(h.kinds[x], b.key, routingKey)))
            && (q in Destinations(s, "", routingKey) <==> routingKey in s.names && s.names[routingKey] == q)
  {
    RunAgrees(INIT, NOTHING, ops);
    if x != "" {
      AgreedRoutes(Run(INIT, ops), Remembered(INIT, NOTHING, ops), x, routingKey, q);
    }
  }

  // ----- what is declared and bound -----

  /** Only a new name of a kind there is makes an exchange, one without bindings; every other declaration changes nothing. */
  lemma DeclareExchangeMeans(s: State, x: string, kind: string, passive: bool)
    ensures var (r, reply) := DoDeclareExchange(s, x, kind, passive);
            if x == "" then r == s && reply == Refused(403)
            else if passive then r == s && (if x in s.exchanges then reply.Done? else reply == Refused(404))
            else if !KnownKind(kind) then r == s && reply == Refused(503)
            else if x in s.exchanges then
              r == s && (if SameKind(s.exchanges[x].kind, kind) then reply.Done? else reply == Refused(406))
            else
              && reply.Done? && r.exchanges.Keys == s.exchanges.Keys + {x} && r == s.(exchanges := r.exchanges)
              && SameKind(r.exchanges[x].kind, kind) && r.exchanges[x].bindings == []
              && forall y :: y in s.exchanges ==> r.exchanges[y] == s.exchanges[y]
  {
  }

  /** A binding goes behind those the exchange has, and changes nothing else; without the queue or the exchange it is refused. */
  lemma BindMeans(s: State, name: string, x: string, key: string)
    requires Linked(s)
    ensures var (r, reply) := DoBind(s, name, x, key);
            if name !in s.names then r == s && reply == Refused(404)
            else if x == "" then r == s && reply == Refused(403)
            else if x !in s.exchanges then r == s && reply == Refused(404)
            else
              && reply.Done? && r.exchanges.Keys == s.exchanges.Keys && r == s.(exchanges := r.exchanges)
              && r.exchanges[x].kind == s.exchanges[x].kind
              && r.exchanges[x].bindings == s.exchanges[x].bindings + [Binding(s.names[name], key)]
              && forall y :: y in s.exchanges && y != x ==> r.exchanges[y] == s.exchanges[y]
  {
  }
}
