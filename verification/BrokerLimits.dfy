/**
 What closing a connection leaves listed, where consumers are dropped by their
 tag alone: exactly when all of its own consumers go, and exactly when those of
 every other connection stay.
 */
module BrokerLimits {
  import opened Common
  import opened Routing
  import opened Broker
  import opened BrokerOps
  import opened BrokerFairness
  import opened BrokerWork
  import opened BrokerRuns

  // ----- closing a connection whose tag another one also uses -----

  /** The list without the first consumer of each of the tags. */
  function Without(listed: seq<Consumer>, tags: set<string>): seq<Consumer> {
    if listed == [] then []
    else if listed[0].tag in tags then Without(listed[1..], tags - {listed[0].tag})
    else [listed[0]] + Without(listed[1..], tags)
  }

  lemma {:induction false} WithoutOneMore(listed: seq<Consumer>, tag: string, tags: set<string>)
    requires tag !in tags
    ensures Without(Dropped(listed, tag), tags) == Without(listed, tags + {tag})
  {
    if listed != [] {
      var head, rest := listed[0], listed[1..];
      if head.tag == tag {
        assert tags + {tag} - {tag} == tags;
      } else {
        var kept := Dropped(rest, tag);
        assert Dropped(listed, tag) == [head] + kept && ([head] + kept)[1..] == kept;
        if head.tag in tags {
          WithoutOneMore(rest, tag, tags - {head.tag});
          assert tags + {tag} - {head.tag} == tags - {head.tag} + {tag};
        } else {
          WithoutOneMore(rest, tag, tags);
        }
      }
    }
  }

  lemma {:induction false} WithoutNone(listed: seq<Consumer>)
    ensures Without(listed, {}) == listed
  {
    if listed != [] { WithoutNone(listed[1..]); }
  }

  /** Dropping a tag the list does not have changes nothing. */
  lemma {:induction false} DroppedAbsent(listed: seq<Consumer>, tag: string)
    requires forall k :: k in listed ==> k.tag != tag
    ensures Dropped(listed, tag) == listed
  {
    if listed != [] {
      assert listed[0] in listed;
      DroppedAbsent(listed[1..], tag);
    }
  }

  /** The tags among those given that connection c registered on queue q. */
  ghost function TagsOn(c: Connection, tags: seq<string>, q: nat): set<string> {
    set t | t in tags && t in c.consumers && c.consumers[t].queue == q
  }

  lemma DropConsumerIsDropped(s: State, q: nat, tag: string)
    requires Linked(s) && q < |s.queues|
    ensures DropConsumer(s, q, tag).queues[q].consumers == Dropped(s.queues[q].consumers, tag)
  {
    if !(exists k :: k in s.queues[q].consumers && k.tag == tag) {
      DroppedAbsent(s.queues[q].consumers, tag);
    }
  }

  lemma TagsOnOneMore(c: Connection, tags: seq<string>, q: nat)
    requires tags != [] && Distinct(tags) && forall t :: t in tags ==> t in c.consumers
    ensures var later := TagsOn(c, tags[1..], q);
            && tags[0] !in later
            && TagsOn(c, tags, q) == if c.consumers[tags[0]].queue == q then later + {tags[0]} else later
  {
    assert tags == [tags[0]] + tags[1..];
  }

  lemma {:induction false} DropAllIsWithout(s: State, c: nat, tags: seq<string>, q: nat)
    requires Linked(s) && c < |s.conns| && Distinct(tags) && (forall t :: t in tags ==> t in s.conns[c].consumers)
    requires q < |s.queues|
    ensures DropAll(s, c, tags).queues[q].consumers == Without(s.queues[q].consumers, TagsOn(s.conns[c], tags, q))
    decreases |tags|
  {
    var conn := s.conns[c];
    if tags == [] {
      WithoutNone(s.queues[q].consumers);
      assert TagsOn(conn, tags, q) == {};
    } else {
      assert ConnLinked(conn, c, |s.queues|);
      var p := conn.consumers[tags[0]].queue;
      DropAllIsWithout(DropConsumer(s, p, tags[0]), c, tags[1..], q);
      TagsOnOneMore(conn, tags, q);
      if p == q {
        DropConsumerIsDropped(s, q, tags[0]);
        WithoutOneMore(s.queues[q].consumers, tags[0], TagsOn(conn, tags[1..], q));
      }
    }
  }

  /** Consumer i of the list is the first with its tag, and its tag is among those given. */
  ghost predicate Droppable(listed: seq<Consumer>, i: nat, tags: set<string>)
    requires i < |listed|
  {
    listed[i].tag in tags && forall j :: 0 <= j < i ==> listed[j].tag != listed[i].tag
  }

  lemma {:induction false} WithoutExact(listed: seq<Consumer>, tags: set<string>, c: nat)
    ensures (forall k :: k in Without(listed, tags) ==> k.owner != c)
            <==> (forall i :: 0 <= i < |listed| && listed[i].owner == c ==> Droppable(listed, i, tags))
  {
    if listed != [] {
      var head, rest := listed[0], listed[1..];
      var fewer := if head.tag in tags then tags - {head.tag} else tags;
      WithoutExact(rest, fewer, c);
      assert forall i :: 0 <= i < |rest| ==> rest[i] == listed[i + 1];
      forall i | 0 <= i < |rest| ensures Droppable(rest, i, fewer) <==> Droppable(listed, i + 1, tags) {
        DroppableShift(listed, i, tags);
      }
      if forall i :: 0 <= i < |rest| && rest[i].owner == c ==> Droppable(rest, i, fewer) {
        forall i | 1 <= i < |listed| && listed[i].owner == c ensures Droppable(listed, i, tags) {
          assert Droppable(rest, i - 1, fewer);
        }
      } else {
        var i :| 0 <= i < |rest| && rest[i].owner == c && !Droppable(rest, i, fewer);
        assert !Droppable(listed, i + 1, tags);
      }
      if head.tag !in tags {
        assert Without(listed, tags)[0] == head;
        assert !Droppable(listed, 0, tags);
      } else {
        assert Droppable(listed, 0, tags);
      }
    }
  }

  lemma DroppableShift(listed: seq<Consumer>, i: nat, tags: set<string>)
    requires i + 1 < |listed|
    ensures var fewer := if listed[0].tag in tags then tags - {listed[0].tag} else tags;
            Droppable(listed[1..], i, fewer) <==> Droppable(listed, i + 1, tags)
  {
    var rest := listed[1..];
    if Droppable(listed, i + 1, tags) {
      forall j | 0 <= j < i ensures rest[j].tag != rest[i].tag { assert listed[j + 1].tag != listed[i + 1].tag; }
      assert listed[0].tag != listed[i + 1].tag;
    }
    var fewer := if listed[0].tag in tags then tags - {listed[0].tag} else tags;
    if Droppable(rest, i, fewer) {
      forall j | 0 <= j < i + 1 ensures listed[j].tag != listed[i + 1].tag {
        if j > 0 { assert rest[j - 1].tag != rest[i].tag; }
      }
    }
  }

  /** Each consumer c has listed is registered with it there and is the first listed under its tag. */
  ghost predicate Separable(s: State, c: nat)
    requires c < |s.conns|
  {
    forall q, i :: 0 <= q < |s.queues| && 0 <= i < |s.queues[q].consumers| && s.queues[q].consumers[i].owner == c ==>
      Droppable(s.queues[q].consumers, i, TagsAt(s.conns[c], q))
  }

  ghost function TagsAt(c: Connection, q: nat): set<string> {
    set t | t in c.consumers && c.consumers[t].queue == q
  }

  ghost predicate Silent(s: State, c: nat) {
    forall q, k :: 0 <= q < |s.queues| && k in s.queues[q].consumers ==> k.owner != c
  }

  lemma {:induction false} GiveAllLists(s: State, c: nat, tags: seq<nat>, q: nat)
    requires Linked(s) && c < |s.conns| && Distinct(tags) && (forall t :: t in tags ==> t in s.conns[c].held)
    requires q < |s.queues|
    ensures GiveAll(s, c, tags).queues[q].consumers == s.queues[q].consumers
    decreases |tags|
  {
    if tags != [] { GiveAllLists(Give(s, c, tags[0], true), c, tags[1..], q); }
  }

  lemma {:induction false} GiveAllHeld(s: State, c: nat, tags: seq<nat>, t: nat)
    requires Linked(s) && c < |s.conns| && Distinct(tags) && (forall t :: t in tags ==> t in s.conns[c].held)
    ensures t in GiveAll(s, c, tags).conns[c].held ==> t in s.conns[c].held && t !in tags
    decreases |tags|
  {
    if tags != [] { GiveAllHeld(Give(s, c, tags[0], true), c, tags[1..], t); }
  }

  lemma SilentHandNext(s: State, q: nat, c: nat)
    requires Linked(s) && q < |s.queues| && c < |s.conns| && Silent(s, c)
    requires s.queues[q].ready != [] && Taker(s, q).0.Some?
    ensures HandNext(s, q).conns[c] == s.conns[c]
  {
    assert Taker(s, q).0.value.owner != c;
  }

  lemma SilentKept(s: State, r: State, c: nat)
    requires OnlyHands(s, r) && Silent(s, c)
    ensures Silent(r, c)
  {
    forall p, k | 0 <= p < |r.queues| && k in r.queues[p].consumers ensures k.owner != c {
      assert k in s.queues[p].consumers;
    }
  }

  lemma {:induction false} SilentDispatch(s: State, q: nat, c: nat)
    requires Linked(s) && q < |s.queues| && c < |s.conns| && Silent(s, c)
    ensures Dispatch(s, q).conns[c] == s.conns[c] && Silent(Dispatch(s, q), c)
    decreases |s.queues[q].ready|
  {
    SilentKept(s, Dispatch(s, q), c);
    if s.queues[q].ready != [] && Taker(s, q).0.Some? {
      SilentHandNext(s, q, c);
      SilentKept(s, HandNext(s, q), c);
      SilentDispatch(HandNext(s, q), q, c);
    }
  }

  lemma {:induction false} SilentDispatchAll(s: State, order: seq<nat>, c: nat)
    requires Linked(s) && c < |s.conns| && Silent(s, c) && forall i :: 0 <= i < |order| ==> order[i] < |s.queues|
    ensures DispatchAll(s, order).conns[c] == s.conns[c]
    decreases |order|
  {
    if order != [] {
      SilentDispatch(s, order[0], c);
      SilentDispatchAll(Dispatch(s, order[0]), order[1..], c);
    }
  }

  /** Giving back and dispatching leave the lists of consumers alone. */
  lemma CloseLists(s: State, c: nat, tags: seq<string>, held: seq<nat>, order: seq<nat>)
    requires Linked(s) && Admissible(s, Close(c, tags, held, order))
    ensures var d := DropAll(s, c, tags);
            var s2 := GiveAll(Deaf(d, c), c, held);
            && (forall i :: 0 <= i < |order| ==> order[i] < |s2.queues|)
            && (Silent(s2, c) <==> Silent(d, c)) && (Silent(DispatchAll(s2, order), c) <==> Silent(d, c))
  {
    var d := DropAll(s, c, tags);
    var s1 := Deaf(d, c);
    var s2 := GiveAll(s1, c, held);
    forall q | 0 <= q < |s.queues| ensures s2.queues[q].consumers == d.queues[q].consumers {
      GiveAllLists(s1, c, held, q);
    }
    forall i | 0 <= i < |order| ensures order[i] < |s2.queues| {
      assert order[i] in s.names.Values;
    }
    var r := DispatchAll(s2, order);
    assert forall q :: 0 <= q < |s.queues| ==> r.queues[q].consumers == d.queues[q].consumers;
  }

  /**
   A closed connection is listed nowhere exactly when its consumers could be told
   apart by their tags; and then nothing is left in its hands.
   */
  lemma CloseExact(s: State, c: nat, tags: seq<string>, held: seq<nat>, order: seq<nat>)
    requires Linked(s) && Admissible(s, Close(c, tags, held, order))
    ensures var r := DoClose(s, c, tags, held, order).0;
            && (Silent(r, c) <==> Separable(s, c))
            && (Separable(s, c) ==> c < |r.conns| && r.conns[c].held == map[] && r.conns[c].consumers == map[])
  {
    var s1 := Deaf(DropAll(s, c, tags), c);
    var s2 := GiveAll(s1, c, held);
    CloseLists(s, c, tags, held, order);
    SilentExact(s, c, tags);
    if Separable(s, c) {
      SilentDispatchAll(s2, order, c);
      forall t: nat ensures t !in s2.conns[c].held {
        GiveAllHeld(s1, c, held, t);
      }
      GiveAllConsumers(s1, c, held);
    }
  }

  lemma {:induction false} GiveAllConsumers(s: State, c: nat, tags: seq<nat>)
    requires Linked(s) && c < |s.conns| && Distinct(tags) && forall t :: t in tags ==> t in s.conns[c].held
    ensures GiveAll(s, c, tags).conns[c].consumers == s.conns[c].consumers
    decreases |tags|
  {
    if tags != [] { GiveAllConsumers(Give(s, c, tags[0], true), c, tags[1..]); }
  }

  lemma SilentExact(s: State, c: nat, tags: seq<string>)
    requires Linked(s) && c < |s.conns| && IsOrder(tags, s.conns[c].consumers.Keys)
    ensures Silent(DropAll(s, c, tags), c) <==> Separable(s, c)
  {
    var d := DropAll(s, c, tags);
    forall q | 0 <= q < |s.queues|
      ensures (forall k :: k in d.queues[q].consumers ==> k.owner != c) <==>
              (forall i :: 0 <= i < |s.queues[q].consumers| && s.queues[q].consumers[i].owner == c ==>
                 Droppable(s.queues[q].consumers, i, TagsAt(s.conns[c], q)))
    {
      DropAllIsWithout(s, c, tags, q);
      assert TagsOn(s.conns[c], tags, q) == TagsAt(s.conns[c], q);
      WithoutExact(s.queues[q].consumers, TagsAt(s.conns[c], q), c);
    }
  }

  // ----- the consumers of the others -----

  /** The consumers that are not the connection's, in order. */
  function Others(listed: seq<Consumer>, c: nat): seq<Consumer> {
    if listed == [] then [] else (if listed[0].owner != c then [listed[0]] else []) + Others(listed[1..], c)
  }

  lemma {:induction false} OthersShrink(listed: seq<Consumer>, tags: set<string>, c: nat)
    ensures |Others(Without(listed, tags), c)| <= |Others(listed, c)|
  {
    if listed != [] {
      if listed[0].tag in tags {
        OthersShrink(listed[1..], tags - {listed[0].tag}, c);
      } else {
        OthersShrink(listed[1..], tags, c);
        OthersCons(listed[0], Without(listed[1..], tags), c);
      }
    }
  }

  lemma OthersCons(head: Consumer, rest: seq<Consumer>, c: nat)
    ensures Others([head] + rest, c) == (if head.owner != c then [head] else []) + Others(rest, c)
  {
    assert ([head] + rest)[1..] == rest;
  }

  /** Whatever a drop of these tags takes is the connection's own. */
  ghost predicate DropsOwn(listed: seq<Consumer>, tags: set<string>, c: nat) {
    forall i :: 0 <= i < |listed| && Droppable(listed, i, tags) ==> listed[i].owner == c
  }

  lemma DropsOwnCons(listed: seq<Consumer>, tags: set<string>, c: nat)
    requires listed != []
    ensures var fewer := if listed[0].tag in tags then tags - {listed[0].tag} else tags;
            DropsOwn(listed, tags, c) <==> (listed[0].tag in tags ==> listed[0].owner == c) && DropsOwn(listed[1..], fewer, c)
  {
    var fewer := if listed[0].tag in tags then tags - {listed[0].tag} else tags;
    var rest := listed[1..];
    assert Droppable(listed, 0, tags) <==> listed[0].tag in tags;
    forall i | 0 <= i < |rest| ensures Droppable(rest, i, fewer) <==> Droppable(listed, i + 1, tags) {
      DroppableShift(listed, i, tags);
    }
    if DropsOwn(rest, fewer, c) {
      forall i | 1 <= i < |listed| && Droppable(listed, i, tags) ensures listed[i].owner == c {
        assert Droppable(rest, i - 1, fewer);
      }
    }
    if DropsOwn(listed, tags, c) {
      forall i | 0 <= i < |rest| && Droppable(rest, i, fewer) ensures rest[i].owner == c {
        assert Droppable(listed, i + 1, tags);
      }
    }
  }

  lemma {:induction false} OthersStayExactly(listed: seq<Consumer>, tags: set<string>, c: nat)
    ensures Others(Without(listed, tags), c) == Others(listed, c) <==> DropsOwn(listed, tags, c)
  {
    if listed != [] {
      var head, rest := listed[0], listed[1..];
      var fewer := if head.tag in tags then tags - {head.tag} else tags;
      DropsOwnCons(listed, tags, c);
      OthersStayExactly(rest, fewer, c);
      OthersShrink(rest, fewer, c);
      if head.tag !in tags {
        OthersCons(head, Without(rest, tags), c);
        OthersSame(head, Others(Without(rest, tags), c), Others(rest, c), c);
      }
    }
  }

  lemma OthersSame(head: Consumer, a: seq<Consumer>, b: seq<Consumer>, c: nat)
    ensures var first := if head.owner != c then [head] else []; first + a == first + b <==> a == b
  {
    var first := if head.owner != c then [head] else [];
    assert (first + a)[|first|..] == a && (first + b)[|first|..] == b;
  }

  /** For each tag the connection has on a queue, the first listed under it there is its own. */
  ghost predicate Sparing(s: State, c: nat)
    requires c < |s.conns|
  {
    forall q :: 0 <= q < |s.queues| ==> DropsOwn(s.queues[q].consumers, TagsAt(s.conns[c], q), c)
  }

  ghost predicate OthersStay(s: State, r: State, c: nat) {
    |r.queues| == |s.queues| &&
    forall q :: 0 <= q < |s.queues| ==> Others(r.queues[q].consumers, c) == Others(s.queues[q].consumers, c)
  }

  /** A close leaves the consumers of all other connections listed if and only if it drops none that is not its own. */
  lemma CloseSparesExactly(s: State, c: nat, tags: seq<string>, held: seq<nat>, order: seq<nat>)
    requires Linked(s) && Admissible(s, Close(c, tags, held, order))
    ensures OthersStay(s, DoClose(s, c, tags, held, order).0, c) <==> Sparing(s, c)
  {
    var d, r := DropAll(s, c, tags), DoClose(s, c, tags, held, order).0;
    CloseKeepsLists(s, c, tags, held, order);
    forall q | 0 <= q < |s.queues|
      ensures Others(r.queues[q].consumers, c) == Others(s.queues[q].consumers, c) <==>
              DropsOwn(s.queues[q].consumers, TagsAt(s.conns[c], q), c)
    {
      DropAllIsWithout(s, c, tags, q);
      assert TagsOn(s.conns[c], tags, q) == TagsAt(s.conns[c], q);
      OthersStayExactly(s.queues[q].consumers, TagsAt(s.conns[c], q), c);
    }
  }

  lemma CloseKeepsLists(s: State, c: nat, tags: seq<string>, held: seq<nat>, order: seq<nat>)
    requires Linked(s) && Admissible(s, Close(c, tags, held, order))
    ensures var d, r := DropAll(s, c, tags), DoClose(s, c, tags, held, order).0;
            |r.queues| == |s.queues| && forall q :: 0 <= q < |s.queues| ==> r.queues[q].consumers == d.queues[q].consumers
  {
    var d := DropAll(s, c, tags);
    var s1 := Deaf(d, c);
    forall q | 0 <= q < |s.queues| ensures GiveAll(s1, c, held).queues[q].consumers == d.queues[q].consumers {
      GiveAllLists(s1, c, held, q);
    }
  }

  /** At the end of the run to two connections under one tag, neither condition holds of the second. */
  lemma TwinsInseparable()
    ensures Arrives(INIT, TWINNING, TWINS) && !Separable(TWINS, 1) && !Sparing(TWINS, 1)
  {
    TwinsClosed();
    var listed := TWINS.queues[0].consumers;
    assert listed[1] == SECOND && listed[0] == FIRST;
    assert !Droppable(listed, 1, TagsAt(TWINS.conns[1], 0)) by { assert listed[0].tag == listed[1].tag; }
    assert "t" in TagsAt(TWINS.conns[1], 0);
    assert Droppable(listed, 0, TagsAt(TWINS.conns[1], 0));
    assert !DropsOwn(listed, TagsAt(TWINS.conns[1], 0), 1);
  }
}
