/**
 What the collection commands leave and answer, said without the walk over their
 arguments: contents as sets, sequences and maps, and counts as the difference a
 command made.
 */
module KvMeaning {
  import opened Common
  import opened KvSpace

  function AsSet(names: seq<string>): set<string> {
    set n | n in names
  }

  // ----- sets -----

  lemma {:induction false} SaddExact(members: set<string>, names: seq<string>)
    ensures WithMembers(members, names) == members + AsSet(names)
    ensures |WithMembers(members, names)| == |members| + MembersAdded(members, names)
    decreases |names|
  {
    if names != [] {
      var grown := members + {names[0]};
      SaddExact(grown, names[1..]);
      FirstName(names);
      if names[0] in members {
        assert grown == members;
      }
    }
  }

  lemma {:induction false} SremExact(members: set<string>, names: seq<string>)
    ensures WithoutMembers(members, names) == members - AsSet(names)
    ensures |WithoutMembers(members, names)| == |members| - MembersRemoved(members, names)
    decreases |names|
  {
    if names != [] {
      var left := members - {names[0]};
      SremExact(left, names[1..]);
      FirstName(names);
      if names[0] !in members {
        assert left == members;
      }
    }
  }

  // ----- hashes -----

  function Named(pairs: seq<(string, string)>): set<string> {
    if pairs == [] then {} else {pairs[0].0} + Named(pairs[1..])
  }

  /** The last value a list of pairs gives a field. */
  function LastOf(pairs: seq<(string, string)>, f: string): (v: Option<string>)
    ensures v.Some? <==> f in Named(pairs)
  {
    if pairs == [] then None
    else
      var later := LastOf(pairs[1..], f);
      if later.Some? then later else if pairs[0].0 == f then Some(pairs[0].1) else None
  }

  lemma {:induction false} HsetExact(fields: map<string, string>, pairs: seq<(string, string)>, f: string)
    ensures f in WithFields(fields, pairs) <==> f in fields || f in Named(pairs)
    ensures f in WithFields(fields, pairs) ==>
              WithFields(fields, pairs)[f] == if f in Named(pairs) then LastOf(pairs, f).value else fields[f]
    decreases |pairs|
  {
    if pairs != [] {
      HsetExact(fields[pairs[0].0 := pairs[0].1], pairs[1..], f);
    }
  }

  lemma {:induction false} HsetCounts(fields: map<string, string>, pairs: seq<(string, string)>)
    ensures |WithFields(fields, pairs)| == |fields| + FieldsAdded(fields, pairs)
    decreases |pairs|
  {
    if pairs != [] {
      FieldWritten(fields, pairs[0].0, pairs[0].1);
      HsetCounts(fields[pairs[0].0 := pairs[0].1], pairs[1..]);
    }
  }

  lemma FieldWritten(fields: map<string, string>, f: string, v: string)
    ensures |fields[f := v]| == |fields| + if f in fields then 0 else 1
  {
    assert fields[f := v].Keys == fields.Keys + {f};
    assert |fields[f := v].Keys| == |fields.Keys| + if f in fields then 0 else 1;
  }

  lemma {:induction false} HdelExact(fields: map<string, string>, names: seq<string>)
    ensures WithoutFields(fields, names) == fields - AsSet(names)
    decreases |names|
  {
    if names == [] {
      assert fields - {} == fields;
    } else {
      HdelExact(fields - {names[0]}, names[1..]);
      FirstName(names);
      TakenTwice(fields, names[0], AsSet(names[1..]));
    }
  }

  lemma FirstName(names: seq<string>)
    requires names != []
    ensures AsSet(names) == {names[0]} + AsSet(names[1..])
  {
  }

  lemma TakenTwice<V>(m: map<string, V>, key: string, keys: set<string>)
    ensures m - {key} - keys == m - ({key} + keys)
  {
  }

  lemma {:induction false} HdelCounts(fields: map<string, string>, names: seq<string>)
    ensures |WithoutFields(fields, names)| == |fields| - FieldsRemoved(fields, names)
    decreases |names|
  {
    if names != [] {
      FieldTaken(fields, names[0]);
      HdelCounts(fields - {names[0]}, names[1..]);
    }
  }

  lemma FieldTaken(fields: map<string, string>, f: string)
    ensures |fields - {f}| == |fields| - if f in fields then 1 else 0
  {
    assert (fields - {f}).Keys == fields.Keys - {f};
    assert |(fields - {f}).Keys| == |fields.Keys| - if f in fields then 1 else 0;
  }

  // ----- lists -----

  function Reversed(items: seq<string>): seq<string> {
    if items == [] then [] else Reversed(items[1..]) + [items[0]]
  }

  lemma {:induction false} PushExact(list: seq<string>, front: bool, items: seq<string>)
    ensures WithItems(list, front, items) == if front then Reversed(items) + list else list + items
    decreases |items|
  {
    if items != [] {
      PushExact(if front then [items[0]] + list else list + [items[0]], front, items[1..]);
      if front {
        assert Reversed(items[1..]) + ([items[0]] + list) == Reversed(items[1..]) + [items[0]] + list;
      } else {
        assert list + [items[0]] + items[1..] == list + items;
      }
    }
  }

  lemma {:induction false} ReversedLength(items: seq<string>)
    ensures |Reversed(items)| == |items|
  {
    if items != [] {
      ReversedLength(items[1..]);
    }
  }

  lemma {:induction false} ReversedLast(items: seq<string>)
    requires items != []
    ensures Reversed(items) == [items[|items| - 1]] + Reversed(items[..|items| - 1])
    decreases |items|
  {
    var n := |items| - 1;
    if n > 0 {
      ReversedLast(items[1..]);
      assert items[1..][..n - 1] == items[..n][1..] && items[1..][n - 1] == items[n];
      assert Reversed(items[..n]) == Reversed(items[..n][1..]) + [items[0]];
    } else {
      assert items[..0] == [] && items[1..] == [];
    }
  }

  lemma {:induction false} ReversedJoin(a: seq<string>, b: seq<string>)
    ensures Reversed(a + b) == Reversed(b) + Reversed(a)
    decreases |a|
  {
    if a == [] {
      assert a + b == b && Reversed(b) + [] == Reversed(b);
    } else {
      assert (a + b)[1..] == a[1..] + b;
      ReversedJoin(a[1..], b);
      assert Reversed(b) + Reversed(a[1..]) + [a[0]] == Reversed(b) + (Reversed(a[1..]) + [a[0]]);
    }
  }

  lemma {:induction false} ReversedTwice(items: seq<string>)
    ensures Reversed(Reversed(items)) == items
  {
    if items != [] {
      ReversedTwice(items[1..]);
      ReversedJoin(Reversed(items[1..]), [items[0]]);
      assert [items[0]][1..] == [] && Reversed([items[0]]) == [items[0]];
    }
  }

  // ----- a list as a queue -----

  /** The items in the order pops at that end take them. */
  function InOrder(list: seq<string>, front: bool): (r: seq<string>)
    ensures |r| == |list|
  {
    ReversedLength(list);
    if front then list else Reversed(list)
  }

  /** The replies to n pops, one after the other. */
  function Pops(s: Space, key: string, front: bool, n: nat, now: int): seq<Reply> {
    if n == 0 then []
    else
      var out := ExecOne(s, key, Pop(front), now);
      [out.reply] + Pops(out.space, key, front, n - 1, now)
  }

  function AfterPops(s: Space, key: string, front: bool, n: nat, now: int): Space {
    if n == 0 then s else AfterPops(ExecOne(s, key, Pop(front), now).space, key, front, n - 1, now)
  }

  function Answers(items: seq<string>): seq<Reply> {
    if items == [] then [] else [Bulk(items[0])] + Answers(items[1..])
  }

  /** What one pop takes and leaves. */
  lemma PopTakesFirst(s: Space, key: string, front: bool, now: int)
    requires var held := Lookup(s, key, now); held.Some? && held.value.value.List? && held.value.value.items != []
    ensures var order := InOrder(ItemsOf(Lookup(s, key, now)), front);
            var out := ExecOne(s, key, Pop(front), now);
            && out.reply == Bulk(order[0])
            && InOrder(ItemsOf(Lookup(out.space, key, now)), front) == order[1..]
            && (|order| == 1 ==> Lookup(out.space, key, now) == None)
            && (|order| > 1 ==> Lookup(out.space, key, now).Some? && Lookup(out.space, key, now).value.value.List?)
  {
    var list := ItemsOf(Lookup(s, key, now));
    ReversedLast(list);
    PoppedList(s, key, front, now);
  }

  lemma PoppedList(s: Space, key: string, front: bool, now: int)
    requires var held := Lookup(s, key, now); held.Some? && held.value.value.List? && held.value.value.items != []
    ensures var held := Lookup(s, key, now).value;
            var list := held.value.items;
            var left := if front then list[1..] else list[..|list| - 1];
            var out := ExecOne(s, key, Pop(front), now);
            && out.reply == Bulk(if front then list[0] else list[|list| - 1])
            && Lookup(out.space, key, now) == if left == [] then None else Some(held.(value := List(left)))
  {
  }

  /** Pops take the items of a list in order, and the last one takes the key with it. */
  lemma {:induction false} PopsInOrder(s: Space, key: string, front: bool, now: int)
    requires var held := Lookup(s, key, now); held.Some? && held.value.value.List? && held.value.value.items != []
    ensures var order := InOrder(ItemsOf(Lookup(s, key, now)), front);
            && Pops(s, key, front, |order|, now) == Answers(order)
            && Lookup(AfterPops(s, key, front, |order|, now), key, now) == None
    decreases |ItemsOf(Lookup(s, key, now))|
  {
    var order := InOrder(ItemsOf(Lookup(s, key, now)), front);
    var next := ExecOne(s, key, Pop(front), now).space;
    PopTakesFirst(s, key, front, now);
    if |order| > 1 {
      PopsInOrder(next, key, front, now);
    } else {
      assert order[1..] == [];
    }
  }

  /** The pushed list: at the end of one's order, seen from the other end. */
  lemma PushedOrder(list: seq<string>, front: bool, items: seq<string>)
    ensures InOrder(WithItems(list, front, items), !front) == InOrder(list, !front) + items
  {
    PushExact(list, front, items);
    if front {
      ReversedJoin(Reversed(items), list);
      ReversedTwice(items);
    }
  }

  /** What is pushed at one end comes off the other in the order it was pushed, after all the list already held. */
  lemma PushedIsQueued(s: Space, key: string, front: bool, items: seq<string>, now: int)
    requires items != [] && (Lookup(s, key, now).Some? ==> Lookup(s, key, now).value.value.List?)
    ensures var held := InOrder(ItemsOf(Lookup(s, key, now)), !front);
            var pushed := ExecOne(s, key, Push(front, items), now).space;
            && Pops(pushed, key, !front, |held| + |items|, now) == Answers(held + items)
            && Lookup(AfterPops(pushed, key, !front, |held| + |items|, now), key, now) == None
  {
    var list := ItemsOf(Lookup(s, key, now));
    var pushed := ExecOne(s, key, Push(front, items), now).space;
    PushedMeans(s, key, front, items, now);
    PushedOrder(list, front, items);
    PopsInOrder(pushed, key, !front, now);
  }

  // ----- the commands -----

  /** Every other key shows what it showed. */
  ghost predicate OthersSame(s: Space, r: Space, key: string, now: int) {
    forall k :: k != key ==> Lookup(r, k, now) == Lookup(s, k, now)
  }

  /** What the key shows after a change. */
  function Shown(held: Option<Entry>, change: Change, now: int): Option<Entry> {
    match change
    case Keep => held
    case Write(e) => if Expired(e, now) then None else Some(e)
    case Erase => None
  }

  /** A command shows its effect under its key, and nothing anywhere else. */
  lemma ShowsEffect(s: Space, key: string, verb: Verb, now: int)
    requires Looks(verb, now)
    ensures var held := Lookup(s, key, now);
            var effect := Perform(held, verb, now);
            var out := ExecOne(s, key, verb, now);
            && Lookup(out.space, key, now) == Shown(held, effect.change, now)
            && out.reply == effect.reply && OthersSame(s, out.space, key, now)
  {
    var t := Dropped(s, key, now);
    ApplyShows(t, key, Perform(Lookup(s, key, now), verb, now).change, now);
  }

  lemma ApplyShows(s: Space, key: string, change: Change, now: int)
    ensures Lookup(Apply(s, key, change), key, now) == Shown(Lookup(s, key, now), change, now)
    ensures OthersSame(s, Apply(s, key, change), key, now)
  {
  }

  /** The command is refused, and shows nothing of it. */
  ghost predicate RefusedWith(s: Space, r: Space, reply: Reply, error: Error, now: int) {
    reply == Failed(error) && forall k :: Lookup(r, k, now) == Lookup(s, k, now)
  }

  lemma ShortRefused(s: Space, key: string, verb: Verb, now: int)
    requires Short(verb)
    ensures var out := ExecOne(s, key, verb, now); RefusedWith(s, out.space, out.reply, WrongArity, now)
  {
  }

  lemma MistypedRefused(s: Space, key: string, verb: Verb, now: int)
    requires Looks(verb, now) && Perform(Lookup(s, key, now), verb, now) == Effect(Keep, Failed(WrongType))
    ensures var out := ExecOne(s, key, verb, now); RefusedWith(s, out.space, out.reply, WrongType, now)
  {
    ShowsEffect(s, key, verb, now);
    var out := ExecOne(s, key, verb, now);
    forall k ensures Lookup(out.space, k, now) == Lookup(s, k, now) {
      if k != key { assert OthersSame(s, out.space, key, now); }
    }
  }

  lemma PushedMeans(s: Space, key: string, front: bool, items: seq<string>, now: int)
    requires items != [] && (Lookup(s, key, now).Some? ==> Lookup(s, key, now).value.value.List?)
    ensures var held := Lookup(s, key, now);
            var out := ExecOne(s, key, Push(front, items), now);
            && Lookup(out.space, key, now) == Some(Changed(held, List(WithItems(ItemsOf(held), front, items))))
            && out.reply == Number(|ItemsOf(held)| + |items|) && OthersSame(s, out.space, key, now)
  {
    ShowsEffect(s, key, Push(front, items), now);
  }

  lemma SaddEffect(held: Option<Entry>, names: seq<string>, now: int)
    requires names != [] && (held.Some? ==> held.value.value.Members?)
    ensures var grown := MembersOf(held) + AsSet(names);
            Perform(held, Sadd(names), now) == Effect(Write(Changed(held, Members(grown))), Number(|grown| - |MembersOf(held)|))
  {
    SaddExact(MembersOf(held), names);
  }

  /** SADD leaves the old members and the named ones, and answers how many the set grew by. */
  lemma SaddMeans(s: Space, key: string, names: seq<string>, now: int)
    requires names != [] && (Lookup(s, key, now).Some? ==> Lookup(s, key, now).value.value.Members?)
    ensures var held := Lookup(s, key, now);
            var grown := MembersOf(held) + AsSet(names);
            var out := ExecOne(s, key, Sadd(names), now);
            && Lookup(out.space, key, now) == Some(Changed(held, Members(grown)))
            && out.reply == Number(|grown| - |MembersOf(held)|) && OthersSame(s, out.space, key, now)
  {
    SaddEffect(Lookup(s, key, now), names, now);
    ShowsEffect(s, key, Sadd(names), now);
  }

  lemma SremEffect(held: Entry, names: seq<string>, now: int)
    requires names != [] && held.value.Members?
    ensures var left := held.value.members - AsSet(names);
            Perform(Some(held), Srem(names), now) == Effect(Pruned(held.(value := Members(left))), Number(|held.value.members| - |left|))
  {
    SremExact(held.value.members, names);
  }

  /** All that SADD may answer and leave. */
  ghost predicate SaddDone(s: Space, key: string, names: seq<string>, now: int, r: Space, reply: Reply) {
    var held := Lookup(s, key, now);
    if names == [] then RefusedWith(s, r, reply, WrongArity, now)
    else if held.Some? && !held.value.value.Members? then RefusedWith(s, r, reply, WrongType, now)
    else
      var grown := MembersOf(held) + AsSet(names);
      && Lookup(r, key, now) == Some(Changed(held, Members(grown)))
      && reply == Number(|grown| - |MembersOf(held)|) && OthersSame(s, r, key, now)
  }

  lemma SaddAlways(s: Space, key: string, names: seq<string>, now: int)
    ensures var out := ExecOne(s, key, Sadd(names), now); SaddDone(s, key, names, now, out.space, out.reply)
  {
    var held := Lookup(s, key, now);
    if names == [] {
      ShortRefused(s, key, Sadd(names), now);
    } else if held.Some? && !held.value.value.Members? {
      MistypedRefused(s, key, Sadd(names), now);
    } else {
      SaddMeans(s, key, names, now);
    }
  }

  /** SREM leaves the members not named, or no key at all, and answers how many the set shrank by. */
  lemma SremMeans(s: Space, key: string, names: seq<string>, now: int)
    requires names != [] && Lookup(s, key, now).Some? && Lookup(s, key, now).value.value.Members?
    ensures var held := Lookup(s, key, now).value;
            var left := held.value.members - AsSet(names);
            var out := ExecOne(s, key, Srem(names), now);
            && Lookup(out.space, key, now) == (if |left| == 0 then None else Some(held.(value := Members(left))))
            && out.reply == Number(|held.value.members| - |left|) && OthersSame(s, out.space, key, now)
  {
    SremEffect(Lookup(s, key, now).value, names, now);
    ShowsEffect(s, key, Srem(names), now);
  }

  /** All that SREM may answer and leave. */
  ghost predicate SremDone(s: Space, key: string, names: seq<string>, now: int, r: Space, reply: Reply) {
    var held := Lookup(s, key, now);
    if names == [] then RefusedWith(s, r, reply, WrongArity, now)
    else if held.None? then reply == Number(0) && forall k :: Lookup(r, k, now) == Lookup(s, k, now)
    else if !held.value.value.Members? then RefusedWith(s, r, reply, WrongType, now)
    else
      var left := held.value.value.members - AsSet(names);
      && Lookup(r, key, now) == (if |left| == 0 then None else Some(held.value.(value := Members(left))))
      && reply == Number(|held.value.value.members| - |left|) && OthersSame(s, r, key, now)
  }

  lemma SremAlways(s: Space, key: string, names: seq<string>, now: int)
    ensures var out := ExecOne(s, key, Srem(names), now); SremDone(s, key, names, now, out.space, out.reply)
  {
    var held := Lookup(s, key, now);
    if names == [] {
      ShortRefused(s, key, Srem(names), now);
    } else if held.None? {
      NothingToRemove(s, key, Srem(names), now);
    } else if !held.value.value.Members? {
      MistypedRefused(s, key, Srem(names), now);
    } else {
      SremMeans(s, key, names, now);
    }
  }

  lemma NothingToRemove(s: Space, key: string, verb: Verb, now: int)
    requires Looks(verb, now) && Perform(Lookup(s, key, now), verb, now) == Effect(Keep, Number(0))
    ensures var out := ExecOne(s, key, verb, now); out.reply == Number(0) && forall k :: Lookup(out.space, k, now) == Lookup(s, k, now)
  {
    ShowsEffect(s, key, verb, now);
    var out := ExecOne(s, key, verb, now);
    forall k ensures Lookup(out.space, k, now) == Lookup(s, k, now) {
      if k != key { assert OthersSame(s, out.space, key, now); }
    }
  }

  /** The fields written over others: each named one with its last value. */
  ghost predicate Overlays(after: map<string, string>, before: map<string, string>, pairs: seq<(string, string)>) {
    && (forall f :: f in after <==> f in before || f in Named(pairs))
    && (forall f :: f in after ==> after[f] == if f in Named(pairs) then LastOf(pairs, f).value else before[f])
  }

  lemma HsetOverlays(fields: map<string, string>, pairs: seq<(string, string)>)
    ensures Overlays(WithFields(fields, pairs), fields, pairs)
  {
    forall f ensures f in WithFields(fields, pairs) <==> f in fields || f in Named(pairs) {
      HsetExact(fields, pairs, f);
    }
    forall f | f in WithFields(fields, pairs)
      ensures WithFields(fields, pairs)[f] == if f in Named(pairs) then LastOf(pairs, f).value else fields[f]
    {
      HsetExact(fields, pairs, f);
    }
  }

  lemma HsetEffect(held: Option<Entry>, pairs: seq<(string, string)>, now: int)
    requires pairs != [] && (held.Some? ==> held.value.value.Hash?)
    ensures var after := WithFields(FieldsOf(held), pairs);
            Perform(held, Hset(pairs), now) == Effect(Write(Changed(held, Hash(after))), Number(|after| - |FieldsOf(held)|))
  {
    HsetCounts(FieldsOf(held), pairs);
  }

  /** HSET leaves each named field with its last value, and answers how many fields the hash grew by. */
  lemma HsetMeans(s: Space, key: string, pairs: seq<(string, string)>, now: int) returns (after: map<string, string>)
    requires pairs != [] && (Lookup(s, key, now).Some? ==> Lookup(s, key, now).value.value.Hash?)
    ensures Overlays(after, FieldsOf(Lookup(s, key, now)), pairs)
    ensures var held := Lookup(s, key, now);
            var out := ExecOne(s, key, Hset(pairs), now);
            && Lookup(out.space, key, now) == Some(Changed(held, Hash(after)))
            && out.reply == Number(|after| - |FieldsOf(held)|) && OthersSame(s, out.space, key, now)
  {
    after := WithFields(FieldsOf(Lookup(s, key, now)), pairs);
    HsetOverlays(FieldsOf(Lookup(s, key, now)), pairs);
    HsetEffect(Lookup(s, key, now), pairs, now);
    ShowsEffect(s, key, Hset(pairs), now);
  }

  /** All that HSET may answer and leave. */
  ghost predicate HsetDone(s: Space, key: string, pairs: seq<(string, string)>, now: int, r: Space, reply: Reply) {
    var held, after := Lookup(s, key, now), Lookup(r, key, now);
    if pairs == [] then RefusedWith(s, r, reply, WrongArity, now)
    else if held.Some? && !held.value.value.Hash? then RefusedWith(s, r, reply, WrongType, now)
    else
      && after.Some? && after.value.value.Hash? && after.value == Changed(held, after.value.value)
      && Overlays(after.value.value.fields, FieldsOf(held), pairs)
      && reply == Number(|after.value.value.fields| - |FieldsOf(held)|) && OthersSame(s, r, key, now)
  }

  lemma HsetAlways(s: Space, key: string, pairs: seq<(string, string)>, now: int)
    ensures var out := ExecOne(s, key, Hset(pairs), now); HsetDone(s, key, pairs, now, out.space, out.reply)
  {
    var held := Lookup(s, key, now);
    if pairs == [] {
      ShortRefused(s, key, Hset(pairs), now);
    } else if held.Some? && !held.value.value.Hash? {
      MistypedRefused(s, key, Hset(pairs), now);
    } else {
      var after := HsetMeans(s, key, pairs, now);
    }
  }

  lemma HdelEffect(held: Entry, names: seq<string>, now: int)
    requires names != [] && held.value.Hash?
    ensures var left := held.value.fields - AsSet(names);
            Perform(Some(held), Hdel(names), now) == Effect(Pruned(held.(value := Hash(left))), Number(|held.value.fields| - |left|))
  {
    HdelWalk(held, names, now);
    HdelExact(held.value.fields, names);
    HdelCounts(held.value.fields, names);
  }

  lemma HdelWalk(held: Entry, names: seq<string>, now: int)
    requires names != [] && held.value.Hash?
    ensures Perform(Some(held), Hdel(names), now) ==
            Effect(Pruned(held.(value := Hash(WithoutFields(held.value.fields, names)))), Number(FieldsRemoved(held.value.fields, names)))
  {
  }

  /** HDEL leaves the fields not named, or no key at all, and answers how many the hash shrank by. */
  lemma HdelMeans(s: Space, key: string, names: seq<string>, now: int)
    requires names != [] && Lookup(s, key, now).Some? && Lookup(s, key, now).value.value.Hash?
    ensures var held := Lookup(s, key, now).value;
            var left := held.value.fields - AsSet(names);
            var out := ExecOne(s, key, Hdel(names), now);
            && Lookup(out.space, key, now) == (if |left| == 0 then None else Some(held.(value := Hash(left))))
            && out.reply == Number(|held.value.fields| - |left|) && OthersSame(s, out.space, key, now)
  {
    HdelEffect(Lookup(s, key, now).value, names, now);
    ShowsEffect(s, key, Hdel(names), now);
  }

  /** All that HDEL may answer and leave. */
  ghost predicate HdelDone(s: Space, key: string, names: seq<string>, now: int, r: Space, reply: Reply) {
    var held := Lookup(s, key, now);
    if names == [] then RefusedWith(s, r, reply, WrongArity, now)
    else if held.None? then reply == Number(0) && forall k :: Lookup(r, k, now) == Lookup(s, k, now)
    else if !held.value.value.Hash? then RefusedWith(s, r, reply, WrongType, now)
    else
      var left := held.value.value.fields - AsSet(names);
      && Lookup(r, key, now) == (if |left| == 0 then None else Some(held.value.(value := Hash(left))))
      && reply == Number(|held.value.value.fields| - |left|) && OthersSame(s, r, key, now)
  }

  lemma HdelAlways(s: Space, key: string, names: seq<string>, now: int)
    ensures var out := ExecOne(s, key, Hdel(names), now); HdelDone(s, key, names, now, out.space, out.reply)
  {
    var held := Lookup(s, key, now);
    if names == [] {
      ShortRefused(s, key, Hdel(names), now);
    } else if held.None? {
      NothingToRemove(s, key, Hdel(names), now);
    } else if !held.value.value.Hash? {
      MistypedRefused(s, key, Hdel(names), now);
    } else {
      HdelMeans(s, key, names, now);
    }
  }

  /** All that a push may answer and leave. */
  ghost predicate PushDone(s: Space, key: string, front: bool, items: seq<string>, now: int, r: Space, reply: Reply) {
    var held := Lookup(s, key, now);
    if items == [] then RefusedWith(s, r, reply, WrongArity, now)
    else if held.Some? && !held.value.value.List? then RefusedWith(s, r, reply, WrongType, now)
    else
      var longer := if front then Reversed(items) + ItemsOf(held) else ItemsOf(held) + items;
      && Lookup(r, key, now) == Some(Changed(held, List(longer)))
      && reply == Number(|longer|) && OthersSame(s, r, key, now)
  }

  lemma PushAlways(s: Space, key: string, front: bool, items: seq<string>, now: int)
    ensures var out := ExecOne(s, key, Push(front, items), now); PushDone(s, key, front, items, now, out.space, out.reply)
  {
    var held := Lookup(s, key, now);
    if items == [] {
      ShortRefused(s, key, Push(front, items), now);
    } else if held.Some? && !held.value.value.List? {
      MistypedRefused(s, key, Push(front, items), now);
    } else {
      PushedMeans(s, key, front, items, now);
      PushExact(ItemsOf(held), front, items);
      ReversedLength(items);
    }
  }

  // ----- keys -----

  lemma {:induction false} DelExact(s: Space, keys: seq<string>)
    ensures AfterDel(s, keys) == s - AsSet(keys)
    decreases |keys|
  {
    if keys == [] {
      assert s - {} == s;
    } else {
      DelExact(s - {keys[0]}, keys[1..]);
      FirstName(keys);
      TakenTwice(s, keys[0], AsSet(keys[1..]));
    }
  }

  /** DEL answers how many of the keys it names were live, each counted once. */
  lemma {:induction false} DelCounts(s: Space, keys: seq<string>, now: int)
    ensures CountDel(s, keys, now) == |LiveKeys(s, now) * AsSet(keys)|
    decreases |keys|
  {
    if keys == [] {
      assert LiveKeys(s, now) * AsSet(keys) == {};
    } else {
      DelCounts(s - {keys[0]}, keys[1..], now);
      FirstName(keys);
      LiveSplit(s, keys[0], keys[1..], now);
    }
  }

  lemma LiveSplit(s: Space, key: string, keys: seq<string>, now: int)
    ensures var rest := LiveKeys(s - {key}, now) * AsSet(keys);
            |LiveKeys(s, now) * ({key} + AsSet(keys))| == |rest| + if Lookup(s, key, now).Some? then 1 else 0
  {
    var rest := LiveKeys(s - {key}, now) * AsSet(keys);
    var one := if Lookup(s, key, now).Some? then {key} else {};
    assert LiveKeys(s, now) * ({key} + AsSet(keys)) == rest + one;
    assert rest * one == {};
  }

  /** DEL leaves none of the keys it names and every other, and answers how many of them were live. */
  lemma DelMeans(s: Space, keys: seq<string>, now: int)
    ensures var out := Exec(s, Del(keys), now);
            && out.reply == Number(|LiveKeys(s, now) * AsSet(keys)|)
            && forall k :: Lookup(out.space, k, now) == if k in keys then None else Lookup(s, k, now)
  {
    DelExact(s, keys);
    DelCounts(s, keys, now);
  }

  /** What a SET writes is what a GET reads, at once and until its deadline. */
  lemma SetThenGet(s: Space, key: string, text: string, words: seq<Word>, now: int, later: int)
    requires now <= later
    ensures var set_ := ExecOne(s, key, Set(text, words), now);
            set_.reply == Status("OK") && !Expired(set_.space[key], later) ==>
              ExecOne(set_.space, key, Get, later).reply == Bulk(text)
  {
  }
}
