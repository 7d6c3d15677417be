/**
 The cache's own code: a map of entries that every command reads through one
 lookup, changed in place, shown to be the commands as they are specified.
 */
module KvCache {
  import opened Common
  import opened KvSpace
  import opened KvMeaning
  import Glob

  class Cache {
    var entries: Space

    constructor ()
      ensures entries == map[]
    {
      entries := map[];
    }

    /** The live entry under the key; one whose time has passed is dropped on the way. */
    method At(key: string, now: int) returns (held: Option<Entry>)
      modifies this
      ensures held == Lookup(old(entries), key, now) && entries == Dropped(old(entries), key, now)
    {
      if key !in entries {
        return None;
      }
      if entries[key].expires.Some? && now >= entries[key].expires.value {
        entries := entries - {key};
        return None;
      }
      return Some(entries[key]);
    }

    method Prune(key: string, held: Entry)
      modifies this
      ensures entries == Apply(old(entries), key, Pruned(held))
    {
      entries := entries[key := held];
      if Empty(held.value) {
        entries := entries - {key};
        assert entries == old(entries) - {key};
      }
    }

    method Remove(key: string, now: int) returns (removed: bool)
      modifies this
      ensures removed == Lookup(old(entries), key, now).Some? && entries == old(entries) - {key}
    {
      var held := At(key, now);
      if held.None? {
        assert entries == old(entries) - {key};
        return false;
      }
      entries := entries - {key};
      return true;
    }

    // ----- several keys -----

    method DelEach(keys: seq<string>, now: int) returns (removed: nat)
      modifies this
      ensures Outcome(entries, Number(removed)) == Exec(old(entries), Del(keys), now)
      ensures removed == |LiveKeys(old(entries), now) * AsSet(keys)|
      ensures forall k :: Lookup(entries, k, now) == if k in keys then None else Lookup(old(entries), k, now)
    {
      DelMeans(entries, keys, now);
      removed := 0;
      assert keys[0..] == keys;
      for i := 0 to |keys|
        invariant AfterDel(entries, keys[i..]) == AfterDel(old(entries), keys)
        invariant removed + CountDel(entries, keys[i..], now) == CountDel(old(entries), keys, now)
      {
        assert keys[i..][1..] == keys[i + 1..];
        var gone := Remove(keys[i], now);
        if gone {
          removed := removed + 1;
        }
      }
    }

    method ExistsEach(keys: seq<string>, now: int) returns (found: nat)
      modifies this
      ensures Outcome(entries, Number(found)) == Exec(old(entries), Exists(keys), now)
    {
      found := 0;
      assert keys[0..] == keys;
      for i := 0 to |keys|
        invariant AfterLooking(entries, keys[i..], now) == AfterLooking(old(entries), keys, now)
        invariant found + CountLive(entries, keys[i..], now) == CountLive(old(entries), keys, now)
      {
        assert keys[i..][1..] == keys[i + 1..];
        CountDropped(entries, keys[i], keys[i + 1..], now);
        var held := At(keys[i], now);
        if held.Some? {
          found := found + 1;
        }
      }
    }

    method MsetEach(pairs: seq<(string, string)>)
      modifies this
      ensures forall now :: Outcome(entries, Status("OK")) == Exec(old(entries), Mset(pairs), now)
    {
      assert pairs[0..] == pairs;
      for i := 0 to |pairs|
        invariant WithTexts(entries, pairs[i..]) == WithTexts(old(entries), pairs)
      {
        assert pairs[i..][1..] == pairs[i + 1..];
        entries := entries[pairs[i].0 := Plain(Text(pairs[i].1))];
      }
    }

    /** Every live key, dropping the others on the way. */
    method Live(now: int) returns (keys: set<string>)
      modifies this
      ensures keys == LiveKeys(old(entries), now) && entries == Swept(old(entries), now)
    {
      keys := {};
      var left := entries.Keys;
      PartlyAll(entries, now);
      while left != {}
        invariant left <= old(entries).Keys && keys == LiveKeys(old(entries), now) - left
        invariant entries == Partly(old(entries), left, now)
        decreases |left|
      {
        var key :| key in left;
        PartlyStep(old(entries), left, key, now);
        var held := At(key, now);
        if held.Some? {
          keys := keys + {key};
        }
        left := left - {key};
      }
    }

    method KeysMatching(pattern: string, now: int) returns (found: set<string>)
      modifies this
      ensures Outcome(entries, Names(found)) == Exec(old(entries), Keys(pattern), now)
    {
      var keys := Live(now);
      found := MatchingOf(keys, pattern);
    }

    // ----- one key -----

    method SetText(key: string, text: string, words: seq<Word>, now: int) returns (reply: Reply)
      modifies this
      ensures Outcome(entries, reply) == ExecOne(old(entries), key, Set(text, words), now)
    {
      var options := ReadOptions(words, now);
      if options.Bad? {
        return Failed(options.error);
      }
      var existing := At(key, now);
      if (options.onlyNew && existing.Some?) || (options.onlyOld && existing.None?) {
        return Nil;
      }
      var written := Plain(Text(text));
      if options.keep && existing.Some? {
        written := written.(expires := existing.value.expires);
      }
      if options.dies.Some? {
        written := written.(expires := options.dies);
      }
      entries := entries[key := written];
      return Status("OK");
    }

    method ExpireIn(key: string, seconds: int, now: int) returns (reply: Reply)
      modifies this
      ensures Outcome(entries, reply) == ExecOne(old(entries), key, Expire(seconds), now)
    {
      var held := At(key, now);
      if held.None? {
        return Number(0);
      }
      if seconds <= 0 {
        entries := entries - {key};
        return Number(1);
      }
      var dies := Deadline(seconds, Second, now);
      if dies.None? {
        return Failed(InvalidExpire);
      }
      entries := entries[key := held.value.(expires := dies)];
      return Number(1);
    }

    method IncrementBy(key: string, step: int, now: int) returns (reply: Reply)
      modifies this
      ensures Outcome(entries, reply) == ExecOne(old(entries), key, Increment(step), now)
    {
      ExecIncrement(entries, key, step, now);
      var held := At(key, now);
      if held.Some? && !held.value.value.Text? {
        return Failed(WrongType);
      }
      var effect := AddStep(held, step);
      if effect.change.Write? {
        entries := entries[key := effect.change.entry];
      }
      return effect.reply;
    }

    method HsetEach(key: string, pairs: seq<(string, string)>, now: int) returns (reply: Reply)
      modifies this
      ensures Outcome(entries, reply) == ExecOne(old(entries), key, Hset(pairs), now)
      ensures HsetDone(old(entries), key, pairs, now, entries, reply)
    {
      HsetAlways(entries, key, pairs, now);
      if |pairs| == 0 {
        return Failed(WrongArity);
      }
      var held := At(key, now);
      if held.Some? && !held.value.value.Hash? {
        return Failed(WrongType);
      }
      var fields, added := WriteFields(FieldsOf(held), pairs);
      entries := entries[key := Changed(held, Hash(fields))];
      return Number(added);
    }

    method HdelEach(key: string, names: seq<string>, now: int) returns (reply: Reply)
      modifies this
      ensures Outcome(entries, reply) == ExecOne(old(entries), key, Hdel(names), now)
      ensures HdelDone(old(entries), key, names, now, entries, reply)
    {
      HdelAlways(entries, key, names, now);
      if |names| == 0 {
        return Failed(WrongArity);
      }
      var held := At(key, now);
      if held.None? {
        return Number(0);
      }
      if !held.value.value.Hash? {
        return Failed(WrongType);
      }
      var fields, removed := RemoveFields(held.value.value.fields, names);
      Prune(key, held.value.(value := Hash(fields)));
      return Number(removed);
    }

    method PushEach(key: string, front: bool, items: seq<string>, now: int) returns (reply: Reply)
      modifies this
      ensures Outcome(entries, reply) == ExecOne(old(entries), key, Push(front, items), now)
      ensures PushDone(old(entries), key, front, items, now, entries, reply)
    {
      PushAlways(entries, key, front, items, now);
      if |items| == 0 {
        return Failed(WrongArity);
      }
      var held := At(key, now);
      if held.Some? && !held.value.value.List? {
        return Failed(WrongType);
      }
      var list := PushItems(ItemsOf(held), front, items);
      entries := entries[key := Changed(held, List(list))];
      return Number(|list|);
    }

    method PopOne(key: string, front: bool, now: int) returns (reply: Reply)
      modifies this
      ensures Outcome(entries, reply) == ExecOne(old(entries), key, Pop(front), now)
    {
      var held := At(key, now);
      if held.None? {
        return Nil;
      }
      if !held.value.value.List? {
        return Failed(WrongType);
      }
      var list := held.value.value.items;
      if list == [] {
        return Panic;
      }
      if front {
        Prune(key, held.value.(value := List(list[1..])));
        return Bulk(list[0]);
      }
      Prune(key, held.value.(value := List(list[..|list| - 1])));
      return Bulk(list[|list| - 1]);
    }

    method SaddEach(key: string, names: seq<string>, now: int) returns (reply: Reply)
      modifies this
      ensures Outcome(entries, reply) == ExecOne(old(entries), key, Sadd(names), now)
      ensures SaddDone(old(entries), key, names, now, entries, reply)
    {
      SaddAlways(entries, key, names, now);
      reply := SaddAt(key, names, now);
    }

    method SaddAt(key: string, names: seq<string>, now: int) returns (reply: Reply)
      modifies this
      ensures Outcome(entries, reply) == ExecOne(old(entries), key, Sadd(names), now)
    {
      if |names| == 0 {
        return Failed(WrongArity);
      }
      var held := At(key, now);
      if held.Some? && !held.value.value.Members? {
        return Failed(WrongType);
      }
      var members, added := AddMembers(MembersOf(held), names);
      entries := entries[key := Changed(held, Members(members))];
      return Number(added);
    }

    method SremEach(key: string, names: seq<string>, now: int) returns (reply: Reply)
      modifies this
      ensures Outcome(entries, reply) == ExecOne(old(entries), key, Srem(names), now)
      ensures SremDone(old(entries), key, names, now, entries, reply)
    {
      SremAlways(entries, key, names, now);
      if |names| == 0 {
        return Failed(WrongArity);
      }
      var held := At(key, now);
      if held.None? {
        return Number(0);
      }
      if !held.value.value.Members? {
        return Failed(WrongType);
      }
      var members, removed := RemoveMembers(held.value.value.members, names);
      Prune(key, held.value.(value := Members(members)));
      return Number(removed);
    }
  }

  method MatchingOf(keys: set<string>, pattern: string) returns (found: set<string>)
    ensures found == Matching(keys, pattern)
  {
    found := {};
    var left := keys;
    while left != {}
      invariant left <= keys && found == Matching(keys - left, pattern)
      decreases |left|
    {
      var key :| key in left;
      var fits := Glob.Matches(pattern, key);
      MatchingStep(keys, left, key, pattern);
      if fits {
        found := found + {key};
      }
      left := left - {key};
    }
    assert keys - left == keys;
  }

  lemma MatchingStep(keys: set<string>, left: set<string>, key: string, pattern: string)
    requires left <= keys && key in left
    ensures Matching(keys - (left - {key}), pattern) ==
            Matching(keys - left, pattern) + (if Glob.InLanguage(Glob.Tokens(pattern), key) then {key} else {})
  {
  }

  // ----- the loops over a command's arguments -----

  method WriteFields(before: map<string, string>, pairs: seq<(string, string)>) returns (fields: map<string, string>, added: nat)
    ensures fields == WithFields(before, pairs) && added == FieldsAdded(before, pairs)
  {
    fields, added := before, 0;
    assert pairs[0..] == pairs;
    for i := 0 to |pairs|
      invariant WithFields(fields, pairs[i..]) == WithFields(before, pairs)
      invariant added + FieldsAdded(fields, pairs[i..]) == FieldsAdded(before, pairs)
    {
      assert pairs[i..][1..] == pairs[i + 1..];
      if pairs[i].0 !in fields {
        added := added + 1;
      }
      fields := fields[pairs[i].0 := pairs[i].1];
    }
  }

  method RemoveFields(before: map<string, string>, names: seq<string>) returns (fields: map<string, string>, removed: nat)
    ensures fields == WithoutFields(before, names) && removed == FieldsRemoved(before, names)
  {
    fields, removed := before, 0;
    assert names[0..] == names;
    for i := 0 to |names|
      invariant WithoutFields(fields, names[i..]) == WithoutFields(before, names)
      invariant removed + FieldsRemoved(fields, names[i..]) == FieldsRemoved(before, names)
    {
      assert names[i..][1..] == names[i + 1..];
      if names[i] in fields {
        removed := removed + 1;
      }
      fields := fields - {names[i]};
    }
  }

  method PushItems(before: seq<string>, front: bool, items: seq<string>) returns (list: seq<string>)
    ensures list == WithItems(before, front, items)
  {
    list := before;
    assert items[0..] == items;
    for i := 0 to |items|
      invariant WithItems(list, front, items[i..]) == WithItems(before, front, items)
    {
      assert items[i..][1..] == items[i + 1..];
      list := if front then [items[i]] + list else list + [items[i]];
    }
  }

  method AddMembers(before: set<string>, names: seq<string>) returns (members: set<string>, added: nat)
    ensures members == WithMembers(before, names) && added == MembersAdded(before, names)
  {
    members, added := before, 0;
    assert names[0..] == names;
    for i := 0 to |names|
      invariant WithMembers(members, names[i..]) == WithMembers(before, names)
      invariant added + MembersAdded(members, names[i..]) == MembersAdded(before, names)
    {
      assert names[i..][1..] == names[i + 1..];
      if names[i] !in members {
        added := added + 1;
      }
      members := members + {names[i]};
    }
  }

  method RemoveMembers(before: set<string>, names: seq<string>) returns (members: set<string>, removed: nat)
    ensures members == WithoutMembers(before, names) && removed == MembersRemoved(before, names)
  {
    members, removed := before, 0;
    assert names[0..] == names;
    for i := 0 to |names|
      invariant WithoutMembers(members, names[i..]) == WithoutMembers(before, names)
      invariant removed + MembersRemoved(members, names[i..]) == MembersRemoved(before, names)
    {
      assert names[i..][1..] == names[i + 1..];
      if names[i] in members {
        removed := removed + 1;
      }
      members := members - {names[i]};
    }
  }

  lemma IncrementEffect(held: Option<Entry>, step: int, now: int)
    ensures Perform(held, Increment(step), now) ==
            if held.Some? && !held.value.value.Text? then Effect(Keep, Failed(WrongType)) else AddTo(held, step)
  {
  }

  lemma ExecLooks(s: Space, key: string, verb: Verb, now: int, effect: Effect)
    requires Looks(verb, now) && Perform(Lookup(s, key, now), verb, now) == effect
    ensures ExecOne(s, key, verb, now) == Outcome(Apply(Dropped(s, key, now), key, effect.change), effect.reply)
  {
  }

  /** An increment is its sum, of a key that holds a text or nothing. */
  lemma ExecIncrement(s: Space, key: string, step: int, now: int)
    ensures var held := Lookup(s, key, now);
            var effect := if held.Some? && !held.value.value.Text? then Effect(Keep, Failed(WrongType)) else AddTo(held, step);
            ExecOne(s, key, Increment(step), now) == Outcome(Apply(Dropped(s, key, now), key, effect.change), effect.reply)
  {
    var held := Lookup(s, key, now);
    IncrementEffect(held, step, now);
    ExecLooks(s, key, Increment(step), now, Perform(held, Increment(step), now));
  }

  /** What an increment makes of the text it found. */
  method AddStep(held: Option<Entry>, step: int) returns (effect: Effect)
    requires held.Some? ==> held.value.value.Text?
    ensures effect == AddTo(held, step) && !effect.change.Erase?
  {
    var current := 0;
    if held.Some? {
      var parsed := ParseInt(held.value.value.text);
      if parsed.None? {
        return Effect(Keep, Failed(NotInteger));
      }
      current := parsed.value;
    }
    assert held.Some? ==> ParseInt(StringOf(held)) == Some(current);
    var total := Wrap64(current + step);
    if (step > 0 && total < current) || (step < 0 && total > current) {
      return Effect(Keep, Failed(Overflow));
    }
    return Effect(Write(Changed(held, Text(FormatInt(total)))), Number(total));
  }

  /** The space when only the keys left have not been looked at. */
  ghost function Partly(s: Space, left: set<string>, now: int): Space {
    map key | key in s && (key in left || !Expired(s[key], now)) :: s[key]
  }

  lemma PartlyAll(s: Space, now: int)
    ensures Partly(s, s.Keys, now) == s && LiveKeys(s, now) - s.Keys == {} && Partly(s, {}, now) == Swept(s, now)
  {
  }

  lemma PartlyStep(s: Space, left: set<string>, key: string, now: int)
    requires left <= s.Keys && key in left
    ensures Dropped(Partly(s, left, now), key, now) == Partly(s, left - {key}, now)
    ensures Lookup(Partly(s, left, now), key, now) == Lookup(s, key, now)
    ensures LiveKeys(s, now) - (left - {key}) == (LiveKeys(s, now) - left) + (if Lookup(s, key, now).Some? then {key} else {})
  {
  }

  /** The trailing words of a SET, read one after the other; the first bad one ends it. */
  method ReadOptions(words: seq<Word>, now: int) returns (options: Options)
    ensures options == ReadWords(NoOptions, words, now)
  {
    options := NoOptions;
    assert words[0..] == words;
    for i := 0 to |words|
      invariant options.Options? && ReadWords(options, words[i..], now) == ReadWords(NoOptions, words, now)
    {
      assert words[i..][1..] == words[i + 1..];
      options := ReadWord(options, words[i], now);
      if options.Bad? {
        return;
      }
    }
    if options.onlyNew && options.onlyOld {
      return Bad(Syntax);
    }
  }

  lemma {:induction false} CountDropped(s: Space, dead: string, keys: seq<string>, now: int)
    ensures CountLive(Dropped(s, dead, now), keys, now) == CountLive(s, keys, now)
    decreases |keys|
  {
    if keys != [] {
      CountDropped(s, dead, keys[1..], now);
    }
  }
}
