/**
 What holds of the cache between commands: no collection is ever there and empty,
 so a pop always has something to take; counters count; deadlines are told right.
 */
module KvLaws {
  import opened Common
  import opened KvSpace
  import opened KvExpiry

  // ----- no empty collection -----

  predicate NoEmpty(s: Space) {
    forall key :: key in s ==> !Empty(s[key].value)
  }

  lemma {:induction false} FieldsStay(fields: map<string, string>, pairs: seq<(string, string)>, f: string)
    requires f in fields
    ensures f in WithFields(fields, pairs)
    decreases |pairs|
  {
    if pairs != [] {
      FieldsStay(fields[pairs[0].0 := pairs[0].1], pairs[1..], f);
    }
  }

  lemma {:induction false} MembersStay(members: set<string>, names: seq<string>, m: string)
    requires m in members
    ensures m in WithMembers(members, names)
    decreases |names|
  {
    if names != [] {
      MembersStay(members + {names[0]}, names[1..], m);
    }
  }

  lemma WritesFill(fields: map<string, string>, pairs: seq<(string, string)>, members: set<string>, names: seq<string>)
    ensures pairs != [] ==> WithFields(fields, pairs) != map[]
    ensures names != [] ==> WithMembers(members, names) != {}
  {
    if pairs != [] {
      FieldsStay(fields[pairs[0].0 := pairs[0].1], pairs[1..], pairs[0].0);
    }
    if names != [] {
      MembersStay(members + {names[0]}, names[1..], names[0]);
    }
  }

  lemma NotEmptyMap(fields: map<string, string>)
    ensures fields != map[] <==> |fields| != 0
  {
  }

  predicate Fills(effect: Effect) {
    effect.reply != Panic && (effect.change.Write? ==> !Empty(effect.change.entry.value))
  }

  lemma HashFills(held: Option<Entry>, verb: Verb)
    requires verb.Hset? || verb.Hget? || verb.Hdel? || verb.Hgetall?
    requires !Short(verb)
    ensures Fills(HashEffect(held, verb))
  {
    if verb.Hset? {
      WritesFill(FieldsOf(held), verb.pairs, {}, []);
      NotEmptyMap(WithFields(FieldsOf(held), verb.pairs));
    }
  }

  lemma MembersFill(held: Option<Entry>, verb: Verb)
    requires verb.Sadd? || verb.Srem? || verb.Smembers? || verb.Sismember? || verb.Scard?
    requires !Short(verb)
    ensures Fills(MembersEffect(held, verb))
  {
    if verb.Sadd? {
      WritesFill(map[], [], MembersOf(held), verb.names);
    }
  }

  /** A command writes no empty collection where there was none. */
  lemma PerformFills(held: Option<Entry>, verb: Verb, now: int)
    requires held.Some? ==> !Empty(held.value.value)
    ensures Fills(Perform(held, verb, now))
  {
    if Short(verb) {
    } else if verb.Hset? || verb.Hget? || verb.Hdel? || verb.Hgetall? {
      HashFills(held, verb);
    } else if verb.Sadd? || verb.Srem? || verb.Smembers? || verb.Sismember? || verb.Scard? {
      MembersFill(held, verb);
    }
  }

  lemma {:induction false} DelFills(s: Space, keys: seq<string>)
    requires NoEmpty(s)
    ensures NoEmpty(AfterDel(s, keys))
    decreases |keys|
  {
    if keys != [] {
      DelFills(s - {keys[0]}, keys[1..]);
    }
  }

  lemma {:induction false} LookingFills(s: Space, keys: seq<string>, now: int)
    requires NoEmpty(s)
    ensures NoEmpty(AfterLooking(s, keys, now))
    decreases |keys|
  {
    if keys != [] {
      LookingFills(Dropped(s, keys[0], now), keys[1..], now);
    }
  }

  lemma {:induction false} MsetFills(s: Space, pairs: seq<(string, string)>)
    requires NoEmpty(s)
    ensures NoEmpty(WithTexts(s, pairs))
    decreases |pairs|
  {
    if pairs != [] {
      MsetFills(s[pairs[0].0 := Plain(Text(pairs[0].1))], pairs[1..]);
    }
  }

  lemma ExecFills(s: Space, c: Command, now: int)
    requires NoEmpty(s)
    ensures NoEmpty(Exec(s, c, now).space) && Exec(s, c, now).reply != Panic
  {
    match c
    case One(key, verb) => PerformFills(Lookup(s, key, now), verb, now);
    case Del(keys) => DelFills(s, keys);
    case Exists(keys) => LookingFills(s, keys, now);
    case Mget(keys) => LookingFills(s, keys, now);
    case Mset(pairs) => MsetFills(s, pairs);
    case Keys(pattern) =>
    case Dbsize =>
    case Flush =>
  }

  /** From a start with no empty collection there is none after any trace. */
  lemma {:induction false} NoneEverEmpty(s: Space, trace: seq<Timed>)
    requires NoEmpty(s)
    ensures NoEmpty(After(s, trace)) && Panic !in Replies(s, trace)
    decreases |trace|
  {
    if trace != [] {
      ExecFills(s, trace[0].command, trace[0].now);
      NoneEverEmpty(Exec(s, trace[0].command, trace[0].now).space, trace[1..]);
    }
  }

  // ----- exactly when a pop can fail -----

  ghost predicate NoEmptyList(s: Space, now: int) {
    forall key :: Lookup(s, key, now) != None ==> Lookup(s, key, now).value.value != List([])
  }

  lemma PerformPops(held: Option<Entry>, verb: Verb, now: int)
    requires held.Some? ==> held.value.value != List([])
    ensures var effect := Perform(held, verb, now); effect.reply != Panic && (effect.change.Write? ==> effect.change.entry.value != List([]))
  {
  }

  lemma ListsLater(s: Space, now: int, later: int)
    requires NoEmptyList(s, now) && now <= later
    ensures NoEmptyList(s, later)
  {
    forall key | Lookup(s, key, later) != None ensures Lookup(s, key, later).value.value != List([]) {
      assert Lookup(s, key, now) == Lookup(s, key, later);
    }
  }

  lemma ListsAgree(s: Space, t: Space, now: int)
    requires Agree(s, t, now) && NoEmptyList(s, now)
    ensures NoEmptyList(t, now)
  {
    forall key | Lookup(t, key, now) != None ensures Lookup(t, key, now).value.value != List([]) {
      assert Lookup(s, key, now) == Lookup(t, key, now);
    }
  }

  lemma ApplyPops(s: Space, key: string, change: Change, now: int)
    requires NoEmptyList(s, now) && (change.Write? ==> change.entry.value != List([]))
    ensures NoEmptyList(Apply(s, key, change), now)
  {
    var t := Apply(s, key, change);
    forall k | Lookup(t, k, now) != None ensures Lookup(t, k, now).value.value != List([]) {
      assert k != key ==> Lookup(t, k, now) == Lookup(s, k, now);
      assert change.Keep? ==> Lookup(t, k, now) == Lookup(s, k, now);
    }
  }

  lemma {:induction false} DelPops(s: Space, keys: seq<string>, now: int)
    requires NoEmptyList(s, now)
    ensures NoEmptyList(AfterDel(s, keys), now)
    decreases |keys|
  {
    if keys != [] {
      ApplyPops(s, keys[0], Erase, now);
      DelPops(s - {keys[0]}, keys[1..], now);
    }
  }

  lemma {:induction false} MsetPops(s: Space, pairs: seq<(string, string)>, now: int)
    requires NoEmptyList(s, now)
    ensures NoEmptyList(WithTexts(s, pairs), now)
    decreases |pairs|
  {
    if pairs != [] {
      var entry := Plain(Text(pairs[0].1));
      ApplyPops(s, pairs[0].0, Write(entry), now);
      MsetPops(s[pairs[0].0 := entry], pairs[1..], now);
    }
  }

  lemma OnePops(s: Space, key: string, verb: Verb, now: int)
    requires NoEmptyList(s, now)
    ensures NoEmptyList(ExecOne(s, key, verb, now).space, now) && ExecOne(s, key, verb, now).reply != Panic
  {
    var held := Lookup(s, key, now);
    PerformPops(held, verb, now);
    DroppedAgrees(s, key, now);
    ListsAgree(s, Dropped(s, key, now), now);
    ApplyPops(if Looks(verb, now) then Dropped(s, key, now) else s, key, Perform(held, verb, now).change, now);
  }

  lemma ExecPops(s: Space, c: Command, now: int)
    requires NoEmptyList(s, now)
    ensures NoEmptyList(Exec(s, c, now).space, now) && Exec(s, c, now).reply != Panic
  {
    match c
    case One(key, verb) => OnePops(s, key, verb, now);
    case Del(keys) => DelPops(s, keys, now);
    case Exists(keys) => LookingAgrees(s, keys, now); ListsAgree(s, AfterLooking(s, keys, now), now);
    case Mget(keys) => LookingAgrees(s, keys, now); ListsAgree(s, AfterLooking(s, keys, now), now);
    case Mset(pairs) => MsetPops(s, pairs, now);
    case Keys(pattern) => SweptAgrees(s, now); ListsAgree(s, Swept(s, now), now);
    case Dbsize => SweptAgrees(s, now); ListsAgree(s, Swept(s, now), now);
    case Flush =>
  }

  lemma {:induction false} RunPops(s: Space, trace: seq<Timed>, since: int)
    requires NoEmptyList(s, since) && Clocked(trace, since)
    ensures Panic !in Replies(s, trace)
    decreases |trace|
  {
    if trace != [] {
      var c, now := trace[0].command, trace[0].now;
      ListsLater(s, since, now);
      ExecPops(s, c, now);
      RunPops(Exec(s, c, now).space, trace[1..], now);
    }
  }

  ghost predicate NeverPanics(s: Space, since: int) {
    forall trace :: Clocked(trace, since) ==> Panic !in Replies(s, trace)
  }

  lemma PopOfNothing(s: Space, key: string, now: int)
    requires Lookup(s, key, now) != None && Lookup(s, key, now).value.value == List([])
    ensures Replies(s, [Timed(One(key, Pop(true)), now)])[0] == Panic
  {
  }

  /** No trace makes a pop index an empty list if and only if no list a seed installed is empty and live. */
  lemma NeverPanicsExactly(s: Space, since: int)
    ensures NeverPanics(s, since) <==> NoEmptyList(s, since)
  {
    if NoEmptyList(s, since) {
      forall trace | Clocked(trace, since) ensures Panic !in Replies(s, trace) {
        RunPops(s, trace, since);
      }
    } else {
      var key :| Lookup(s, key, since) != None && Lookup(s, key, since).value.value == List([]);
      PopOfNothing(s, key, since);
      var trace := [Timed(One(key, Pop(true)), since)];
      assert Clocked(trace, since);
      assert Panic in Replies(s, trace);
    }
  }

  // ----- a pop undoes a push -----

  lemma PushThenPop(s: Space, key: string, front: bool, x: string, now: int)
    requires NoEmpty(s)
    requires Lookup(s, key, now) != None ==> Lookup(s, key, now).value.value.List?
    ensures var pushed := ExecOne(s, key, Push(front, [x]), now);
            var popped := ExecOne(pushed.space, key, Pop(front), now);
            && pushed.reply == Number(|ItemsOf(Lookup(s, key, now))| + 1)
            && popped.reply == Bulk(x) && Agree(popped.space, s, now)
  {
    var held := Lookup(s, key, now);
    PushPopEffects(held, front, x, now);
    var t := Dropped(s, key, now);
    DroppedAgrees(s, key, now);
    var pushed := Perform(held, Push(front, [x]), now).change;
    var popped := Perform(Some(pushed.entry), Pop(front), now).change;
    assert Lookup(t[key := pushed.entry], key, now) == Some(pushed.entry);
    WrittenBack(t, key, pushed.entry, popped, now);
  }

  function Longer(list: seq<string>, front: bool, x: string): (r: seq<string>)
    ensures |r| == |list| + 1
    ensures if front then r[0] == x && r[1..] == list else r[|list|] == x && r[..|list|] == list
  {
    if front then [x] + list else list + [x]
  }

  lemma PushEffect(held: Option<Entry>, front: bool, x: string, now: int)
    requires held.Some? ==> held.value.value.List?
    ensures Perform(held, Push(front, [x]), now) ==
            Effect(Write(Changed(held, List(Longer(ItemsOf(held), front, x)))), Number(|ItemsOf(held)| + 1))
  {
    assert [x][1..] == [];
    assert WithItems(ItemsOf(held), front, [x]) == Longer(ItemsOf(held), front, x);
  }

  lemma PopEffect(e: Entry, list: seq<string>, front: bool, x: string, now: int)
    requires e.value == List(Longer(list, front, x))
    ensures Perform(Some(e), Pop(front), now) == Effect(Pruned(e.(value := List(list))), Bulk(x))
  {
  }

  /** The pop finds what the push wrote, and writes back what the push found, or nothing. */
  lemma PushPopEffects(held: Option<Entry>, front: bool, x: string, now: int)
    requires held.Some? ==> held.value.value.List? && held.value.value.items != [] && !Expired(held.value, now)
    ensures var pushed := Perform(held, Push(front, [x]), now);
            && pushed.change.Write? && pushed.reply == Number(|ItemsOf(held)| + 1) && !Expired(pushed.change.entry, now)
            && Perform(Some(pushed.change.entry), Pop(front), now) ==
               Effect(if held.None? then Erase else Write(held.value), Bulk(x))
  {
    PushEffect(held, front, x, now);
    PopEffect(Changed(held, List(Longer(ItemsOf(held), front, x))), ItemsOf(held), front, x, now);
  }

  lemma WrittenBack(s: Space, key: string, entry: Entry, change: Change, now: int)
    requires var held := Lookup(s, key, now); change == (if held.None? then Erase else Write(held.value))
    ensures Agree(Apply(s[key := entry], key, change), s, now)
  {
  }

  // ----- numbers -----

  lemma ParseFormat(n: int)
    requires MinInt64 <= n <= MaxInt64
    ensures ParseInt(FormatInt(n)) == Some(n)
  {
    if n < 0 {
      assert FormatInt(n)[1..] == Digits(-n);
    } else {
      FirstIsDigit(Digits(n));
    }
  }

  lemma {:induction false} FirstIsDigit(s: string)
    requires s != "" && AllDigits(s)
    ensures IsDigit(s[0])
    decreases |s|
  {
    if |s| > 1 {
      FirstIsDigit(s[..|s| - 1]);
    }
  }

  lemma AddFits(held: Option<Entry>, current: int, step: int)
    requires MinInt64 <= step <= MaxInt64 && MinInt64 <= current <= MaxInt64 && MinInt64 <= current + step <= MaxInt64
    ensures AddKnown(held, current, step) == Effect(Write(Changed(held, Text(FormatInt(current + step)))), Number(current + step))
  {
    WrapSum(current, step);
  }

  lemma AddOverflows(held: Option<Entry>, current: int, step: int)
    requires MinInt64 <= step <= MaxInt64 && MinInt64 <= current <= MaxInt64 && !(MinInt64 <= current + step <= MaxInt64)
    ensures AddKnown(held, current, step) == Effect(Keep, Failed(Overflow))
  {
    WrapSum(current, step);
  }

  lemma AddIsKnown(held: Option<Entry>, current: int, step: int)
    requires if held.None? then current == 0 else held.value.value.Text? && ParseInt(held.value.value.text) == Some(current)
    ensures AddTo(held, step) == AddKnown(held, current, step)
  {
    assert held.Some? ==> StringOf(held) == held.value.value.text;
  }

  /** What an increment that succeeds leaves. */
  ghost predicate Increased(held: Option<Entry>, effect: Effect, total: int) {
    && effect.reply == Number(total) && effect.change.Write? && effect.change.entry.value.Text?
    && ParseInt(effect.change.entry.value.text) == Some(total)
    && (held.Some? ==> effect.change.entry.expires == held.value.expires)
  }

  lemma FormattedIsIncreased(held: Option<Entry>, total: int)
    requires MinInt64 <= total <= MaxInt64
    ensures Increased(held, Effect(Write(Changed(held, Text(FormatInt(total)))), Number(total)), total)
  {
    ParseFormat(total);
  }

  /** The overflow test catches exactly the sums 64 bits cannot hold; any other sum is stored and read back. */
  lemma AddExactly(held: Option<Entry>, current: int, step: int)
    requires MinInt64 <= step <= MaxInt64 && MinInt64 <= current <= MaxInt64
    requires if held.None? then current == 0 else held.value.value.Text? && ParseInt(held.value.value.text) == Some(current)
    ensures if MinInt64 <= current + step <= MaxInt64 then Increased(held, AddTo(held, step), current + step)
            else AddTo(held, step) == Effect(Keep, Failed(Overflow))
  {
    AddIsKnown(held, current, step);
    if MinInt64 <= current + step <= MaxInt64 {
      AddFits(held, current, step);
      FormattedIsIncreased(held, current + step);
    } else {
      AddOverflows(held, current, step);
    }
  }

  lemma WrapSum(current: int, step: int)
    requires MinInt64 <= step <= MaxInt64 && MinInt64 <= current <= MaxInt64
    ensures var total := Wrap64(current + step);
            if current + step > MaxInt64 then step > 0 && total < current
            else if current + step < MinInt64 then step < 0 && total > current
            else total == current + step
  {
  }

  /** Seconds left, rounded up. */
  function SecondsLeft(left: nat): nat {
    (left + Second - 1) / Second
  }

  /** TTL tells the seconds left if and only if rounding up does not overflow the count of nanoseconds. */
  lemma TtlExactly(e: Entry, now: int)
    requires e.expires.Some? && now < e.expires.value <= now + MaxInt64
    ensures TtlReply(Some(e), now) == Number(SecondsLeft(e.expires.value - now))
       <==> e.expires.value - now <= MaxInt64 - (Second - 1)
  {
    var left := e.expires.value - now;
    assert SecondsLeft(left) >= 1;
    if left > MaxInt64 - (Second - 1) {
      assert Wrap64(left + Second - 1) < 0;
    }
  }

  /** The longest deadline EXPIRE takes is one of those it goes wrong for. */
  lemma LongestTtlWraps(key: string, now: int)
    ensures var s: Space := map[key := Plain(Text(""))];
            var set_ := Exec(s, One(key, Expire(9_223_372_036)), now);
            var told := Exec(set_.space, One(key, Ttl), now).reply;
            set_.reply == Number(1) && told.Number? && told.n < 0
  {
    var s: Space := map[key := Plain(Text(""))];
    var space := Exec(s, One(key, Expire(9_223_372_036)), now).space;
    assert Lookup(space, key, now) == Some(Entry(Text(""), Some(now + 9_223_372_036 * Second)));
    assert Wrap64(9_223_372_036 * Second + Second - 1) < -1_000_000_000;
  }
}
