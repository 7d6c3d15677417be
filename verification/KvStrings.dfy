/**
 What the commands on texts and deadlines leave and answer, and what the reading
 commands say, in terms of what a key shows before and after.
 */
module KvStrings {
  import opened Common
  import opened KvSpace
  import opened KvMeaning
  import opened KvLaws
  import Glob

  // ----- SET's options -----

  /** A word SET refuses, and how: one it does not know, or a time that is not positive or that 64 bits of nanoseconds cannot hold. */
  function Refusal(w: Word): Option<Error> {
    match w
    case Ex(n) => if n <= 0 || n * 1_000_000_000 > MaxInt64 then Some(InvalidExpire) else None
    case Px(n) => if n <= 0 || n * 1_000_000 > MaxInt64 then Some(InvalidExpire) else None
    case Unknown => Some(Syntax)
    case _ => None
  }

  /** The moment the last of the times named is up. */
  function LastTime(words: seq<Word>, now: int): Option<int> {
    if words == [] then None
    else
      var later := LastTime(words[1..], now);
      if later.Some? then later
      else if words[0].Ex? then Some(now + words[0].count * 1_000_000_000)
      else if words[0].Px? then Some(now + words[0].count * 1_000_000)
      else None
  }

  lemma DeadlineMeans(count: int, unit: nat, now: int)
    requires unit == Second || unit == Millisecond
    ensures Deadline(count, unit, now) == if count <= 0 || count * unit > MaxInt64 then None else Some(now + count * unit)
  {
  }

  lemma WordMeans(o: Options, w: Word, now: int)
    requires o.Options?
    ensures var r := ReadWord(o, w, now);
            if Refusal(w).Some? then r == Bad(Refusal(w).value)
            else
              && r.Options? && r.onlyNew == (o.onlyNew || w == Nx) && r.onlyOld == (o.onlyOld || w == Xx)
              && r.keep == (o.keep || w == KeepTtl)
              && r.dies == if LastTime([w], now).Some? then LastTime([w], now) else o.dies
  {
    if w.Ex? {
      DeadlineMeans(w.count, Second, now);
    } else if w.Px? {
      DeadlineMeans(w.count, Millisecond, now);
    }
    assert [w][1..] == [];
  }

  /** The words make these options, begun from others, if none is refused and they do not ask for a new and an old key at once. */
  ghost predicate Read(o: Options, words: seq<Word>, now: int, r: Options)
    requires o.Options?
  {
    if exists k :: 0 <= k < |words| && Refusal(words[k]).Some? then
      exists k :: 0 <= k < |words| && FirstRefused(words, k) && r == Bad(Refusal(words[k]).value)
    else if (o.onlyNew || Nx in words) && (o.onlyOld || Xx in words) then r == Bad(Syntax)
    else
      && r.Options? && r.onlyNew == (o.onlyNew || Nx in words) && r.onlyOld == (o.onlyOld || Xx in words)
      && r.keep == (o.keep || KeepTtl in words)
      && r.dies == if LastTime(words, now).Some? then LastTime(words, now) else o.dies
  }

  ghost predicate FirstRefused(words: seq<Word>, k: nat) {
    k < |words| && Refusal(words[k]).Some? && forall j :: 0 <= j < k ==> Refusal(words[j]) == None
  }

  lemma {:induction false} ReadWordsMeans(o: Options, words: seq<Word>, now: int)
    requires o.Options?
    ensures Read(o, words, now, ReadWords(o, words, now))
    decreases |words|
  {
    if words != [] {
      var w, rest := words[0], words[1..];
      WordMeans(o, w, now);
      assert words == [w] + rest;
      if Refusal(w).Some? {
        assert FirstRefused(words, 0);
        assert ReadWords(o, words, now) == Bad(Refusal(w).value);
      } else {
        var next := ReadWord(o, w, now);
        ReadWordsMeans(next, rest, now);
        ReadShift(o, w, rest, now, next, ReadWords(next, rest, now));
      }
    }
  }

  lemma ReadShift(o: Options, w: Word, rest: seq<Word>, now: int, next: Options, r: Options)
    requires o.Options? && next.Options? && Refusal(w) == None && Read(next, rest, now, r)
    requires next.onlyNew == (o.onlyNew || w == Nx) && next.onlyOld == (o.onlyOld || w == Xx) && next.keep == (o.keep || w == KeepTtl)
    requires next.dies == if LastTime([w], now).Some? then LastTime([w], now) else o.dies
    ensures Read(o, [w] + rest, now, r)
  {
    var words := [w] + rest;
    assert words[1..] == rest && [w][1..] == [];
    if exists k :: 0 <= k < |words| && Refusal(words[k]).Some? {
      var k :| 0 <= k < |words| && Refusal(words[k]).Some?;
      assert Refusal(rest[k - 1]).Some?;
      var n :| 0 <= n < |rest| && FirstRefused(rest, n) && r == Bad(Refusal(rest[n]).value);
      assert FirstRefused(words, n + 1);
    } else {
      forall k | 0 <= k < |rest| ensures Refusal(rest[k]) == None { assert rest[k] == words[k + 1]; }
    }
  }

  // ----- commands on texts -----

  /** Every key shows what it showed. */
  ghost predicate AllSame(s: Space, r: Space, now: int) {
    forall k :: Lookup(r, k, now) == Lookup(s, k, now)
  }

  /** The key shows this, and every other what it showed. */
  ghost predicate Leaves(s: Space, r: Space, key: string, now: int, e: Option<Entry>) {
    Lookup(r, key, now) == e && OthersSame(s, r, key, now)
  }

  /** A SET is refused for its words, answers nothing where NX or XX forbids it, and otherwise writes the text, with the deadline its words name, the one it is told to keep, or none. */
  lemma SetMeans(s: Space, key: string, text: string, words: seq<Word>, now: int)
    ensures var out := ExecOne(s, key, Set(text, words), now);
            var held := Lookup(s, key, now);
            if exists k :: 0 <= k < |words| && Refusal(words[k]).Some? then out.reply.Failed? && out.space == s
            else if Nx in words && Xx in words then out.reply == Failed(Syntax) && out.space == s
            else if (Nx in words && held.Some?) || (Xx in words && held.None?) then out.reply == Nil && AllSame(s, out.space, now)
            else
              var kept := if KeepTtl in words && held.Some? then held.value.expires else None;
              var dies := if LastTime(words, now).Some? then LastTime(words, now) else kept;
              out.reply == Status("OK") && Leaves(s, out.space, key, now, Some(Entry(Text(text), dies)))
  {
    ReadWordsMeans(NoOptions, words, now);
    if !ReadWords(NoOptions, words, now).Bad? {
      SetShows(s, key, text, words, now);
    }
  }

  lemma SetShows(s: Space, key: string, text: string, words: seq<Word>, now: int)
    requires ReadWords(NoOptions, words, now).Options? && Read(NoOptions, words, now, ReadWords(NoOptions, words, now))
    ensures var o := ReadWords(NoOptions, words, now);
            var out := ExecOne(s, key, Set(text, words), now);
            var held := Lookup(s, key, now);
            if (o.onlyNew && held.Some?) || (o.onlyOld && held.None?) then out.reply == Nil && AllSame(s, out.space, now)
            else
              var dies := if o.dies.Some? then o.dies else if o.keep && held.Some? then held.value.expires else None;
              out.reply == Status("OK") && Leaves(s, out.space, key, now, Some(Entry(Text(text), dies)))
  {
    var o := ReadWords(NoOptions, words, now);
    ShowsEffect(s, key, Set(text, words), now);
    TimesAhead(words, now);
    KeepShows(s, key, Set(text, words), now);
  }

  /** A time the words name is still to come. */
  lemma {:induction false} TimesAhead(words: seq<Word>, now: int)
    requires forall k :: 0 <= k < |words| ==> Refusal(words[k]) == None
    ensures LastTime(words, now).Some? ==> LastTime(words, now).value > now
  {
    if words != [] {
      forall k | 0 <= k < |words[1..]| ensures Refusal(words[1..][k]) == None { assert words[1..][k] == words[k + 1]; }
      TimesAhead(words[1..], now);
      assert Refusal(words[0]) == None;
    }
  }

  /** A command that keeps what is there changes nothing that shows. */
  lemma KeepShows(s: Space, key: string, verb: Verb, now: int)
    requires Looks(verb, now)
    ensures Perform(Lookup(s, key, now), verb, now).change == Keep ==> AllSame(s, ExecOne(s, key, verb, now).space, now)
  {
    ShowsEffect(s, key, verb, now);
    var out := ExecOne(s, key, verb, now);
    if Perform(Lookup(s, key, now), verb, now).change == Keep {
      forall k ensures Lookup(out.space, k, now) == Lookup(s, k, now) {
        if k != key { assert OthersSame(s, out.space, key, now); }
      }
    }
  }

  predicate OtherType(held: Option<Entry>) {
    held.Some? && !held.value.value.Text?
  }

  lemma GetMeans(s: Space, key: string, now: int)
    ensures var held := Lookup(s, key, now);
            var out := ExecOne(s, key, Get, now);
            AllSame(s, out.space, now)
            && out.reply == if held.None? then Nil else if OtherType(held) then Failed(WrongType) else Bulk(held.value.value.text)
  {
    KeepShows(s, key, Get, now);
  }

  /** GETSET answers the text that was there and leaves the new one without a deadline. */
  lemma GetsetMeans(s: Space, key: string, text: string, now: int)
    ensures var held := Lookup(s, key, now);
            var out := ExecOne(s, key, Getset(text), now);
            if OtherType(held) then out.reply == Failed(WrongType) && AllSame(s, out.space, now)
            else
              && out.reply == (if held.None? then Nil else Bulk(held.value.value.text))
              && Leaves(s, out.space, key, now, Some(Entry(Text(text), None)))
  {
    ShowsEffect(s, key, Getset(text), now);
    KeepShows(s, key, Getset(text), now);
  }

  /** APPEND leaves the text that was there followed by the new one, with its deadline, and answers how long that is. */
  lemma AppendMeans(s: Space, key: string, more: string, now: int)
    ensures var held := Lookup(s, key, now);
            var out := ExecOne(s, key, Append(more), now);
            if OtherType(held) then out.reply == Failed(WrongType) && AllSame(s, out.space, now)
            else if held.None? then out.reply == Number(|more|) && Leaves(s, out.space, key, now, Some(Entry(Text(more), None)))
            else
              var grown := held.value.value.text + more;
              out.reply == Number(|grown|) && Leaves(s, out.space, key, now, Some(Entry(Text(grown), held.value.expires)))
  {
    ShowsEffect(s, key, Append(more), now);
    KeepShows(s, key, Append(more), now);
    assert "" + more == more;
  }

  lemma StrlenMeans(s: Space, key: string, now: int)
    ensures var held := Lookup(s, key, now);
            var out := ExecOne(s, key, Strlen, now);
            AllSame(s, out.space, now)
            && out.reply == if held.None? then Number(0) else if OtherType(held) then Failed(WrongType) else Number(|held.value.value.text|)
  {
    KeepShows(s, key, Strlen, now);
  }

  lemma SetexMeans(s: Space, key: string, count: int, text: string, now: int)
    ensures var out := ExecOne(s, key, Setex(count, text), now);
            if count <= 0 || count * 1_000_000_000 > MaxInt64 then out.reply == Failed(InvalidExpire) && out.space == s
            else out.reply == Status("OK") && Leaves(s, out.space, key, now, Some(Entry(Text(text), Some(now + count * 1_000_000_000))))
  {
    DeadlineMeans(count, Second, now);
    ApplyShows(s, key, Perform(Lookup(s, key, now), Setex(count, text), now).change, now);
  }

  /** A text written with a time is read until the time is up, and from that moment on it is gone; one written without is read for good. */
  lemma GoneAtDeadline(s: Space, key: string, count: int, text: string, now: int, later: int)
    requires now <= later && count > 0 && count * 1_000_000_000 <= MaxInt64
    ensures ExecOne(ExecOne(s, key, Setex(count, text), now).space, key, Get, later).reply ==
            if later < now + count * 1_000_000_000 then Bulk(text) else Nil
    ensures ExecOne(ExecOne(s, key, Set(text, []), now).space, key, Get, later).reply == Bulk(text)
  {
    DeadlineMeans(count, Second, now);
    ReadHeld(ExecOne(s, key, Setex(count, text), now).space, key, Entry(Text(text), Some(now + count * 1_000_000_000)), later);
    assert ReadWords(NoOptions, [], now) == NoOptions;
    ReadHeld(ExecOne(s, key, Set(text, []), now).space, key, Entry(Text(text), None), later);
  }

  lemma ReadHeld(s: Space, key: string, e: Entry, now: int)
    requires key in s && s[key] == e && e.value.Text?
    ensures ExecOne(s, key, Get, now).reply == if e.expires.Some? && e.expires.value <= now then Nil else Bulk(e.value.text)
  {
  }

  // ----- counters -----

  lemma IncrementIsAdd(held: Option<Entry>, step: int, now: int)
    requires held.Some? ==> held.value.value.Text?
    ensures Perform(held, Increment(step), now) == AddTo(held, step)
  {
  }

  lemma DecrementIsAdd(held: Option<Entry>, step: int, now: int)
    requires (held.Some? ==> held.value.value.Text?) && step != MinInt64
    ensures Perform(held, Decrement(step), now) == AddTo(held, -step)
  {
  }

  lemma IncrementEffect(held: Option<Entry>, current: int, step: int, now: int)
    requires MinInt64 <= step <= MaxInt64 && MinInt64 <= current <= MaxInt64
    requires if held.None? then current == 0 else held.value.value.Text? && ParseInt(held.value.value.text) == Some(current)
    ensures Perform(held, Increment(step), now) ==
            if MinInt64 <= current + step <= MaxInt64
            then Effect(Write(Changed(held, Text(FormatInt(current + step)))), Number(current + step))
            else Effect(Keep, Failed(Overflow))
  {
    IncrementIsAdd(held, step, now);
    AddIsKnown(held, current, step);
    if MinInt64 <= current + step <= MaxInt64 {
      AddFits(held, current, step);
    } else {
      AddOverflows(held, current, step);
    }
  }

  /** What a key shows once its counter stands at the total, with the deadline it had. */
  ghost predicate Counts(held: Option<Entry>, after: Option<Entry>, total: int) {
    && after.Some? && after.value.value.Text? && ParseInt(after.value.value.text) == Some(total)
    && after.value.expires == if held.Some? then held.value.expires else None
  }

  /** An increment finds a number, and leaves and answers the sum, if 64 bits hold it, or changes nothing. */
  lemma IncrementMeans(s: Space, key: string, step: int, now: int, current: int)
    requires MinInt64 <= step <= MaxInt64 && MinInt64 <= current <= MaxInt64
    requires var held := Lookup(s, key, now);
             if held.None? then current == 0 else held.value.value.Text? && ParseInt(held.value.value.text) == Some(current)
    ensures var out := ExecOne(s, key, Increment(step), now);
            if MinInt64 <= current + step <= MaxInt64 then
              out.reply == Number(current + step) && OthersSame(s, out.space, key, now)
              && Counts(Lookup(s, key, now), Lookup(out.space, key, now), current + step)
            else out.reply == Failed(Overflow) && AllSame(s, out.space, now)
  {
    IncrementEffect(Lookup(s, key, now), current, step, now);
    if MinInt64 <= current + step <= MaxInt64 {
      WriteShows(s, key, Increment(step), now, current + step);
    } else {
      KeepShows(s, key, Increment(step), now);
    }
  }

  /** A key of another type, and a text that is no number, are refused and left alone. */
  lemma IncrementRefuses(s: Space, key: string, step: int, now: int)
    ensures var held := Lookup(s, key, now);
            var out := ExecOne(s, key, Increment(step), now);
            && (OtherType(held) ==> out.reply == Failed(WrongType) && AllSame(s, out.space, now))
            && (held.Some? && held.value.value.Text? && ParseInt(held.value.value.text) == None ==>
                  out.reply == Failed(NotInteger) && AllSame(s, out.space, now))
  {
    KeepShows(s, key, Increment(step), now);
  }

  lemma WriteShows(s: Space, key: string, verb: Verb, now: int, total: int)
    requires Looks(verb, now) && MinInt64 <= total <= MaxInt64
    ensures var held := Lookup(s, key, now);
            var out := ExecOne(s, key, verb, now);
            && out.reply == Perform(held, verb, now).reply
            && (Perform(held, verb, now).change == Write(Changed(held, Text(FormatInt(total)))) ==>
                  OthersSame(s, out.space, key, now) && Counts(held, Lookup(out.space, key, now), total))
  {
    ParseFormat(total);
    ShowsEffect(s, key, verb, now);
  }

  /** Two commands of the same effect do the same. */
  lemma SameEffect(s: Space, key: string, a: Verb, b: Verb, now: int)
    requires Looks(a, now) && Looks(b, now) && Perform(Lookup(s, key, now), a, now) == Perform(Lookup(s, key, now), b, now)
    ensures ExecOne(s, key, a, now) == ExecOne(s, key, b, now)
  {
  }

  /** A decrement is the opposite increment. */
  lemma DecrementMeans(s: Space, key: string, step: int, now: int)
    requires var held := Lookup(s, key, now); held.Some? ==> held.value.value.Text?
    requires step != MinInt64
    ensures ExecOne(s, key, Decrement(step), now) == ExecOne(s, key, Increment(-step), now)
  {
    Opposites(Lookup(s, key, now), step, now);
    SameEffect(s, key, Decrement(step), Increment(-step), now);
  }

  lemma Opposites(held: Option<Entry>, step: int, now: int)
    requires (held.Some? ==> held.value.value.Text?) && step != MinInt64
    ensures Looks(Decrement(step), now) && Looks(Increment(-step), now)
    ensures Perform(held, Decrement(step), now) == Perform(held, Increment(-step), now)
  {
    DecrementIsAdd(held, step, now);
    IncrementIsAdd(held, -step, now);
  }

  /** But the one step that has no opposite is refused before the key is looked at. */
  lemma LeastDecrementRefused(s: Space, key: string, now: int)
    ensures ExecOne(s, key, Decrement(MinInt64), now) == Outcome(s, Failed(Overflow))
  {
    var effect := Perform(Lookup(s, key, now), Decrement(MinInt64), now);
    assert effect == Effect(Keep, Failed(Overflow));
  }

  // ----- deadlines -----

  /** EXPIRE answers zero for a key that is not there, takes one whose time is not positive, refuses a time too long, and otherwise only sets the deadline. */
  lemma ExpireMeans(s: Space, key: string, seconds: int, now: int)
    ensures var held := Lookup(s, key, now);
            var out := ExecOne(s, key, Expire(seconds), now);
            if held.None? then out.reply == Number(0) && AllSame(s, out.space, now)
            else if seconds <= 0 then out.reply == Number(1) && Leaves(s, out.space, key, now, None)
            else if seconds * 1_000_000_000 > MaxInt64 then out.reply == Failed(InvalidExpire) && AllSame(s, out.space, now)
            else out.reply == Number(1) && Leaves(s, out.space, key, now, Some(Entry(held.value.value, Some(now + seconds * 1_000_000_000))))
  {
    DeadlineMeans(seconds, Second, now);
    ShowsEffect(s, key, Expire(seconds), now);
    KeepShows(s, key, Expire(seconds), now);
  }

  lemma TtlAndTypeMean(s: Space, key: string, now: int)
    ensures var held := Lookup(s, key, now);
            && AllSame(s, ExecOne(s, key, Ttl, now).space, now) && AllSame(s, ExecOne(s, key, TypeOf, now).space, now)
            && (held.None? ==> ExecOne(s, key, Ttl, now).reply == Number(-2) && ExecOne(s, key, TypeOf, now).reply == Status("none"))
            && (held.Some? && held.value.expires.None? ==> ExecOne(s, key, Ttl, now).reply == Number(-1))
            && (held.Some? && held.value.expires.Some? && held.value.expires.value - now <= MaxInt64 - 999_999_999 ==>
                  ExecOne(s, key, Ttl, now).reply == Number((held.value.expires.value - now + 999_999_999) / 1_000_000_000))
            && (held.Some? && held.value.value.Text? ==> ExecOne(s, key, TypeOf, now).reply == Status("string"))
            && (held.Some? && held.value.value.Hash? ==> ExecOne(s, key, TypeOf, now).reply == Status("hash"))
            && (held.Some? && held.value.value.List? ==> ExecOne(s, key, TypeOf, now).reply == Status("list"))
            && (held.Some? && held.value.value.Members? ==> ExecOne(s, key, TypeOf, now).reply == Status("set"))
  {
    var held := Lookup(s, key, now);
    KeepShows(s, key, Ttl, now);
    KeepShows(s, key, TypeOf, now);
    if held.Some? && held.value.expires.Some? && held.value.expires.value - now <= MaxInt64 - 999_999_999 {
      TtlExactly(held.value, now);
    }
  }

  // ----- reading collections -----

  /** What is read of a hash, a list and a set; a key of another type is refused, and one that is not there reads as empty. */
  lemma HashReads(s: Space, key: string, field: string, now: int)
    ensures var held := Lookup(s, key, now);
            var one, all := ExecOne(s, key, Hget(field), now), ExecOne(s, key, Hgetall, now);
            && AllSame(s, one.space, now) && AllSame(s, all.space, now)
            && (held.None? ==> one.reply == Nil && all.reply == Pairs(map[]))
            && (held.Some? && !held.value.value.Hash? ==> one.reply == Failed(WrongType) && all.reply == Failed(WrongType))
            && (held.Some? && held.value.value.Hash? ==>
                  all.reply == Pairs(held.value.value.fields)
                  && one.reply == if field in held.value.value.fields then Bulk(held.value.value.fields[field]) else Nil)
  {
    KeepShows(s, key, Hget(field), now);
    KeepShows(s, key, Hgetall, now);
  }

  lemma LengthReads(s: Space, key: string, now: int)
    ensures var held := Lookup(s, key, now);
            var out := ExecOne(s, key, Llen, now);
            && AllSame(s, out.space, now)
            && (held.None? ==> out.reply == Number(0))
            && (held.Some? && !held.value.value.List? ==> out.reply == Failed(WrongType))
            && (held.Some? && held.value.value.List? ==> out.reply == Number(|held.value.value.items|))
  {
    KeepShows(s, key, Llen, now);
  }

  lemma RangeReads(s: Space, key: string, first: int, last: int, now: int)
    ensures var held := Lookup(s, key, now);
            var out := ExecOne(s, key, Lrange(first, last), now);
            && AllSame(s, out.space, now)
            && (held.None? ==> out.reply == Items([]))
            && (held.Some? && !held.value.value.List? ==> out.reply == Failed(WrongType))
            && (held.Some? && held.value.value.List? ==> RangeOf(held.value.value.items, first, last, out.reply))
  {
    KeepShows(s, key, Lrange(first, last), now);
    var held := Lookup(s, key, now);
    if held.Some? && held.value.value.List? {
      RangeEffect(held, first, last, now);
    }
  }

  lemma RangeEffect(held: Option<Entry>, first: int, last: int, now: int)
    requires held.Some? && held.value.value.List?
    ensures RangeOf(held.value.value.items, first, last, Perform(held, Lrange(first, last), now).reply)
  {
    RangeIs(held.value.value.items, first, last);
  }

  /** The items whose index lies between the two ends, counted from the back where negative, in order. */
  ghost predicate RangeOf(items: seq<string>, first: int, last: int, reply: Reply) {
    reply.Items? && exists from: nat, to: nat :: from <= to <= |items| && reply.items == items[from..to]
                      && forall i :: Selected(i, first, last, |items|) <==> from <= i < to
  }

  lemma RangeIs(items: seq<string>, first: int, last: int)
    ensures RangeOf(items, first, last, Items(items[Span(first, last, |items|).0..Span(first, last, |items|).1]))
  {
    var from: nat, to: nat := Span(first, last, |items|).0, Span(first, last, |items|).1;
    assert items[from..to] == items[Span(first, last, |items|).0..Span(first, last, |items|).1];
  }

  lemma SetReads(s: Space, key: string, member: string, now: int)
    ensures var held := Lookup(s, key, now);
            var all, one, size := ExecOne(s, key, Smembers, now), ExecOne(s, key, Sismember(member), now), ExecOne(s, key, Scard, now);
            && AllSame(s, all.space, now) && AllSame(s, one.space, now) && AllSame(s, size.space, now)
            && (held.None? ==> all.reply == Names({}) && one.reply == Number(0) && size.reply == Number(0))
            && (held.Some? && !held.value.value.Members? ==>
                  all.reply == Failed(WrongType) && one.reply == Failed(WrongType) && size.reply == Failed(WrongType))
            && (held.Some? && held.value.value.Members? ==>
                  && all.reply == Names(held.value.value.members) && size.reply == Number(|held.value.value.members|)
                  && one.reply == Number(if member in held.value.value.members then 1 else 0))
  {
    KeepShows(s, key, Smembers, now);
    KeepShows(s, key, Sismember(member), now);
    KeepShows(s, key, Scard, now);
  }

  // ----- several keys -----

  /** MSET leaves each key it names with the last text given for it and no deadline, and every other as it was. */
  lemma {:induction false} MsetMeans(s: Space, pairs: seq<(string, string)>, key: string, now: int)
    ensures Exec(s, Mset(pairs), now).reply == Status("OK")
    ensures Lookup(Exec(s, Mset(pairs), now).space, key, now) ==
            if key in Named(pairs) then Some(Entry(Text(LastOf(pairs, key).value), None)) else Lookup(s, key, now)
    decreases |pairs|
  {
    if pairs != [] {
      MsetMeans(s[pairs[0].0 := Plain(Text(pairs[0].1))], pairs[1..], key, now);
    }
  }

  /** MGET answers, for each key in turn, its text, or nothing for one that is not there or holds no text. */
  lemma {:induction false} MgetMeans(s: Space, keys: seq<string>, now: int, i: nat)
    requires i < |keys|
    ensures var held := Lookup(s, keys[i], now);
            var out := Exec(s, Mget(keys), now).reply;
            out.Bulks? && |out.texts| == |keys| && out.texts[i] == if held.Some? && held.value.value.Text? then Some(held.value.value.text) else None
    decreases |keys|
  {
    if i > 0 {
      MgetMeans(s, keys[1..], now, i - 1);
    } else if |keys| > 1 {
      MgetMeans(s, keys[1..], now, 0);
    } else {
      assert Texts(s, keys[1..], now) == [];
    }
  }

  /** EXISTS counts each mention of a key that is there. */
  lemma {:induction false} ExistsMeans(s: Space, keys: seq<string>, more: seq<string>, key: string, now: int)
    ensures CountLive(s, [], now) == 0
    ensures CountLive(s, [key], now) == if Lookup(s, key, now).Some? then 1 else 0
    ensures CountLive(s, keys + more, now) == CountLive(s, keys, now) + CountLive(s, more, now)
    ensures Exec(s, Exists(keys), now).reply == Number(CountLive(s, keys, now))
    decreases |keys|
  {
    assert [key][1..] == [];
    if keys == [] {
      assert keys + more == more;
    } else {
      assert (keys + more)[1..] == keys[1..] + more;
      ExistsMeans(s, keys[1..], more, key, now);
    }
  }

  /** A listing answers the keys that show anything, all of them or those the pattern fits; DBSIZE how many; and a flush leaves none. */
  lemma ListingMeans(s: Space, pattern: string, key: string, now: int)
    ensures var listed := Exec(s, Keys(pattern), now).reply;
            && listed.Names? && (key in listed.names <==> Lookup(s, key, now).Some? && Glob.InLanguage(Glob.Tokens(pattern), key))
            && Exec(s, Dbsize, now).reply == Number(|set k | k in s && Lookup(s, k, now).Some?|)
            && Lookup(Exec(s, Flush, now).space, key, now) == None
  {
    assert LiveKeys(s, now) == set k | k in s && Lookup(s, k, now).Some?;
  }
}
