/**
 Checking deadlines on the way past is as good as sweeping them all before every
 command: no reply can tell the two apart.
 */
module KvExpiry {
  import opened KvSpace

  /** Two spaces show the same under every key. */
  ghost predicate Agree(s: Space, t: Space, now: int) {
    forall key :: Lookup(s, key, now) == Lookup(t, key, now)
  }

  lemma AgreeLater(s: Space, t: Space, now: int, later: int)
    requires Agree(s, t, now) && now <= later
    ensures Agree(s, t, later)
  {
    forall key ensures Lookup(s, key, later) == Lookup(t, key, later) {
      assert Lookup(s, key, now) == Lookup(t, key, now);
    }
  }

  lemma SweptAgrees(s: Space, now: int)
    ensures Agree(s, Swept(s, now), now)
  {
  }

  lemma DroppedAgrees(s: Space, key: string, now: int)
    ensures Agree(s, Dropped(s, key, now), now)
  {
  }

  /** The same change to the same key keeps two spaces alike. */
  lemma ApplyAgrees(s: Space, t: Space, key: string, change: Change, now: int)
    requires Agree(s, t, now)
    ensures Agree(Apply(s, key, change), Apply(t, key, change), now)
  {
    forall k ensures Lookup(Apply(s, key, change), k, now) == Lookup(Apply(t, key, change), k, now) {
      assert Lookup(s, k, now) == Lookup(t, k, now);
    }
  }

  lemma OneAgrees(s: Space, t: Space, key: string, verb: Verb, now: int)
    requires Agree(s, t, now)
    ensures var a, b := ExecOne(s, key, verb, now), ExecOne(t, key, verb, now);
            a.reply == b.reply && Agree(a.space, b.space, now)
  {
    assert Lookup(s, key, now) == Lookup(t, key, now);
    DroppedAgrees(s, key, now);
    DroppedAgrees(t, key, now);
    var change := Perform(Lookup(s, key, now), verb, now).change;
    if Looks(verb, now) {
      ApplyAgrees(Dropped(s, key, now), Dropped(t, key, now), key, change, now);
    } else {
      ApplyAgrees(s, t, key, change, now);
    }
  }

  lemma {:induction false} LookingAgrees(s: Space, keys: seq<string>, now: int)
    ensures Agree(s, AfterLooking(s, keys, now), now)
    decreases |keys|
  {
    if keys != [] {
      DroppedAgrees(s, keys[0], now);
      LookingAgrees(Dropped(s, keys[0], now), keys[1..], now);
    }
  }

  lemma {:induction false} ReadingAgrees(s: Space, t: Space, keys: seq<string>, now: int)
    requires Agree(s, t, now)
    ensures CountLive(s, keys, now) == CountLive(t, keys, now) && Texts(s, keys, now) == Texts(t, keys, now)
    decreases |keys|
  {
    if keys != [] {
      assert Lookup(s, keys[0], now) == Lookup(t, keys[0], now);
      ReadingAgrees(s, t, keys[1..], now);
    }
  }

  lemma {:induction false} DelAgrees(s: Space, t: Space, keys: seq<string>, now: int)
    requires Agree(s, t, now)
    ensures CountDel(s, keys, now) == CountDel(t, keys, now) && Agree(AfterDel(s, keys), AfterDel(t, keys), now)
    decreases |keys|
  {
    if keys != [] {
      assert Lookup(s, keys[0], now) == Lookup(t, keys[0], now);
      ApplyAgrees(s, t, keys[0], Erase, now);
      DelAgrees(s - {keys[0]}, t - {keys[0]}, keys[1..], now);
    }
  }

  lemma {:induction false} MsetAgrees(s: Space, t: Space, pairs: seq<(string, string)>, now: int)
    requires Agree(s, t, now)
    ensures Agree(WithTexts(s, pairs), WithTexts(t, pairs), now)
    decreases |pairs|
  {
    if pairs != [] {
      var entry := Plain(Text(pairs[0].1));
      ApplyAgrees(s, t, pairs[0].0, Write(entry), now);
      MsetAgrees(s[pairs[0].0 := entry], t[pairs[0].0 := entry], pairs[1..], now);
    }
  }

  lemma ListingAgrees(s: Space, t: Space, now: int)
    requires Agree(s, t, now)
    ensures LiveKeys(s, now) == LiveKeys(t, now)
  {
    forall key ensures key in LiveKeys(s, now) <==> key in LiveKeys(t, now) {
      assert Lookup(s, key, now) == Lookup(t, key, now);
    }
  }

  /** No command can tell two spaces apart that show the same, nor make them show anything different. */
  lemma ExecAgrees(s: Space, t: Space, c: Command, now: int)
    requires Agree(s, t, now)
    ensures var a, b := Exec(s, c, now), Exec(t, c, now); a.reply == b.reply && Agree(a.space, b.space, now)
  {
    match c
    case One(key, verb) => OneAgrees(s, t, key, verb, now);
    case Del(keys) => DelAgrees(s, t, keys, now);
    case Exists(keys) => ReadAgrees(s, t, keys, now);
    case Mget(keys) => ReadAgrees(s, t, keys, now);
    case Mset(pairs) => MsetAgrees(s, t, pairs, now);
    case Keys(pattern) => ListAgrees(s, t, now);
    case Dbsize => ListAgrees(s, t, now);
    case Flush =>
  }

  lemma ReadAgrees(s: Space, t: Space, keys: seq<string>, now: int)
    requires Agree(s, t, now)
    ensures Agree(AfterLooking(s, keys, now), AfterLooking(t, keys, now), now)
    ensures CountLive(s, keys, now) == CountLive(t, keys, now) && Texts(s, keys, now) == Texts(t, keys, now)
  {
    LookingAgrees(s, keys, now);
    LookingAgrees(t, keys, now);
    ReadingAgrees(s, t, keys, now);
  }

  lemma ListAgrees(s: Space, t: Space, now: int)
    requires Agree(s, t, now)
    ensures LiveKeys(s, now) == LiveKeys(t, now) && Agree(Swept(s, now), Swept(t, now), now)
  {
    ListingAgrees(s, t, now);
    SweptAgrees(s, now);
    SweptAgrees(t, now);
  }

  /** On every trace with a clock that does not go back, lazy expiry gives the replies of a store that sweeps. */
  lemma {:induction false} LazyIsEager(s: Space, t: Space, trace: seq<Timed>, since: int)
    requires Agree(s, t, since) && Clocked(trace, since)
    ensures Replies(s, trace) == SweptReplies(t, trace)
    decreases |trace|
  {
    if trace != [] {
      var c, now := trace[0].command, trace[0].now;
      AgreeLater(s, t, since, now);
      SweptAgrees(t, now);
      assert Agree(s, Swept(t, now), now);
      ExecAgrees(s, Swept(t, now), c, now);
      LazyIsEager(Exec(s, c, now).space, Exec(Swept(t, now), c, now).space, trace[1..], now);
    }
  }
}
