/**
 One database of the cache: keys with lazily checked deadlines, and what each
 command does to them at the moment it runs. Times are nanoseconds, and a command
 reads the clock once.
 */
module KvSpace {
  import opened Common
  import Glob

  // ----- 64-bit numbers -----

  const MaxInt64: int := 0x7FFF_FFFF_FFFF_FFFF
  const MinInt64: int := -0x8000_0000_0000_0000

  function Wrap64(n: int): int {
    var low := n % 0x1_0000_0000_0000_0000;
    if low <= MaxInt64 then low else low - 0x1_0000_0000_0000_0000
  }

  /** Division that drops the fraction, whichever the sign. */
  function Quotient(n: int, d: nat): int
    requires d > 0
  {
    if n >= 0 then n / d else -((-n) / d)
  }

  function FormatInt(n: int): string {
    if n < 0 then "-" + Digits(-n) else Digits(n)
  }

  /** A decimal number with an optional sign, if 64 bits hold it. */
  function ParseInt(s: string): Option<int> {
    var unsigned := if s != "" && (s[0] == '-' || s[0] == '+') then s[1..] else s;
    if unsigned == "" || !AllDigits(unsigned) then None
    else
      var magnitude: int := ValueOf(unsigned);
      var n := if s[0] == '-' then -magnitude else magnitude;
      if MinInt64 <= n <= MaxInt64 then Some(n) else None
  }

  // ----- entries -----

  datatype Value = Text(text: string) | Hash(fields: map<string, string>) | List(items: seq<string>) | Members(members: set<string>)

  datatype Entry = Entry(value: Value, expires: Option<int>)

  type Space = map<string, Entry>

  predicate Empty(v: Value) {
    match v
    case Text(_) => false
    case Hash(fields) => |fields| == 0
    case List(items) => |items| == 0
    case Members(members) => |members| == 0
  }

  predicate Expired(e: Entry, now: int) {
    e.expires.Some? && now >= e.expires.value
  }

  /** What a command that goes through the map finds under the key. */
  function Lookup(s: Space, key: string, now: int): Option<Entry> {
    if key in s && !Expired(s[key], now) then Some(s[key]) else None
  }

  /** Looking drops a key whose time has passed. */
  function Dropped(s: Space, key: string, now: int): Space {
    if key in s && Expired(s[key], now) then s - {key} else s
  }

  ghost function LiveKeys(s: Space, now: int): set<string> {
    set key | key in s && !Expired(s[key], now)
  }

  // ----- commands -----

  /** The trailing words of a SET. */
  datatype Word = Ex(count: int) | Px(count: int) | Nx | Xx | KeepTtl | Unknown

  /** The commands that work on one key. */
  datatype Verb =
    | Get | Set(text: string, words: seq<Word>) | Setex(count: int, text: string) | Getset(text: string)
    | Append(text: string) | Strlen | Increment(step: int) | Decrement(step: int)
    | Expire(seconds: int) | Ttl | TypeOf
    | Hset(pairs: seq<(string, string)>) | Hget(field: string) | Hdel(names: seq<string>) | Hgetall
    | Push(front: bool, items: seq<string>) | Pop(front: bool) | Lrange(first: int, last: int) | Llen
    | Sadd(names: seq<string>) | Srem(names: seq<string>) | Smembers | Sismember(field: string) | Scard

  datatype Command =
    | One(key: string, verb: Verb)
    | Del(keys: seq<string>) | Exists(keys: seq<string>) | Mget(keys: seq<string>)
    | Mset(pairs: seq<(string, string)>)
    | Keys(pattern: string) | Dbsize | Flush

  datatype Error = WrongType | NotInteger | Overflow | Syntax | InvalidExpire | WrongArity

  datatype Reply =
    | Nil | Bulk(text: string) | Number(n: int) | Status(text: string)
    | Bulks(texts: seq<Option<string>>) | Items(items: seq<string>) | Names(names: set<string>) | Pairs(fields: map<string, string>)
    | Failed(error: Error)
    | Panic

  const Second: nat := 1_000_000_000
  const Millisecond: nat := 1_000_000

  /** The moment a key dies, if a duration can hold the time to it. */
  function Deadline(count: int, unit: nat, now: int): Option<int>
    requires unit > 0
  {
    if count <= 0 || count > MaxInt64 / unit then None else Some(now + count * unit)
  }

  // ----- SET's options -----

  datatype Options = Options(dies: Option<int>, keep: bool, onlyNew: bool, onlyOld: bool) | Bad(error: Error)

  function ReadWord(o: Options, w: Word, now: int): Options
    requires o.Options?
  {
    match w
    case Ex(n) => if Deadline(n, Second, now) == None then Bad(InvalidExpire) else o.(dies := Deadline(n, Second, now))
    case Px(n) => if Deadline(n, Millisecond, now) == None then Bad(InvalidExpire) else o.(dies := Deadline(n, Millisecond, now))
    case Nx => o.(onlyNew := true)
    case Xx => o.(onlyOld := true)
    case KeepTtl => o.(keep := true)
    case Unknown => Bad(Syntax)
  }

  function ReadWords(o: Options, words: seq<Word>, now: int): Options
    decreases |words|
  {
    if o.Bad? then o
    else if words == [] then if o.onlyNew && o.onlyOld then Bad(Syntax) else o
    else ReadWords(ReadWord(o, words[0], now), words[1..], now)
  }

  const NoOptions: Options := Options(None, false, false, false)

  // ----- one key -----

  datatype Change = Keep | Write(entry: Entry) | Erase

  datatype Effect = Effect(change: Change, reply: Reply)

  /** A removal that empties a collection takes the key with it. */
  function Pruned(e: Entry): Change {
    if Empty(e.value) then Erase else Write(e)
  }

  function Plain(v: Value): Entry {
    Entry(v, None)
  }

  function StringOf(held: Option<Entry>): string {
    if held.Some? && held.value.value.Text? then held.value.value.text else ""
  }

  function AddTo(held: Option<Entry>, step: int): Effect {
    var current := if held.None? then Some(0) else ParseInt(StringOf(held));
    if current.None? then Effect(Keep, Failed(NotInteger)) else AddKnown(held, current.value, step)
  }

  /** The sum as 64 bits leave it, and the test the program makes of it. */
  function AddKnown(held: Option<Entry>, current: int, step: int): Effect {
    var total := Wrap64(current + step);
    if (step > 0 && total < current) || (step < 0 && total > current) then Effect(Keep, Failed(Overflow))
    else Effect(Write(Changed(held, Text(FormatInt(total)))), Number(total))
  }

  function SetEffect(held: Option<Entry>, text: string, words: seq<Word>, now: int): Effect {
    var o := ReadWords(NoOptions, words, now);
    if o.Bad? then Effect(Keep, Failed(o.error))
    else if (o.onlyNew && held.Some?) || (o.onlyOld && held.None?) then Effect(Keep, Nil)
    else
      var kept := if o.keep && held.Some? then held.value.expires else None;
      Effect(Write(Entry(Text(text), if o.dies.Some? then o.dies else kept)), Status("OK"))
  }

  function ExpireEffect(held: Option<Entry>, seconds: int, now: int): Effect {
    if held.None? then Effect(Keep, Number(0))
    else if seconds <= 0 then Effect(Erase, Number(1))
    else
      var dies := Deadline(seconds, Second, now);
      if dies.None? then Effect(Keep, Failed(InvalidExpire)) else Effect(Write(held.value.(expires := dies)), Number(1))
  }

  /** Whole seconds, rounded up by the addition and division the program makes. */
  function TtlReply(held: Option<Entry>, now: int): Reply {
    if held.None? then Number(-2)
    else if held.value.expires.None? then Number(-1)
    else Number(Quotient(Wrap64(held.value.expires.value - now + Second - 1), Second))
  }

  function KindName(v: Value): string {
    match v
    case Text(_) => "string"
    case Hash(_) => "hash"
    case List(_) => "list"
    case Members(_) => "set"
  }

  function StringEffect(held: Option<Entry>, verb: Verb): Effect
    requires verb.Get? || verb.Getset? || verb.Append? || verb.Strlen? || verb.Increment? || verb.Decrement?
  {
    if held.Some? && !held.value.value.Text? then Effect(Keep, Failed(WrongType))
    else
      var text := StringOf(held);
      match verb
      case Get => Effect(Keep, if held.None? then Nil else Bulk(text))
      case Getset(new_) => Effect(Write(Plain(Text(new_))), if held.None? then Nil else Bulk(text))
      case Append(more) =>
        var grown := Text(text + more);
        Effect(Write(if held.None? then Plain(grown) else held.value.(value := grown)), Number(|text + more|))
      case Strlen => Effect(Keep, Number(|text|))
      case Increment(step) => AddTo(held, step)
      case Decrement(step) => AddTo(held, -step)
  }

  // ----- hashes -----

  function FieldsOf(held: Option<Entry>): map<string, string> {
    if held.Some? && held.value.value.Hash? then held.value.value.fields else map[]
  }

  function WithFields(fields: map<string, string>, pairs: seq<(string, string)>): map<string, string>
    decreases |pairs|
  {
    if pairs == [] then fields else WithFields(fields[pairs[0].0 := pairs[0].1], pairs[1..])
  }

  function FieldsAdded(fields: map<string, string>, pairs: seq<(string, string)>): nat
    decreases |pairs|
  {
    if pairs == [] then 0
    else (if pairs[0].0 in fields then 0 else 1) + FieldsAdded(fields[pairs[0].0 := pairs[0].1], pairs[1..])
  }

  function WithoutFields(fields: map<string, string>, names: seq<string>): map<string, string>
    decreases |names|
  {
    if names == [] then fields else WithoutFields(fields - {names[0]}, names[1..])
  }

  function FieldsRemoved(fields: map<string, string>, names: seq<string>): nat
    decreases |names|
  {
    if names == [] then 0 else (if names[0] in fields then 1 else 0) + FieldsRemoved(fields - {names[0]}, names[1..])
  }

  /** The entry a write changes: what is there, or a new one with no deadline. */
  function Changed(held: Option<Entry>, v: Value): Entry {
    if held.Some? then held.value.(value := v) else Plain(v)
  }

  function HashEffect(held: Option<Entry>, verb: Verb): Effect
    requires verb.Hset? || verb.Hget? || verb.Hdel? || verb.Hgetall?
  {
    if held.Some? && !held.value.value.Hash? then Effect(Keep, Failed(WrongType))
    else
      var fields := FieldsOf(held);
      match verb
      case Hset(pairs) => Effect(Write(Changed(held, Hash(WithFields(fields, pairs)))), Number(FieldsAdded(fields, pairs)))
      case Hget(f) => Effect(Keep, if f in fields then Bulk(fields[f]) else Nil)
      case Hdel(names) =>
        if held.None? then Effect(Keep, Number(0))
        else Effect(Pruned(Changed(held, Hash(WithoutFields(fields, names)))), Number(FieldsRemoved(fields, names)))
      case Hgetall => Effect(Keep, Pairs(fields))
  }

  // ----- lists -----

  function ItemsOf(held: Option<Entry>): seq<string> {
    if held.Some? && held.value.value.List? then held.value.value.items else []
  }

  function WithItems(list: seq<string>, front: bool, items: seq<string>): (r: seq<string>)
    ensures |r| == |list| + |items|
    decreases |items|
  {
    if items == [] then list else WithItems(if front then [items[0]] + list else list + [items[0]], front, items[1..])
  }

  /** The index of an element LRANGE asks for. */
  predicate Selected(i: int, first: int, last: int, length: nat) {
    0 <= i < length && (if first < 0 then first + length else first) <= i <= (if last < 0 then last + length else last)
  }

  /** Inclusive ends that count from the back when negative, as the half-open range they select. */
  function Span(first: int, last: int, length: nat): (r: (int, int))
    ensures 0 <= r.0 <= r.1 <= length
    ensures forall i :: Selected(i, first, last, length) <==> r.0 <= i < r.1
  {
    var f := if first < 0 then first + length else first;
    var l := if last < 0 then last + length else last;
    var from, to := if f > 0 then f else 0, if l < length - 1 then l else length - 1;
    if from > to then (0, 0) else (from, to + 1)
  }

  function ListEffect(held: Option<Entry>, verb: Verb): Effect
    requires verb.Push? || verb.Pop? || verb.Lrange? || verb.Llen?
  {
    if held.Some? && !held.value.value.List? then Effect(Keep, Failed(WrongType))
    else
      var list := ItemsOf(held);
      match verb
      case Push(front, items) => Effect(Write(Changed(held, List(WithItems(list, front, items)))), Number(|list| + |items|))
      case Pop(front) =>
        if held.None? then Effect(Keep, Nil)
        else if list == [] then Effect(Keep, Panic)
        else if front then Effect(Pruned(Changed(held, List(list[1..]))), Bulk(list[0]))
        else Effect(Pruned(Changed(held, List(list[..|list| - 1]))), Bulk(list[|list| - 1]))
      case Lrange(first, last) => Effect(Keep, Items(list[Span(first, last, |list|).0..Span(first, last, |list|).1]))
      case Llen => Effect(Keep, Number(|list|))
  }

  // ----- sets -----

  function MembersOf(held: Option<Entry>): set<string> {
    if held.Some? && held.value.value.Members? then held.value.value.members else {}
  }

  function WithMembers(members: set<string>, names: seq<string>): set<string>
    decreases |names|
  {
    if names == [] then members else WithMembers(members + {names[0]}, names[1..])
  }

  function MembersAdded(members: set<string>, names: seq<string>): nat
    decreases |names|
  {
    if names == [] then 0 else (if names[0] in members then 0 else 1) + MembersAdded(members + {names[0]}, names[1..])
  }

  function WithoutMembers(members: set<string>, names: seq<string>): set<string>
    decreases |names|
  {
    if names == [] then members else WithoutMembers(members - {names[0]}, names[1..])
  }

  function MembersRemoved(members: set<string>, names: seq<string>): nat
    decreases |names|
  {
    if names == [] then 0 else (if names[0] in members then 1 else 0) + MembersRemoved(members - {names[0]}, names[1..])
  }

  function MembersEffect(held: Option<Entry>, verb: Verb): Effect
    requires verb.Sadd? || verb.Srem? || verb.Smembers? || verb.Sismember? || verb.Scard?
  {
    if held.Some? && !held.value.value.Members? then Effect(Keep, Failed(WrongType))
    else
      var members := MembersOf(held);
      match verb
      case Sadd(names) => Effect(Write(Changed(held, Members(WithMembers(members, names)))), Number(MembersAdded(members, names)))
      case Srem(names) =>
        if held.None? then Effect(Keep, Number(0))
        else Effect(Pruned(Changed(held, Members(WithoutMembers(members, names)))), Number(MembersRemoved(members, names)))
      case Smembers => Effect(Keep, Names(members))
      case Sismember(m) => Effect(Keep, Number(if m in members then 1 else 0))
      case Scard => Effect(Keep, Number(|members|))
  }

  // ----- a whole command -----

  /** A command refused before it looks at the key. */
  predicate Short(verb: Verb) {
    || (verb.Hset? && verb.pairs == [])
    || (verb.Hdel? && verb.names == []) || (verb.Sadd? && verb.names == []) || (verb.Srem? && verb.names == [])
    || (verb.Push? && verb.items == [])
  }

  function Perform(held: Option<Entry>, verb: Verb, now: int): Effect {
    if Short(verb) then Effect(Keep, Failed(WrongArity))
    else match verb
      case Get => StringEffect(held, verb)
      case Set(text, words) => SetEffect(held, text, words, now)
      case Setex(count, text) =>
        if Deadline(count, Second, now).None? then Effect(Keep, Failed(InvalidExpire))
        else Effect(Write(Entry(Text(text), Deadline(count, Second, now))), Status("OK"))
      case Getset(_) => StringEffect(held, verb)
      case Append(_) => StringEffect(held, verb)
      case Strlen => StringEffect(held, verb)
      case Increment(_) => StringEffect(held, verb)
      case Decrement(step) => if step == MinInt64 then Effect(Keep, Failed(Overflow)) else StringEffect(held, verb)
      case Expire(seconds) => ExpireEffect(held, seconds, now)
      case Ttl => Effect(Keep, TtlReply(held, now))
      case TypeOf => Effect(Keep, Status(if held.None? then "none" else KindName(held.value.value)))
      case Hset(_) => HashEffect(held, verb)
      case Hget(_) => HashEffect(held, verb)
      case Hdel(_) => HashEffect(held, verb)
      case Hgetall => HashEffect(held, verb)
      case Push(_, _) => ListEffect(held, verb)
      case Pop(_) => ListEffect(held, verb)
      case Lrange(_, _) => ListEffect(held, verb)
      case Llen => ListEffect(held, verb)
      case Sadd(_) => MembersEffect(held, verb)
      case Srem(_) => MembersEffect(held, verb)
      case Smembers => MembersEffect(held, verb)
      case Sismember(_) => MembersEffect(held, verb)
      case Scard => MembersEffect(held, verb)
  }

  function Apply(s: Space, key: string, change: Change): Space {
    match change
    case Keep => s
    case Write(e) => s[key := e]
    case Erase => s - {key}
  }

  /** Whether the command gets as far as the key: one that is refused first, or a SETEX, never looks. */
  predicate Looks(verb: Verb, now: int) {
    !Short(verb) && !verb.Setex? && (verb.Set? ==> !ReadWords(NoOptions, verb.words, now).Bad?)
    && (verb.Decrement? ==> verb.step != MinInt64)
  }

  datatype Outcome = Outcome(space: Space, reply: Reply)

  function ExecOne(s: Space, key: string, verb: Verb, now: int): Outcome {
    var effect := Perform(Lookup(s, key, now), verb, now);
    Outcome(Apply(if Looks(verb, now) then Dropped(s, key, now) else s, key, effect.change), effect.reply)
  }

  // ----- several keys -----

  function AfterLooking(s: Space, keys: seq<string>, now: int): Space
    decreases |keys|
  {
    if keys == [] then s else AfterLooking(Dropped(s, keys[0], now), keys[1..], now)
  }

  function CountLive(s: Space, keys: seq<string>, now: int): nat
    decreases |keys|
  {
    if keys == [] then 0 else (if Lookup(s, keys[0], now).Some? then 1 else 0) + CountLive(s, keys[1..], now)
  }

  /** The live text of each key, or nothing for a key that holds anything else. */
  function Texts(s: Space, keys: seq<string>, now: int): seq<Option<string>>
    decreases |keys|
  {
    if keys == [] then []
    else
      var held := Lookup(s, keys[0], now);
      [if held.Some? && held.value.value.Text? then Some(held.value.value.text) else None] + Texts(s, keys[1..], now)
  }

  function AfterDel(s: Space, keys: seq<string>): Space
    decreases |keys|
  {
    if keys == [] then s else AfterDel(s - {keys[0]}, keys[1..])
  }

  function CountDel(s: Space, keys: seq<string>, now: int): nat
    decreases |keys|
  {
    if keys == [] then 0 else (if Lookup(s, keys[0], now).Some? then 1 else 0) + CountDel(s - {keys[0]}, keys[1..], now)
  }

  function WithTexts(s: Space, pairs: seq<(string, string)>): Space
    decreases |pairs|
  {
    if pairs == [] then s else WithTexts(s[pairs[0].0 := Plain(Text(pairs[0].1))], pairs[1..])
  }

  /** The space without the keys whose time has passed: a listing walks the whole map, and so leaves this. */
  ghost function Swept(s: Space, now: int): Space {
    map key | key in LiveKeys(s, now) :: s[key]
  }

  ghost function Matching(keys: set<string>, pattern: string): set<string> {
    set key | key in keys && Glob.InLanguage(Glob.Tokens(pattern), key)
  }

  ghost function Exec(s: Space, c: Command, now: int): Outcome {
    match c
    case One(key, verb) => ExecOne(s, key, verb, now)
    case Del(keys) => Outcome(AfterDel(s, keys), Number(CountDel(s, keys, now)))
    case Exists(keys) => Outcome(AfterLooking(s, keys, now), Number(CountLive(s, keys, now)))
    case Mget(keys) => Outcome(AfterLooking(s, keys, now), Bulks(Texts(s, keys, now)))
    case Mset(pairs) => Outcome(WithTexts(s, pairs), Status("OK"))
    case Keys(pattern) =>
      Outcome(Swept(s, now), Names(Matching(LiveKeys(s, now), pattern)))
    case Dbsize => Outcome(Swept(s, now), Number(|LiveKeys(s, now)|))
    case Flush => Outcome(map[], Status("OK"))
  }

  // ----- traces -----

  datatype Timed = Timed(command: Command, now: int)

  predicate Clocked(trace: seq<Timed>, since: int)
    decreases |trace|
  {
    trace == [] || (since <= trace[0].now && Clocked(trace[1..], trace[0].now))
  }

  /** The space after a trace, and the replies to it. */
  ghost function After(s: Space, trace: seq<Timed>): Space
    decreases |trace|
  {
    if trace == [] then s else After(Exec(s, trace[0].command, trace[0].now).space, trace[1..])
  }

  ghost function Replies(s: Space, trace: seq<Timed>): seq<Reply>
    decreases |trace|
  {
    if trace == [] then []
    else
      var out := Exec(s, trace[0].command, trace[0].now);
      [out.reply] + Replies(out.space, trace[1..])
  }

  /** The replies of a store that sweeps before every command. */
  ghost function SweptReplies(s: Space, trace: seq<Timed>): seq<Reply>
    decreases |trace|
  {
    if trace == [] then []
    else
      var out := Exec(Swept(s, trace[0].now), trace[0].command, trace[0].now);
      [out.reply] + SweptReplies(out.space, trace[1..])
  }
}
