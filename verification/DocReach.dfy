/**
 What a dotted path reaches in a document: the walk that collects it, and the
 trails it follows, through the first field of a name, to the item an index
 names, and into every document of an array.
 */
module DocReach {
  import opened Common
  import opened Bson
  import opened DocUpdate

  // ----- the walk -----

  function Decimal(text: string, acc: int): Option<int>
    decreases |text|
  {
    if text == "" then Some(acc)
    else if '0' <= text[0] <= '9' then Decimal(text[1..], acc * 10 + (text[0] as int - '0' as int))
    else None
  }

  function Atoi(text: string): Option<int> {
    if text == "" then None
    else if text[0] == '-' || text[0] == '+' then
      if |text| == 1 then None
      else match Decimal(text[1..], 0)
           case None => None
           case Some(n) => Some(if text[0] == '-' then -n else n)
    else Decimal(text, 0)
  }

  /** Every value a dotted path reaches, looking into arrays by index and through their documents. */
  function Resolve(v: Value, path: seq<string>): seq<Value>
    decreases |path|, v, 1
  {
    if path == [] then [v]
    else
      match v
      case Document(fields) =>
        (match Lookup(fields, path[0])
         case None => []
         case Some(held) => Resolve(held, path[1..]))
      case Array(items) =>
        var index := Atoi(path[0]);
        (if index.Some? && 0 <= index.value < |items| then Resolve(items[index.value], path[1..]) else [])
        + ResolveEach(items, path)
      case _ => []
  }

  function ResolveEach(items: seq<Value>, path: seq<string>): seq<Value>
    requires path != []
    decreases |path|, items, 0
  {
    if items == [] then []
    else (if items[0].Document? then Resolve(items[0], path) else []) + ResolveEach(items[1..], path)
  }

  function ValuesAt(d: Doc, path: string): seq<Value> {
    Resolve(Document(d), PathOf(path))
  }

  // ----- trails -----

  /** A value on the way, and what of the path is still unspent there. */
  datatype Stop = Stop(value: Value, rest: seq<string>)

  /** The text is a decimal number, signed or not, that names this index. */
  predicate Spells(text: string, index: nat) {
    var signed := text != "" && (text[0] == '-' || text[0] == '+');
    var digits := if signed then text[1..] else text;
    digits != "" && AllDigits(digits) && ValueOf(digits) == index && (signed && text[0] == '-' ==> index == 0)
  }

  /** The value of the first field of the name. */
  ghost predicate Holds(fields: Doc, name: string, v: Value) {
    exists i :: 0 <= i < |fields| && fields[i] == Field(name, v) && forall j :: 0 <= j < i ==> fields[j].key != name
  }

  /** One step: into the field of the name, to the item of the index, or to a document of the array with the path unspent. */
  ghost predicate Moves(a: Stop, b: Stop) {
    && a.rest != []
    && (if a.value.Document? then b.rest == a.rest[1..] && Holds(a.value.fields, a.rest[0], b.value)
        else a.value.Array? && (ToItem(a, b) || (b.rest == a.rest && b.value.Document? && b.value in a.value.items)))
  }

  ghost predicate ToItem(a: Stop, b: Stop)
    requires a.rest != [] && a.value.Array?
  {
    b.rest == a.rest[1..] && exists i :: 0 <= i < |a.value.items| && Spells(a.rest[0], i) && b.value == a.value.items[i]
  }

  /** A way from the value, with the path to spend, to another with all of it spent. */
  ghost predicate Trail(stops: seq<Stop>, v: Value, path: seq<string>, w: Value) {
    && stops != [] && stops[0] == Stop(v, path) && stops[|stops| - 1] == Stop(w, [])
    && forall i :: 0 <= i < |stops| - 1 ==> Moves(stops[i], stops[i + 1])
  }

  ghost predicate Leads(v: Value, path: seq<string>, w: Value) {
    exists stops :: Trail(stops, v, path, w)
  }

  /** The values the path leads to. */
  ghost function Reached(d: Doc, path: string): iset<Value> {
    iset w | Leads(Document(d), PathOf(path), w)
  }

  // ----- indices -----

  lemma {:induction false} DecimalSnoc(text: string, acc: int)
    requires text != ""
    ensures var front, last := text[..|text| - 1], text[|text| - 1];
            Decimal(text, acc) ==
              if Decimal(front, acc).Some? && IsDigit(last) then Some(Decimal(front, acc).value * 10 + (last as int - '0' as int)) else None
    decreases |text|
  {
    if |text| > 1 {
      var rest := text[1..];
      assert rest[..|rest| - 1] == text[..|text| - 1][1..];
      if IsDigit(text[0]) {
        DecimalSnoc(rest, acc * 10 + (text[0] as int - '0' as int));
      }
    } else {
      assert text[..0] == "" && text[1..] == "";
    }
  }

  lemma {:induction false} DecimalValue(text: string)
    ensures Decimal(text, 0).Some? <==> AllDigits(text)
    ensures AllDigits(text) ==> Decimal(text, 0) == Some(ValueOf(text))
    decreases |text|
  {
    if text != "" {
      DecimalSnoc(text, 0);
      DecimalValue(text[..|text| - 1]);
    }
  }

  lemma AtoiSpells(text: string, i: nat)
    ensures Atoi(text) == Some(i) <==> Spells(text, i)
  {
    if text != "" {
      DecimalValue(text[1..]);
      DecimalValue(text);
      if text[0] == '-' || text[0] == '+' {
        assert !IsDigit(text[0]);
      }
    }
  }

  // ----- the walk follows every trail, and nothing else -----

  lemma {:induction false} LookupHolds(d: Doc, name: string, v: Value)
    ensures Lookup(d, name) == Some(v) <==> Holds(d, name, v)
  {
    if d != [] {
      var rest := d[1..];
      if d[0].key == name {
        if Holds(d, name, v) {
          var i :| 0 <= i < |d| && d[i] == Field(name, v) && forall j :: 0 <= j < i ==> d[j].key != name;
          assert i == 0;
        }
      } else {
        LookupHolds(rest, name, v);
        if Holds(rest, name, v) {
          var i :| 0 <= i < |rest| && rest[i] == Field(name, v) && forall j :: 0 <= j < i ==> rest[j].key != name;
          assert d[i + 1] == Field(name, v) && forall j :: 0 <= j < i + 1 ==> d[j].key != name by {
            forall j | 0 <= j < i + 1 ensures d[j].key != name { if j > 0 { assert rest[j - 1].key != name; } }
          }
        }
        if Holds(d, name, v) {
          var i :| 0 <= i < |d| && d[i] == Field(name, v) && forall j :: 0 <= j < i ==> d[j].key != name;
          assert rest[i - 1] == Field(name, v) && forall j :: 0 <= j < i - 1 ==> rest[j].key != name;
        }
      }
    }
  }

  lemma {:induction false} ResolveEachExact(items: seq<Value>, path: seq<string>, w: Value)
    requires path != []
    ensures w in ResolveEach(items, path) <==> exists item :: item in items && item.Document? && w in Resolve(item, path)
  {
    if items != [] {
      ResolveEachExact(items[1..], path, w);
      assert items == [items[0]] + items[1..];
    }
  }

  lemma MoveReaches(a: Stop, b: Stop, w: Value)
    requires Moves(a, b) && w in Resolve(b.value, b.rest)
    ensures w in Resolve(a.value, a.rest)
  {
    if a.value.Document? {
      LookupHolds(a.value.fields, a.rest[0], b.value);
    } else if ToItem(a, b) {
      var i :| 0 <= i < |a.value.items| && Spells(a.rest[0], i) && b.value == a.value.items[i];
      AtoiSpells(a.rest[0], i);
    } else {
      ResolveEachExact(a.value.items, a.rest, w);
    }
  }

  lemma {:induction false} TrailReaches(stops: seq<Stop>, v: Value, path: seq<string>, w: Value)
    requires Trail(stops, v, path, w)
    ensures w in Resolve(v, path)
    decreases |stops|
  {
    if |stops| > 1 {
      assert Moves(stops[0], stops[0 + 1]);
      var rest := stops[1..];
      forall i | 0 <= i < |rest| - 1 ensures Moves(rest[i], rest[i + 1]) { assert Moves(stops[i + 1], stops[i + 1 + 1]); }
      TrailReaches(rest, stops[1].value, stops[1].rest, w);
      MoveReaches(stops[0], stops[1], w);
    }
  }

  lemma TrailCons(a: Stop, b: Stop, w: Value)
    requires Moves(a, b) && Leads(b.value, b.rest, w)
    ensures Leads(a.value, a.rest, w)
  {
    var stops :| Trail(stops, b.value, b.rest, w);
    var all := [a] + stops;
    forall i | 0 <= i < |all| - 1 ensures Moves(all[i], all[i + 1]) {
      if i > 0 { assert Moves(stops[i - 1], stops[i - 1 + 1]); }
    }
    assert Trail(all, a.value, a.rest, w);
  }

  lemma {:induction false} ReachedHasTrail(v: Value, path: seq<string>, w: Value)
    requires w in Resolve(v, path)
    ensures Leads(v, path, w)
    decreases |path|, v
  {
    var a := Stop(v, path);
    if path == [] {
      assert Trail([a], v, path, w);
    } else if v.Document? {
      var held := Lookup(v.fields, path[0]).value;
      LookupHolds(v.fields, path[0], held);
      ReachedHasTrail(held, path[1..], w);
      TrailCons(a, Stop(held, path[1..]), w);
    } else {
      ReachedInArray(v, path, w);
    }
  }

  lemma {:induction false} ReachedInArray(v: Value, path: seq<string>, w: Value)
    requires path != [] && v.Array? && w in Resolve(v, path)
    ensures Leads(v, path, w)
    decreases |path|, v, 0
  {
    var a := Stop(v, path);
    var index := Atoi(path[0]);
    if index.Some? && 0 <= index.value < |v.items| && w in Resolve(v.items[index.value], path[1..]) {
      AtoiSpells(path[0], index.value);
      ReachedHasTrail(v.items[index.value], path[1..], w);
      assert ToItem(a, Stop(v.items[index.value], path[1..]));
      TrailCons(a, Stop(v.items[index.value], path[1..]), w);
    } else {
      ResolveEachExact(v.items, path, w);
      var item :| item in v.items && item.Document? && w in Resolve(item, path);
      ReachedHasTrail(item, path, w);
      TrailCons(a, Stop(item, path), w);
    }
  }

  /** The walk collects exactly the values some trail leads to. */
  lemma ResolveExact(v: Value, path: seq<string>, w: Value)
    ensures w in Resolve(v, path) <==> Leads(v, path, w)
  {
    if w in Resolve(v, path) {
      ReachedHasTrail(v, path, w);
    }
    if Leads(v, path, w) {
      var stops :| Trail(stops, v, path, w);
      TrailReaches(stops, v, path, w);
    }
  }

  /** The values of a sequence, whatever their order and number. */
  ghost function Contents(values: seq<Value>): iset<Value> {
    iset v | v in values
  }

  lemma ContentsEmpty(values: seq<Value>)
    ensures Contents(values) == iset{} <==> values == []
  {
    if values != [] {
      assert values[0] in Contents(values);
    }
  }

  lemma ValuesAtExact(d: Doc, path: string)
    ensures Contents(ValuesAt(d, path)) == Reached(d, path)
  {
    forall w ensures w in Contents(ValuesAt(d, path)) <==> w in Reached(d, path) {
      ResolveExact(Document(d), PathOf(path), w);
    }
  }

  /** Through documents alone a path reaches the one value an update would read. */
  lemma {:induction false} ResolveReads(d: Doc, path: Path)
    ensures ValueAt(d, path).Some? ==> Resolve(Document(d), path) == [ValueAt(d, path).value]
    decreases |path|
  {
    var held := Lookup(d, path[0]);
    if held.Some? && |path| > 1 && held.value.Document? {
      ResolveReads(held.value.fields, path[1..]);
    }
  }
}
