/**
 BSON values and MongoDB's order on them: by type first, then within the type.
 A number is the float64 it is compared as; a date is a 64-bit count of
 milliseconds, compared by a subtraction that wraps.
 */
module Bson {
  import opened Common

  /** A float64, as far as an order can tell. */
  datatype Float = NaN | NegInf | Finite(r: real) | PosInf

  const TWO_63 := 0x8000_0000_0000_0000
  const TWO_64 := 0x1_0000_0000_0000_0000

  type Int64 = x: int | -TWO_63 <= x < TWO_63
  type Uint32 = x: int | 0 <= x < 0x1_0000_0000

  datatype Field = Field(key: string, value: Value)

  /** `whole` is the integer a number was written as, when it was one. */
  datatype Value =
    | MinKey
    | Null
    | Undefined
    | Number(key: Float, whole: Option<int>)
    | Text(text: string)
    | Document(fields: seq<Field>)
    | Array(items: seq<Value>)
    | Binary(data: string)
    | ObjectId(id: string)
    | Boolean(flag: bool)
    | Date(millis: Int64)
    | Timestamp(t: Uint32, i: Uint32)
    | Regex(pattern: string, options: string)
    | MaxKey
    | Unknown(name: string)

  function Rank(v: Value): nat {
    match v
    case MinKey => 0
    case Null => 1
    case Undefined => 1
    case Number(_, _) => 2
    case Text(_) => 3
    case Document(_) => 4
    case Array(_) => 5
    case Binary(_) => 6
    case ObjectId(_) => 7
    case Boolean(_) => 8
    case Date(_) => 9
    case Timestamp(_, _) => 10
    case Regex(_, _) => 11
    case MaxKey => 12
    case Unknown(_) => 13
  }

  function Sign(d: int): int {
    if d < 0 then -1 else if d > 0 then 1 else 0
  }

  /** The first order that separates decides. */
  function Then(first: int, rest: int): int {
    if first != 0 then first else rest
  }

  function CompareText(l: string, r: string): int {
    if l == [] || r == [] then Sign(|l| - |r|)
    else if l[0] < r[0] then -1
    else if l[0] > r[0] then 1
    else CompareText(l[1..], r[1..])
  }

  function CompareFloat(l: Float, r: Float): int {
    match (l, r)
    case (NaN, _) => 0
    case (_, NaN) => 0
    case (Finite(a), Finite(b)) => if a < b then -1 else if a > b then 1 else 0
    case (NegInf, _) => if r.NegInf? then 0 else -1
    case (PosInf, _) => if r.PosInf? then 0 else 1
    case (Finite(_), NegInf) => 1
    case (Finite(_), PosInf) => -1
  }

  /** The 64-bit integer a subtraction of two of them leaves. */
  function Wrap(d: int): int {
    if d >= TWO_63 then d - TWO_64 else if d < -TWO_63 then d + TWO_64 else d
  }

  function CompareInt(l: int, r: int): int {
    Sign(Wrap(l - r))
  }

  function CompareBool(l: bool, r: bool): int {
    if l == r then 0 else if r then -1 else 1
  }

  function Compare(l: Value, r: Value): int
    decreases l, 1
  {
    if Rank(l) != Rank(r) then Sign(Rank(l) - Rank(r))
    else
      match l
      case Number(a, _) => CompareFloat(a, r.key)
      case Text(a) => CompareText(a, r.text)
      case Document(a) => CompareFields(a, r.fields)
      case Array(a) => CompareItems(a, r.items)
      case Binary(a) => CompareText(a, r.data)
      case ObjectId(a) => CompareText(a, r.id)
      case Boolean(a) => CompareBool(a, r.flag)
      case Date(a) => CompareInt(a, r.millis)
      case Timestamp(a, b) => Then(CompareInt(a, r.t), CompareInt(b, r.i))
      case Regex(a, b) => Then(CompareText(a, r.pattern), CompareText(b, r.options))
      case _ => 0
  }

  /** Field by field, key before value; a prefix comes first. */
  function CompareFields(l: seq<Field>, r: seq<Field>): int
    decreases l, 0
  {
    if l == [] || r == [] then Sign(|l| - |r|)
    else Then(CompareText(l[0].key, r[0].key), Then(Compare(l[0].value, r[0].value), CompareFields(l[1..], r[1..])))
  }

  function CompareItems(l: seq<Value>, r: seq<Value>): int
    decreases l, 0
  {
    if l == [] || r == [] then Sign(|l| - |r|)
    else Then(Compare(l[0], r[0]), CompareItems(l[1..], r[1..]))
  }

  predicate Equal(l: Value, r: Value) {
    Rank(l) == Rank(r) && Compare(l, r) == 0
  }

  // ----- the loops the program compares with -----

  method CompareDocuments(l: seq<Field>, r: seq<Field>) returns (order: int)
    ensures order == CompareFields(l, r)
  {
    var n := if |l| < |r| then |l| else |r|;
    for i := 0 to n
      invariant CompareFields(l[i..], r[i..]) == CompareFields(l, r)
    {
      assert l[i..][1..] == l[i + 1..] && r[i..][1..] == r[i + 1..];
      order := CompareText(l[i].key, r[i].key);
      if order != 0 {
        return;
      }
      order := Compare(l[i].value, r[i].value);
      if order != 0 {
        return;
      }
    }
    return Sign(|l| - |r|);
  }

  method CompareArrays(l: seq<Value>, r: seq<Value>) returns (order: int)
    ensures order == CompareItems(l, r)
  {
    var n := if |l| < |r| then |l| else |r|;
    for i := 0 to n
      invariant CompareItems(l[i..], r[i..]) == CompareItems(l, r)
    {
      assert l[i..][1..] == l[i + 1..] && r[i..][1..] == r[i + 1..];
      order := Compare(l[i], r[i]);
      if order != 0 {
        return;
      }
    }
    return Sign(|l| - |r|);
  }

  // ----- where the order is one -----

  /** The value holds no NaN, and its dates lie in the window of 2^63 milliseconds from lo on. */
  predicate Sane(v: Value, lo: int)
    decreases v, 1
  {
    match v
    case Number(key, _) => !key.NaN?
    case Document(fields) => SaneFields(fields, lo)
    case Array(items) => SaneItems(items, lo)
    case Date(ms) => lo <= ms < lo + TWO_63
    case _ => true
  }

  predicate SaneFields(fields: seq<Field>, lo: int)
    decreases fields, 0
  {
    fields == [] || (Sane(fields[0].value, lo) && SaneFields(fields[1..], lo))
  }

  predicate SaneItems(items: seq<Value>, lo: int)
    decreases items, 0
  {
    items == [] || (Sane(items[0], lo) && SaneItems(items[1..], lo))
  }

  /** Three signs a-b, b-c, a-c an order could give. */
  predicate Consistent(ab: int, bc: int, ac: int) {
    && (ab == 0 ==> ac == bc)
    && (bc == 0 ==> ac == ab)
    && (ab == bc ==> ac == ab)
  }

  predicate IsSign(x: int) {
    -1 <= x <= 1
  }

  lemma ThenConsistent(ab: int, bc: int, ac: int, ab': int, bc': int, ac': int)
    requires IsSign(ab) && IsSign(bc) && IsSign(ac)
    requires Consistent(ab, bc, ac) && (ab == 0 && bc == 0 ==> Consistent(ab', bc', ac'))
    requires IsSign(ab') && IsSign(bc') && IsSign(ac')
    ensures Consistent(Then(ab, ab'), Then(bc, bc'), Then(ac, ac'))
  {
  }

  // ----- text, floats, integers -----

  lemma {:induction false} TextSigns(l: string, r: string)
    ensures IsSign(CompareText(l, r)) && CompareText(r, l) == -CompareText(l, r)
    ensures CompareText(l, r) == 0 <==> l == r
  {
    if l != [] && r != [] {
      TextSigns(l[1..], r[1..]);
      assert l == [l[0]] + l[1..] && r == [r[0]] + r[1..];
    }
  }

  lemma {:induction false} TextConsistent(a: string, b: string, c: string)
    ensures Consistent(CompareText(a, b), CompareText(b, c), CompareText(a, c))
  {
    if a != [] && b != [] && c != [] {
      TextConsistent(a[1..], b[1..], c[1..]);
      TextSigns(a[1..], b[1..]);
      TextSigns(b[1..], c[1..]);
    }
  }

  /** A wrapped subtraction orders two 64-bit integers exactly when their difference fits in one. */
  lemma CompareIntExact(l: int, r: int)
    requires -TWO_63 <= l < TWO_63 && -TWO_63 <= r < TWO_63
    ensures CompareInt(l, r) == Sign(l - r) <==> -TWO_63 <= l - r < TWO_63
  {
  }

  /** Comparing floats is transitive exactly away from a NaN between two numbers out of order. */
  lemma CompareFloatExact(a: Float, b: Float, c: Float)
    ensures (CompareFloat(a, b) <= 0 && CompareFloat(b, c) <= 0 ==> CompareFloat(a, c) <= 0)
            <==> !(b.NaN? && CompareFloat(a, c) > 0)
  {
  }

  // ----- the order laws -----

  lemma {:induction false} CompareReflexive(v: Value)
    ensures Compare(v, v) == 0
    decreases v, 1
  {
    match v
    case Text(a) => TextSigns(a, a);
    case Document(a) => FieldsReflexive(a);
    case Array(a) => ItemsReflexive(a);
    case Binary(a) => TextSigns(a, a);
    case ObjectId(a) => TextSigns(a, a);
    case Regex(a, b) => TextSigns(a, a); TextSigns(b, b);
    case _ =>
  }

  lemma {:induction false} FieldsReflexive(fields: seq<Field>)
    ensures CompareFields(fields, fields) == 0
    decreases fields, 0
  {
    if fields != [] {
      TextSigns(fields[0].key, fields[0].key);
      CompareReflexive(fields[0].value);
      FieldsReflexive(fields[1..]);
    }
  }

  lemma {:induction false} ItemsReflexive(items: seq<Value>)
    ensures CompareItems(items, items) == 0
    decreases items, 0
  {
    if items != [] {
      CompareReflexive(items[0]);
      ItemsReflexive(items[1..]);
    }
  }

  lemma {:induction false} CompareSigns(l: Value, r: Value, lo: int)
    requires Sane(l, lo) && Sane(r, lo)
    ensures IsSign(Compare(l, r)) && Compare(r, l) == -Compare(l, r)
    decreases l, 1
  {
    if Rank(l) == Rank(r) {
      match l
      case Text(a) => TextSigns(a, r.text);
      case Document(a) => FieldsSigns(a, r.fields, lo);
      case Array(a) => ItemsSigns(a, r.items, lo);
      case Binary(a) => TextSigns(a, r.data);
      case ObjectId(a) => TextSigns(a, r.id);
      case Regex(a, b) => TextSigns(a, r.pattern); TextSigns(b, r.options);
      case _ =>
    }
  }

  lemma {:induction false} FieldsSigns(l: seq<Field>, r: seq<Field>, lo: int)
    requires SaneFields(l, lo) && SaneFields(r, lo)
    ensures IsSign(CompareFields(l, r)) && CompareFields(r, l) == -CompareFields(l, r)
    decreases l, 0
  {
    if l != [] && r != [] {
      TextSigns(l[0].key, r[0].key);
      CompareSigns(l[0].value, r[0].value, lo);
      FieldsSigns(l[1..], r[1..], lo);
    }
  }

  lemma {:induction false} ItemsSigns(l: seq<Value>, r: seq<Value>, lo: int)
    requires SaneItems(l, lo) && SaneItems(r, lo)
    ensures IsSign(CompareItems(l, r)) && CompareItems(r, l) == -CompareItems(l, r)
    decreases l, 0
  {
    if l != [] && r != [] {
      CompareSigns(l[0], r[0], lo);
      ItemsSigns(l[1..], r[1..], lo);
    }
  }

  lemma {:induction false} CompareConsistent(a: Value, b: Value, c: Value, lo: int)
    requires Sane(a, lo) && Sane(b, lo) && Sane(c, lo)
    ensures Consistent(Compare(a, b), Compare(b, c), Compare(a, c))
    decreases a, 1
  {
    if Rank(a) == Rank(b) == Rank(c) {
      match a
      case Text(x) => TextConsistent(x, b.text, c.text);
      case Document(x) => FieldsConsistent(x, b.fields, c.fields, lo);
      case Array(x) => ItemsConsistent(x, b.items, c.items, lo);
      case Binary(x) => TextConsistent(x, b.data, c.data);
      case ObjectId(x) => TextConsistent(x, b.id, c.id);
      case Regex(x, y) => RegexConsistent(x, y, b, c);
      case _ =>
    } else {
      CompareSigns(a, b, lo);
      CompareSigns(b, c, lo);
      CompareSigns(a, c, lo);
    }
  }

  lemma RegexConsistent(x: string, y: string, b: Value, c: Value)
    requires b.Regex? && c.Regex?
    ensures var a := Regex(x, y); Consistent(Compare(a, b), Compare(b, c), Compare(a, c))
  {
    TextConsistent(x, b.pattern, c.pattern);
    TextConsistent(y, b.options, c.options);
    TextSigns(x, b.pattern);
    TextSigns(b.pattern, c.pattern);
    TextSigns(x, c.pattern);
    TextSigns(y, b.options);
    TextSigns(b.options, c.options);
    TextSigns(y, c.options);
  }

  lemma {:induction false} FieldsConsistent(a: seq<Field>, b: seq<Field>, c: seq<Field>, lo: int)
    requires SaneFields(a, lo) && SaneFields(b, lo) && SaneFields(c, lo)
    ensures Consistent(CompareFields(a, b), CompareFields(b, c), CompareFields(a, c))
    decreases a, 0
  {
    FieldsSigns(a, b, lo);
    FieldsSigns(b, c, lo);
    FieldsSigns(a, c, lo);
    if a != [] && b != [] && c != [] {
      var kab, kbc, kac := CompareText(a[0].key, b[0].key), CompareText(b[0].key, c[0].key), CompareText(a[0].key, c[0].key);
      TextSigns(a[0].key, b[0].key);
      TextSigns(b[0].key, c[0].key);
      TextSigns(a[0].key, c[0].key);
      TextConsistent(a[0].key, b[0].key, c[0].key);
      var vab, vbc, vac := Compare(a[0].value, b[0].value), Compare(b[0].value, c[0].value), Compare(a[0].value, c[0].value);
      CompareSigns(a[0].value, b[0].value, lo);
      CompareSigns(b[0].value, c[0].value, lo);
      CompareSigns(a[0].value, c[0].value, lo);
      CompareConsistent(a[0].value, b[0].value, c[0].value, lo);
      var rab, rbc, rac := CompareFields(a[1..], b[1..]), CompareFields(b[1..], c[1..]), CompareFields(a[1..], c[1..]);
      FieldsSigns(a[1..], b[1..], lo);
      FieldsSigns(b[1..], c[1..], lo);
      FieldsSigns(a[1..], c[1..], lo);
      FieldsConsistent(a[1..], b[1..], c[1..], lo);
      ThenConsistent(vab, vbc, vac, rab, rbc, rac);
      ThenConsistent(kab, kbc, kac, Then(vab, rab), Then(vbc, rbc), Then(vac, rac));
    }
  }

  lemma {:induction false} ItemsConsistent(a: seq<Value>, b: seq<Value>, c: seq<Value>, lo: int)
    requires SaneItems(a, lo) && SaneItems(b, lo) && SaneItems(c, lo)
    ensures Consistent(CompareItems(a, b), CompareItems(b, c), CompareItems(a, c))
    decreases a, 0
  {
    ItemsSigns(a, b, lo);
    ItemsSigns(b, c, lo);
    ItemsSigns(a, c, lo);
    if a != [] && b != [] && c != [] {
      CompareSigns(a[0], b[0], lo);
      CompareSigns(b[0], c[0], lo);
      CompareSigns(a[0], c[0], lo);
      CompareConsistent(a[0], b[0], c[0], lo);
      ItemsSigns(a[1..], b[1..], lo);
      ItemsSigns(b[1..], c[1..], lo);
      ItemsSigns(a[1..], c[1..], lo);
      ItemsConsistent(a[1..], b[1..], c[1..], lo);
      ThenConsistent(Compare(a[0], b[0]), Compare(b[0], c[0]), Compare(a[0], c[0]),
                     CompareItems(a[1..], b[1..]), CompareItems(b[1..], c[1..]), CompareItems(a[1..], c[1..]));
    }
  }

  /** On sane values `Compare` is a total preorder. */
  lemma CompareIsTotalPreorder(a: Value, b: Value, c: Value, lo: int)
    requires Sane(a, lo) && Sane(b, lo) && Sane(c, lo)
    ensures Compare(a, a) == 0
    ensures Compare(b, a) == -Compare(a, b)
    ensures Compare(a, b) <= 0 && Compare(b, c) <= 0 ==> Compare(a, c) <= 0
    ensures Compare(a, b) <= 0 && Compare(b, c) < 0 ==> Compare(a, c) < 0
    ensures Compare(a, b) < 0 && Compare(b, c) <= 0 ==> Compare(a, c) < 0
  {
    CompareReflexive(a);
    CompareSigns(a, b, lo);
    CompareSigns(b, c, lo);
    CompareSigns(a, c, lo);
    CompareConsistent(a, b, c, lo);
  }

  // ----- equality, where the order need not be one -----

  /** The value holds no NaN. */
  predicate NanFree(v: Value)
    decreases v, 1
  {
    match v
    case Number(key, _) => !key.NaN?
    case Document(fields) => NanFreeFields(fields)
    case Array(items) => NanFreeItems(items)
    case _ => true
  }

  predicate NanFreeFields(fields: seq<Field>)
    decreases fields, 0
  {
    fields == [] || (NanFree(fields[0].value) && NanFreeFields(fields[1..]))
  }

  predicate NanFreeItems(items: seq<Value>)
    decreases items, 0
  {
    items == [] || (NanFree(items[0]) && NanFreeItems(items[1..]))
  }

  /** The value now has a NaN in a place where the value before has a number. */
  predicate Blurs(was: Value, now: Value)
    decreases now, 1
  {
    match now
    case Number(key, _) => key.NaN? && was.Number? && !was.key.NaN?
    case Document(fields) => was.Document? && BlursFields(was.fields, fields)
    case Array(items) => was.Array? && BlursItems(was.items, items)
    case _ => false
  }

  predicate BlursFields(was: seq<Field>, now: seq<Field>)
    decreases now, 0
  {
    was != [] && now != [] && (Blurs(was[0].value, now[0].value) || BlursFields(was[1..], now[1..]))
  }

  predicate BlursItems(was: seq<Value>, now: seq<Value>)
    decreases now, 0
  {
    was != [] && now != [] && (Blurs(was[0], now[0]) || BlursItems(was[1..], now[1..]))
  }

  lemma {:induction false} NanFreeBlursNothing(was: Value, now: Value)
    requires NanFree(now)
    ensures !Blurs(was, now)
    decreases now, 1
  {
    match now
    case Document(fields) => if was.Document? { NanFreeFieldsBlurNothing(was.fields, fields); }
    case Array(items) => if was.Array? { NanFreeItemsBlurNothing(was.items, items); }
    case _ =>
  }

  lemma {:induction false} NanFreeFieldsBlurNothing(was: seq<Field>, now: seq<Field>)
    requires NanFreeFields(now)
    ensures !BlursFields(was, now)
    decreases now, 0
  {
    if was != [] && now != [] {
      NanFreeBlursNothing(was[0].value, now[0].value);
      NanFreeFieldsBlurNothing(was[1..], now[1..]);
    }
  }

  lemma {:induction false} NanFreeItemsBlurNothing(was: seq<Value>, now: seq<Value>)
    requires NanFreeItems(now)
    ensures !BlursItems(was, now)
    decreases now, 0
  {
    if was != [] && now != [] {
      NanFreeBlursNothing(was[0], now[0]);
      NanFreeItemsBlurNothing(was[1..], now[1..]);
    }
  }

  lemma {:induction false} ZeroSymmetric(l: Value, r: Value)
    ensures Compare(l, r) == 0 <==> Compare(r, l) == 0
    decreases l, 1
  {
    if Rank(l) == Rank(r) {
      match l
      case Text(a) => TextSigns(a, r.text);
      case Document(a) => FieldsZeroSymmetric(a, r.fields);
      case Array(a) => ItemsZeroSymmetric(a, r.items);
      case Binary(a) => TextSigns(a, r.data);
      case ObjectId(a) => TextSigns(a, r.id);
      case Regex(a, b) => TextSigns(a, r.pattern); TextSigns(b, r.options);
      case _ =>
    }
  }

  lemma {:induction false} FieldsZeroSymmetric(l: seq<Field>, r: seq<Field>)
    ensures CompareFields(l, r) == 0 <==> CompareFields(r, l) == 0
    decreases l, 0
  {
    if l != [] && r != [] {
      TextSigns(l[0].key, r[0].key);
      ZeroSymmetric(l[0].value, r[0].value);
      FieldsZeroSymmetric(l[1..], r[1..]);
    }
  }

  lemma {:induction false} ItemsZeroSymmetric(l: seq<Value>, r: seq<Value>)
    ensures CompareItems(l, r) == 0 <==> CompareItems(r, l) == 0
    decreases l, 0
  {
    if l != [] && r != [] {
      ZeroSymmetric(l[0], r[0]);
      ItemsZeroSymmetric(l[1..], r[1..]);
    }
  }

  /** What equals a value that blurs nothing equals the value it took the place of. */
  lemma {:induction false} SharpCarries(w: Value, now: Value, was: Value)
    requires !Blurs(was, now) && Equal(was, now) && Equal(w, now)
    ensures Equal(w, was)
    decreases now, 1
  {
    match now
    case Text(a) => TextSigns(w.text, a); TextSigns(was.text, a);
    case Document(a) => SharpFieldsCarry(w.fields, a, was.fields);
    case Array(a) => SharpItemsCarry(w.items, a, was.items);
    case Binary(a) => TextSigns(w.data, a); TextSigns(was.data, a);
    case ObjectId(a) => TextSigns(w.id, a); TextSigns(was.id, a);
    case Regex(a, b) =>
      TextSigns(w.pattern, a); TextSigns(was.pattern, a);
      TextSigns(w.options, b); TextSigns(was.options, b);
    case _ =>
  }

  lemma {:induction false} SharpFieldsCarry(w: seq<Field>, now: seq<Field>, was: seq<Field>)
    requires !BlursFields(was, now) && CompareFields(was, now) == 0 && CompareFields(w, now) == 0
    ensures CompareFields(w, was) == 0
    decreases now, 0
  {
    if w != [] && now != [] && was != [] {
      TextSigns(w[0].key, now[0].key);
      TextSigns(was[0].key, now[0].key);
      TextSigns(w[0].key, was[0].key);
      ZeroMeansEqual(w[0].value, now[0].value);
      ZeroMeansEqual(was[0].value, now[0].value);
      SharpCarries(w[0].value, now[0].value, was[0].value);
      SharpFieldsCarry(w[1..], now[1..], was[1..]);
    }
  }

  lemma {:induction false} SharpItemsCarry(w: seq<Value>, now: seq<Value>, was: seq<Value>)
    requires !BlursItems(was, now) && CompareItems(was, now) == 0 && CompareItems(w, now) == 0
    ensures CompareItems(w, was) == 0
    decreases now, 0
  {
    if w != [] && now != [] && was != [] {
      ZeroMeansEqual(w[0], now[0]);
      ZeroMeansEqual(was[0], now[0]);
      SharpCarries(w[0], now[0], was[0]);
      SharpItemsCarry(w[1..], now[1..], was[1..]);
    }
  }

  lemma ZeroMeansEqual(l: Value, r: Value)
    ensures Compare(l, r) == 0 <==> Equal(l, r)
  {
  }

  /** Another number than this one. */
  function OtherNumber(f: Float): Float {
    if f == Finite(0.0) then Finite(1.0) else Finite(0.0)
  }

  /** The value before, with another number wherever the value now is blurred. */
  function Apart(was: Value, now: Value): Value
    decreases now, 1
  {
    match now
    case Number(key, _) => if Blurs(was, now) then Number(OtherNumber(was.key), None) else was
    case Document(fields) => if was.Document? then Document(ApartFields(was.fields, fields)) else was
    case Array(items) => if was.Array? then Array(ApartItems(was.items, items)) else was
    case _ => was
  }

  function ApartFields(was: seq<Field>, now: seq<Field>): seq<Field>
    decreases now, 0
  {
    if was == [] || now == [] then was
    else [Field(was[0].key, Apart(was[0].value, now[0].value))] + ApartFields(was[1..], now[1..])
  }

  function ApartItems(was: seq<Value>, now: seq<Value>): seq<Value>
    decreases now, 0
  {
    if was == [] || now == [] then was else [Apart(was[0], now[0])] + ApartItems(was[1..], now[1..])
  }

  lemma {:induction false} ApartTellsThem(was: Value, now: Value)
    requires Equal(was, now)
    ensures Equal(Apart(was, now), now) && (Blurs(was, now) ==> !Equal(Apart(was, now), was))
    decreases now, 1
  {
    match now
    case Document(fields) => FieldsApart(was.fields, fields);
    case Array(items) => ItemsApart(was.items, items);
    case _ =>
  }

  lemma {:induction false} FieldsApart(was: seq<Field>, now: seq<Field>)
    requires CompareFields(was, now) == 0
    ensures CompareFields(ApartFields(was, now), now) == 0
    ensures BlursFields(was, now) ==> CompareFields(ApartFields(was, now), was) != 0
    decreases now, 0
  {
    if was != [] && now != [] {
      TextSigns(was[0].key, was[0].key);
      TextSigns(was[0].key, now[0].key);
      ZeroMeansEqual(was[0].value, now[0].value);
      ApartTellsThem(was[0].value, now[0].value);
      ZeroMeansEqual(Apart(was[0].value, now[0].value), was[0].value);
      FieldsApart(was[1..], now[1..]);
    }
  }

  lemma {:induction false} ItemsApart(was: seq<Value>, now: seq<Value>)
    requires CompareItems(was, now) == 0
    ensures CompareItems(ApartItems(was, now), now) == 0
    ensures BlursItems(was, now) ==> CompareItems(ApartItems(was, now), was) != 0
    decreases now, 0
  {
    if was != [] && now != [] {
      ZeroMeansEqual(was[0], now[0]);
      ApartTellsThem(was[0], now[0]);
      ZeroMeansEqual(Apart(was[0], now[0]), was[0]);
      ItemsApart(was[1..], now[1..]);
    }
  }

  /** An equal value can stand in for another everywhere if and only if it has no NaN where the other has a number. */
  lemma StandsInExactly(was: Value, now: Value)
    requires Equal(was, now)
    ensures (forall w :: Equal(w, now) ==> Equal(w, was)) <==> !Blurs(was, now)
  {
    if Blurs(was, now) {
      ApartTellsThem(was, now);
      assert Equal(Apart(was, now), now) && !Equal(Apart(was, now), was);
    } else {
      forall w | Equal(w, now) ensures Equal(w, was) {
        SharpCarries(w, now, was);
      }
    }
  }

  /** Equality is reflexive and symmetric on all values, and transitive through any value without a NaN. */
  lemma EqualIsEquivalence(a: Value, b: Value, c: Value)
    ensures Equal(a, a)
    ensures Equal(a, b) <==> Equal(b, a)
    ensures NanFree(b) && Equal(a, b) && Equal(b, c) ==> Equal(a, c)
  {
    CompareReflexive(a);
    ZeroSymmetric(a, b);
    ZeroSymmetric(b, c);
    if NanFree(b) && Equal(a, b) && Equal(b, c) {
      NanFreeBlursNothing(c, b);
      SharpCarries(a, b, c);
    }
  }
}
