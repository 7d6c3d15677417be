/**
 Which way the order on values goes: types in MongoDB's sequence, and within a
 type numbers by size, texts by their first difference, documents and arrays by
 theirs, and a shorter one before any that it begins.
 */
module BsonOrder {
  import opened Common
  import opened Bson

  /** What kind of value comes where. */
  function Place(v: Value): nat {
    if v.MinKey? then 0
    else if v.Null? || v.Undefined? then 1
    else if v.Number? then 2
    else if v.Text? then 3
    else if v.Document? then 4
    else if v.Array? then 5
    else if v.Binary? then 6
    else if v.ObjectId? then 7
    else if v.Boolean? then 8
    else if v.Date? then 9
    else if v.Timestamp? then 10
    else if v.Regex? then 11
    else if v.MaxKey? then 12
    else 13
  }

  /** Values of different types are ordered by type, whatever they hold, and are never equal. */
  lemma TypesInOrder(l: Value, r: Value)
    requires Place(l) != Place(r)
    ensures Compare(l, r) < 0 <==> Place(l) < Place(r)
    ensures Compare(l, r) != 0 && !Equal(l, r)
  {
  }

  /** The first text comes first: it begins the second, or has the smaller character where they first differ. */
  ghost predicate TextBefore(l: string, r: string) {
    exists k :: 0 <= k <= |l| && k <= |r| && l[..k] == r[..k] && k < |r| && (k == |l| || (k < |l| && l[k] < r[k]))
  }

  lemma {:induction false} TextMeans(l: string, r: string)
    ensures CompareText(l, r) < 0 <==> TextBefore(l, r)
  {
    if l == [] || r == [] {
      if l == [] && r != [] {
        assert l[..0] == r[..0];
      }
    } else if l[0] != r[0] {
      if l[0] < r[0] {
        assert l[..0] == r[..0];
        assert TextBefore(l, r);
      } else if TextBefore(l, r) {
        var k :| 0 <= k <= |l| && k <= |r| && l[..k] == r[..k] && k < |r| && (k == |l| || (k < |l| && l[k] < r[k]));
        assert k > 0 ==> l[..k][0] == r[..k][0];
      }
    } else {
      TextMeans(l[1..], r[1..]);
      TextTails(l, r);
    }
  }

  lemma TextTails(l: string, r: string)
    requires l != [] && r != [] && l[0] == r[0]
    ensures TextBefore(l, r) <==> TextBefore(l[1..], r[1..])
  {
    var a, b := l[1..], r[1..];
    if TextBefore(l, r) {
      var k :| 0 <= k <= |l| && k <= |r| && l[..k] == r[..k] && k < |r| && (k == |l| || (k < |l| && l[k] < r[k]));
      if k > 0 {
        assert a[..k - 1] == l[..k][1..] && b[..k - 1] == r[..k][1..];
        assert TextBefore(a, b);
      }
    }
    if TextBefore(a, b) {
      var k :| 0 <= k <= |a| && k <= |b| && a[..k] == b[..k] && k < |b| && (k == |a| || (k < |a| && a[k] < b[k]));
      assert l[..k + 1] == [l[0]] + a[..k] && r[..k + 1] == [r[0]] + b[..k];
      assert TextBefore(l, r);
    }
  }

  /** Within a type: numbers by size with the infinities at the ends, texts as texts, false before true, dates and timestamps by time. */
  lemma WithinTypes(a: real, b: real, s: string, t: string, d: Int64, e: Int64, i: Uint32, j: Uint32, wa: Option<int>, wb: Option<int>)
    ensures Compare(Number(Finite(a), wa), Number(Finite(b), wb)) < 0 <==> a < b
    ensures Compare(Number(NegInf, wa), Number(Finite(b), wb)) < 0 && Compare(Number(Finite(a), wa), Number(PosInf, wb)) < 0
    ensures Compare(Text(s), Text(t)) < 0 <==> TextBefore(s, t)
    ensures Compare(Binary(s), Binary(t)) < 0 <==> TextBefore(s, t)
    ensures Compare(ObjectId(s), ObjectId(t)) < 0 <==> TextBefore(s, t)
    ensures Compare(Boolean(false), Boolean(true)) < 0 && Compare(Boolean(true), Boolean(false)) > 0
    ensures -TWO_63 <= d - e < TWO_63 ==> (Compare(Date(d), Date(e)) < 0 <==> d < e)
    ensures Compare(Timestamp(i, j), Timestamp(j, i)) < 0 <==> i < j
    ensures Compare(Timestamp(i, i), Timestamp(i, j)) < 0 <==> i < j
  {
    TextMeans(s, t);
  }

  /** Two documents are ordered by their first field that differs, by its name and then by its value. */
  lemma {:induction false} FieldsMean(l: seq<Field>, r: seq<Field>, k: nat)
    requires k < |l| && k < |r|
    requires forall i :: 0 <= i < k ==> l[i].key == r[i].key && Compare(l[i].value, r[i].value) == 0
    ensures l[k].key != r[k].key ==> (CompareFields(l, r) < 0 <==> TextBefore(l[k].key, r[k].key))
    ensures l[k].key == r[k].key && Compare(l[k].value, r[k].value) != 0 ==> CompareFields(l, r) == Compare(l[k].value, r[k].value)
    decreases k
  {
    TextSigns(l[0].key, r[0].key);
    TextMeans(l[0].key, r[0].key);
    if k > 0 {
      var a, b := l[1..], r[1..];
      forall i | 0 <= i < k - 1 ensures a[i].key == b[i].key && Compare(a[i].value, b[i].value) == 0 {
        assert a[i] == l[i + 1] && b[i] == r[i + 1];
      }
      assert l[0].key == r[0].key && Compare(l[0].value, r[0].value) == 0;
      FieldsMean(a, b, k - 1);
    }
  }

  /** A document that begins another comes before it, and two of equal fields are level. */
  lemma {:induction false} FieldsPrefix(l: seq<Field>, r: seq<Field>)
    requires |l| <= |r| && forall i :: 0 <= i < |l| ==> l[i].key == r[i].key && Compare(l[i].value, r[i].value) == 0
    ensures CompareFields(l, r) == if |l| < |r| then -1 else 0
    decreases |l|
  {
    if l != [] {
      TextSigns(l[0].key, r[0].key);
      forall i | 0 <= i < |l| - 1 ensures l[1..][i].key == r[1..][i].key && Compare(l[1..][i].value, r[1..][i].value) == 0 {
        assert l[1..][i] == l[i + 1] && r[1..][i] == r[i + 1];
      }
      FieldsPrefix(l[1..], r[1..]);
    }
  }

  /** Two arrays are ordered by their first item that differs; one that begins another comes before it. */
  lemma {:induction false} ItemsMean(l: seq<Value>, r: seq<Value>, k: nat)
    requires k <= |l| && k <= |r| && forall i :: 0 <= i < k ==> Compare(l[i], r[i]) == 0
    ensures k < |l| && k < |r| && Compare(l[k], r[k]) != 0 ==> CompareItems(l, r) == Compare(l[k], r[k])
    ensures k == |l| ==> CompareItems(l, r) == if |l| < |r| then -1 else 0
    decreases k
  {
    if k > 0 {
      var a, b := l[1..], r[1..];
      forall i | 0 <= i < k - 1 ensures Compare(a[i], b[i]) == 0 { assert a[i] == l[i + 1] && b[i] == r[i + 1]; }
      assert Compare(l[0], r[0]) == 0;
      ItemsMean(a, b, k - 1);
    }
  }
}
