/**
 What the counters mean. Which rule acts on which operation of a run, with rules
 added, removed and reset along the way, is said here without any counter, from
 the events alone, and the engine's counters and verdicts are shown to be exactly
 that.
 */
module RulesCounting {
  import opened Rules

  /** A rule that was armed, and the event that armed it. */
  datatype Instance = Instance(rule: Rule, born: nat)

  /** The rules armed before the t-th event, in order. */
  function Alive(events: seq<Event>, t: nat): seq<Instance>
    requires t <= |events|
  {
    if t == 0 then []
    else
      var before := Alive(events, t - 1);
      match events[t - 1]
      case Act(_) => before
      case Add(rule) => before + [Instance(rule, t - 1)]
      case Remove(i) => if 0 <= i < |before| then before[..i] + before[i + 1..] else before
      case Reset => []
  }

  /** Where the instance is, or the length if it is not there. */
  function Place(alive: seq<Instance>, born: nat): (i: nat)
    ensures i <= |alive| && (i < |alive| ==> alive[i].born == born)
  {
    if alive == [] || alive[0].born == born then 0 else 1 + Place(alive[1..], born)
  }

  predicate Ascends(alive: seq<Instance>, t: nat) {
    && (forall i :: 0 <= i < |alive| ==> alive[i].born < t)
    && (forall i, j :: 0 <= i < j < |alive| ==> alive[i].born < alive[j].born)
  }

  lemma {:induction false} AliveAscends(events: seq<Event>, t: nat)
    requires t <= |events|
    ensures Ascends(Alive(events, t), t)
  {
    if t > 0 {
      AliveAscends(events, t - 1);
    }
  }

  lemma {:induction false} PlaceOf(alive: seq<Instance>, i: nat, t: nat)
    requires Ascends(alive, t) && i < |alive|
    ensures Place(alive, alive[i].born) == i
  {
    if i > 0 {
      assert alive[0].born < alive[i].born;
      PlaceOf(alive[1..], i - 1, t);
    }
  }

  // ----- which rule acts, without counters -----

  /** Acting settles the rule's half of the verdict: a delay that is not positive leaves it open. */
  predicate Fills(r: Rule) {
    Timing(r) ==> Nanos(r.millis) > 0
  }

  /** The t-th event is an operation. */
  predicate Operation(events: seq<Event>, t: nat) {
    t < |events| && events[t].Act?
  }

  /** A rule before the i-th settled this half for the operation. */
  ghost predicate Settled(events: seq<Event>, t: nat, i: nat, timing: bool)
    requires Operation(events, t) && i <= |Alive(events, t)|
    decreases t, 3 * i
  {
    i > 0 &&
    (Settled(events, t, i - 1, timing) ||
     (var r := Alive(events, t)[i - 1].rule; Timing(r) == timing && Fills(r) && Acts(events, t, i - 1)))
  }

  /** The operation is an occurrence for the i-th rule: it matches, and no earlier rule of its half decided it. */
  ghost predicate Occurs(events: seq<Event>, t: nat, i: nat)
    requires Operation(events, t) && i < |Alive(events, t)|
    decreases t, 3 * i + 1
  {
    var r := Alive(events, t)[i].rule;
    Applies(r, events[t].op) && !Settled(events, t, i, Timing(r))
  }

  /** The n-th occurrence is past the threshold and within the budget. */
  predicate Due(r: Rule, n: nat) {
    n > Threshold(r) && (r.times == 0 || n <= Threshold(r) + r.times)
  }

  ghost predicate Acts(events: seq<Event>, t: nat, i: nat)
    requires Operation(events, t) && i < |Alive(events, t)|
    decreases t, 3 * i + 2
  {
    var it := Alive(events, t)[i];
    Occurs(events, t, i) && Due(it.rule, Occurrences(events, t, it.born) + 1)
  }

  /** The t-th event was an occurrence for the instance, wherever it then stood. */
  ghost predicate OccursTo(events: seq<Event>, t: nat, born: nat)
    requires t < |events|
    decreases t, 3 * |Alive(events, t)| + 3
  {
    Operation(events, t) && Place(Alive(events, t), born) < |Alive(events, t)| && Occurs(events, t, Place(Alive(events, t), born))
  }

  /** How many of the first n events were occurrences for the instance. */
  ghost function Occurrences(events: seq<Event>, n: nat, born: nat): nat
    requires n <= |events|
    decreases n, 0
  {
    if n == 0 then 0 else Occurrences(events, n - 1, born) + if OccursTo(events, n - 1, born) then 1 else 0
  }

  lemma {:induction false} SettledMeans(events: seq<Event>, t: nat, i: nat, timing: bool)
    requires Operation(events, t) && i <= |Alive(events, t)|
    ensures Settled(events, t, i, timing) <==>
            exists j :: 0 <= j < i && Timing(Alive(events, t)[j].rule) == timing && Fills(Alive(events, t)[j].rule) && Acts(events, t, j)
    decreases i
  {
    if i > 0 {
      SettledMeans(events, t, i - 1, timing);
    }
  }

  lemma OccursInPlace(events: seq<Event>, t: nat, i: nat)
    requires Operation(events, t) && i < |Alive(events, t)|
    ensures OccursTo(events, t, Alive(events, t)[i].born) == Occurs(events, t, i)
  {
    AliveAscends(events, t);
    PlaceOf(Alive(events, t), i, t);
  }

  /** Nothing occurs to a rule that is not armed yet. */
  lemma {:induction false} NoneBeforeBirth(events: seq<Event>, n: nat, born: nat)
    requires n <= |events| && n <= born
    ensures Occurrences(events, n, born) == 0
  {
    if n > 0 {
      NoneBeforeBirth(events, n - 1, born);
      AliveAscends(events, n - 1);
    }
  }

  // ----- the engine -----

  /** The engine's rules after the first t events of a run from no rules at all. */
  function Engine(events: seq<Event>, t: nat): seq<Armed>
    requires t <= |events|
  {
    if t == 0 then [] else Step(Engine(events, t - 1), events[t - 1]).rules
  }

  /** The times a rule has acted once it has had n occurrences. */
  function Spent(r: Rule, n: nat): nat {
    var over := if n <= Threshold(r) then 0 else n - Threshold(r);
    if r.times == 0 || over < r.times then over else r.times
  }

  function Counted(r: Rule, n: nat): Armed {
    Armed(r, n, Spent(r, n))
  }

  ghost function CountedAt(events: seq<Event>, t: nat, it: Instance): Armed
    requires t <= |events|
  {
    Counted(it.rule, Occurrences(events, t, it.born))
  }

  ghost function CountedAll(events: seq<Event>, t: nat, alive: seq<Instance>): (armed: seq<Armed>)
    requires t <= |events|
    ensures |armed| == |alive|
  {
    seq(|alive|, i requires 0 <= i < |alive| => CountedAt(events, t, alive[i]))
  }

  ghost function Expected(events: seq<Event>, t: nat): (armed: seq<Armed>)
    requires t <= |events|
    ensures |armed| == |Alive(events, t)|
  {
    CountedAll(events, t, Alive(events, t))
  }

  /** The verdict composed of the rules that act, from the i-th on. */
  ghost function Composed(events: seq<Event>, t: nat, i: nat, v: Verdict): Verdict
    requires Operation(events, t) && i <= |Alive(events, t)|
    decreases |Alive(events, t)| - i
  {
    if i == |Alive(events, t)| then v
    else Composed(events, t, i + 1, if Acts(events, t, i) then Apply(v, Alive(events, t)[i].rule) else v)
  }

  lemma FireCounted(r: Rule, n: nat, op: Op)
    ensures Fire(Counted(r, n), op) == if Applies(r, op) then Shot(Counted(r, n + 1), Due(r, n + 1)) else Shot(Counted(r, n), false)
  {
  }

  ghost predicate Tracks(events: seq<Event>, t: nat, i: nat, v: Verdict)
    requires Operation(events, t) && i <= |Alive(events, t)|
  {
    && (v.delay > 0 <==> Settled(events, t, i, true))
    && (v.drop || v.err != NoFault <==> Settled(events, t, i, false))
  }

  lemma TracksStep(events: seq<Event>, t: nat, i: nat, v: Verdict)
    requires Operation(events, t) && i < |Alive(events, t)| && Tracks(events, t, i, v)
    ensures Tracks(events, t, i + 1, if Acts(events, t, i) then Apply(v, Alive(events, t)[i].rule) else v)
  {
    var r := Alive(events, t)[i].rule;
    assert Settled(events, t, i, Timing(r)) ==> !Acts(events, t, i);
  }

  lemma ConsiderExpected(events: seq<Event>, t: nat, i: nat, v: Verdict)
    requires Operation(events, t) && i < |Alive(events, t)| && Tracks(events, t, i, v)
    ensures var it := Alive(events, t)[i];
            Consider(v, CountedAt(events, t, it), events[t].op) == Shot(CountedAt(events, t + 1, it), Acts(events, t, i))
  {
    var it := Alive(events, t)[i];
    FireCounted(it.rule, Occurrences(events, t, it.born), events[t].op);
    OccursInPlace(events, t, i);
  }

  lemma {:induction false} DecideExpected(events: seq<Event>, t: nat, i: nat, v: Verdict)
    requires Operation(events, t) && i <= |Alive(events, t)| && Tracks(events, t, i, v)
    ensures var alive := Alive(events, t);
            var d := Decide(CountedAll(events, t, alive)[i..], events[t].op, v);
            d.rules == CountedAll(events, t + 1, alive)[i..] && d.verdict == Composed(events, t, i, v)
    decreases |Alive(events, t)| - i
  {
    var alive := Alive(events, t);
    if i < |alive| {
      var now, next := CountedAll(events, t, alive), CountedAll(events, t + 1, alive);
      assert now[i..][1..] == now[i + 1..] && next[i..] == [next[i]] + next[i + 1..];
      ConsiderExpected(events, t, i, v);
      TracksStep(events, t, i, v);
      DecideExpected(events, t, i + 1, if Acts(events, t, i) then Apply(v, alive[i].rule) else v);
    }
  }

  lemma ActExpected(events: seq<Event>, t: nat)
    requires Operation(events, t)
    ensures var d := Decide(Expected(events, t), events[t].op, Untouched);
            d.rules == Expected(events, t + 1) && d.verdict == Composed(events, t, 0, Untouched)
  {
    var alive := Alive(events, t);
    DecideExpected(events, t, 0, Untouched);
    assert CountedAll(events, t, alive)[0..] == Expected(events, t);
    assert CountedAll(events, t + 1, alive)[0..] == Expected(events, t + 1);
  }

  /** What is not an operation leaves every count as it was. */
  lemma QuietCounts(events: seq<Event>, t: nat, alive: seq<Instance>)
    requires t < |events| && !events[t].Act?
    ensures CountedAll(events, t + 1, alive) == CountedAll(events, t, alive)
  {
    forall i | 0 <= i < |alive| ensures CountedAt(events, t + 1, alive[i]) == CountedAt(events, t, alive[i]) {
      assert !OccursTo(events, t, alive[i].born);
    }
  }

  lemma ControlExpected(events: seq<Event>, t: nat)
    requires t < |events| && !events[t].Act?
    ensures Step(Expected(events, t), events[t]).rules == Expected(events, t + 1)
  {
    var alive := Alive(events, t);
    var now := Expected(events, t);
    QuietCounts(events, t, Alive(events, t + 1));
    match events[t]
    case Act(_) =>
    case Add(rule) =>
      NoneBeforeBirth(events, t, t);
      assert CountedAll(events, t, alive + [Instance(rule, t)]) == now + [Armed(rule, 0, 0)];
    case Remove(i) =>
      if 0 <= i < |alive| {
        assert CountedAll(events, t, alive[..i] + alive[i + 1..]) == now[..i] + now[i + 1..];
      }
    case Reset =>
  }

  /** Over every run, each armed rule's counters are its occurrences since it was armed, and the times it was due among them. */
  lemma {:induction false} CountersExact(events: seq<Event>, t: nat)
    requires t <= |events|
    ensures Engine(events, t) == Expected(events, t)
  {
    if t > 0 {
      CountersExact(events, t - 1);
      if events[t - 1].Act? {
        ActExpected(events, t - 1);
      } else {
        ControlExpected(events, t - 1);
      }
    }
  }

  /** The verdict on each operation of a run is that of exactly the rules that act on it. */
  lemma VerdictsExact(events: seq<Event>, t: nat)
    requires Operation(events, t)
    ensures Step(Engine(events, t), events[t]).verdict == Composed(events, t, 0, Untouched)
  {
    CountersExact(events, t);
    ActExpected(events, t);
  }

  // ----- how often a rule acts -----

  ghost predicate ActsTo(events: seq<Event>, t: nat, born: nat)
    requires t < |events|
  {
    Operation(events, t) && Place(Alive(events, t), born) < |Alive(events, t)| && Acts(events, t, Place(Alive(events, t), born))
  }

  ghost function Times(events: seq<Event>, n: nat, born: nat): nat
    requires n <= |events|
  {
    if n == 0 then 0 else Times(events, n - 1, born) + if ActsTo(events, n - 1, born) then 1 else 0
  }

  /** The instance has this rule as long as it is armed. */
  ghost predicate Carries(events: seq<Event>, n: nat, born: nat, r: Rule)
    requires n <= |events|
  {
    forall t :: 0 <= t <= n && Place(Alive(events, t), born) < |Alive(events, t)| ==>
      Alive(events, t)[Place(Alive(events, t), born)].rule == r
  }

  lemma {:induction false} TimesSpent(events: seq<Event>, n: nat, born: nat, r: Rule)
    requires n <= |events| && Carries(events, n, born, r)
    ensures Times(events, n, born) == Spent(r, Occurrences(events, n, born))
  {
    if n > 0 {
      TimesSpent(events, n - 1, born, r);
      var p := Place(Alive(events, n - 1), born);
      if p < |Alive(events, n - 1)| {
        assert Alive(events, n - 1)[p].rule == r;
      }
    }
  }

  /** A rule comes from the event that armed it. */
  lemma {:induction false} BornOf(events: seq<Event>, t: nat, i: nat)
    requires t <= |events| && i < |Alive(events, t)|
    ensures var it := Alive(events, t)[i]; it.born < |events| && events[it.born] == Add(it.rule)
  {
    if t > 0 {
      var before := Alive(events, t - 1);
      forall j | 0 <= j < |before| ensures before[j].born < |events| && events[before[j].born] == Add(before[j].rule) {
        BornOf(events, t - 1, j);
      }
    }
  }

  lemma BornCarries(events: seq<Event>, n: nat, i: nat)
    requires n <= |events| && i < |Alive(events, n)|
    ensures Carries(events, n, Alive(events, n)[i].born, Alive(events, n)[i].rule)
  {
    var it := Alive(events, n)[i];
    BornOf(events, n, i);
    forall t | 0 <= t <= n && Place(Alive(events, t), it.born) < |Alive(events, t)|
      ensures Alive(events, t)[Place(Alive(events, t), it.born)].rule == it.rule
    {
      BornOf(events, t, Place(Alive(events, t), it.born));
    }
  }

  /** The matched count is the rule's occurrences, the fired count the operations it acted on, never more than its budget. */
  lemma FiredExact(events: seq<Event>, n: nat, i: nat)
    requires n <= |events| && i < |Alive(events, n)|
    ensures var it := Alive(events, n)[i];
            && i < |Engine(events, n)| && Engine(events, n)[i].rule == it.rule
            && Engine(events, n)[i].matched == Occurrences(events, n, it.born)
            && Engine(events, n)[i].fired == Times(events, n, it.born)
            && (it.rule.times > 0 ==> Times(events, n, it.born) <= it.rule.times)
  {
    var it := Alive(events, n)[i];
    CountersExact(events, n);
    BornCarries(events, n, i);
    TimesSpent(events, n, it.born, it.rule);
  }

  // ----- one rule per half -----

  /** At most one rule of a half acts on an operation, as long as the first that does settles it. */
  lemma OnePerHalf(events: seq<Event>, t: nat, i: nat, j: nat)
    requires Operation(events, t) && i < j < |Alive(events, t)|
    requires Timing(Alive(events, t)[i].rule) == Timing(Alive(events, t)[j].rule)
    requires Fills(Alive(events, t)[i].rule) && Acts(events, t, i)
    ensures !Occurs(events, t, j) && !Acts(events, t, j)
  {
    SettledMeans(events, t, j, Timing(Alive(events, t)[j].rule));
  }

  /**
   Of two rules of a half, where no other one before the second settled it, the
   second acts after the first if and only if the first left the half open, as
   only a delay that is not positive does, and the second is due itself.
   */
  lemma {:induction false} ShadowedExactly(events: seq<Event>, t: nat, i: nat, j: nat)
    requires Operation(events, t) && i < j < |Alive(events, t)|
    requires Timing(Alive(events, t)[i].rule) == Timing(Alive(events, t)[j].rule) && Acts(events, t, i)
    requires forall m :: 0 <= m < j && m != i && Timing(Alive(events, t)[m].rule) == Timing(Alive(events, t)[j].rule) ==>
               !(Fills(Alive(events, t)[m].rule) && Acts(events, t, m))
    ensures var second := Alive(events, t)[j];
            Acts(events, t, j) <==>
            !Fills(Alive(events, t)[i].rule) && Applies(second.rule, events[t].op)
            && Due(second.rule, Occurrences(events, t, second.born) + 1)
  {
    var timing := Timing(Alive(events, t)[j].rule);
    SettledMeans(events, t, j, timing);
    assert Settled(events, t, j, timing) <==> Fills(Alive(events, t)[i].rule);
  }

  /** A delay of up to 9223372036854 milliseconds settles its half; the next longer one wraps, and does not. */
  lemma DelaysThatFill(r: Rule)
    requires Timing(r)
    ensures 0 < r.millis <= 9_223_372_036_854 ==> Fills(r)
    ensures r.millis == 9_223_372_036_855 ==> !Fills(r)
  {
  }

  /** Two such delays, both due at once: both act. */
  lemma LongDelaysBothAct(a: Rule, b: Rule, op: Op)
    requires Timing(a) && Timing(b) && a.millis == 9_223_372_036_855 && Applies(a, op) && Applies(b, op)
    requires Due(a, 1) && Due(b, 1)
    ensures var events := [Add(a), Add(b), Act(op)];
            Alive(events, 2) == [Instance(a, 0), Instance(b, 1)] && Acts(events, 2, 0) && Acts(events, 2, 1)
  {
    var events := [Add(a), Add(b), Act(op)];
    assert Alive(events, 1) == [Instance(a, 0)];
    assert Alive(events, 2) == [Instance(a, 0), Instance(b, 1)];
    assert Occurrences(events, 1, 0) == 0 && Occurrences(events, 2, 0) == 0;
    assert Occurrences(events, 1, 1) == 0 && Occurrences(events, 2, 1) == 0;
    assert !Settled(events, 2, 0, true);
    assert Acts(events, 2, 0);
    DelaysThatFill(a);
    ShadowedExactly(events, 2, 0, 1);
  }
}
