/**
 The two halves of a verdict do not touch each other: what the delay rules do to
 an operation, over a whole run, is what they would do alone, and so for the
 rules that decide its outcome.
 */
module RulesHalves {
  import opened Rules

  /** The rules of one half, in order. */
  function Half(rules: seq<Armed>, timing: bool): seq<Armed> {
    if rules == [] then []
    else (if Timing(rules[0].rule) == timing then [rules[0]] else []) + Half(rules[1..], timing)
  }

  /** Two verdicts say the same in one half. */
  predicate Same(v: Verdict, w: Verdict, timing: bool) {
    if timing then v.delay == w.delay else v.drop == w.drop && v.err == w.err
  }

  lemma {:induction false} HalfJoin(a: seq<Armed>, b: seq<Armed>, timing: bool)
    ensures Half(a + b, timing) == Half(a, timing) + Half(b, timing)
    decreases |a|
  {
    if a == [] {
      assert a + b == b;
    } else {
      assert (a + b)[0] == a[0] && (a + b)[1..] == a[1..] + b;
      HalfJoin(a[1..], b, timing);
      HalfTail(a, timing);
      HalfTail(a + b, timing);
    }
  }

  lemma HalfTail(rules: seq<Armed>, timing: bool)
    requires rules != []
    ensures Half(rules, timing) == (if Timing(rules[0].rule) == timing then [rules[0]] else []) + Half(rules[1..], timing)
  {
  }

  /** Inside its half a rule sees no difference; it changes nothing outside it. */
  lemma ConsiderHalf(v: Verdict, w: Verdict, a: Armed, op: Op, timing: bool)
    requires Same(v, w, timing)
    ensures Consider(v, a, op).armed.rule == a.rule
    ensures Timing(a.rule) == timing ==> Consider(v, a, op) == Consider(w, a, op) && Same(Apply(v, a.rule), Apply(w, a.rule), timing)
    ensures Timing(a.rule) != timing ==> Same(Apply(v, a.rule), w, timing)
  {
  }

  function Onward(v: Verdict, a: Armed, op: Op): Verdict {
    if Consider(v, a, op).acts then Apply(v, a.rule) else v
  }

  lemma DecideUnfold(rules: seq<Armed>, op: Op, v: Verdict)
    requires rules != []
    ensures var rest := Decide(rules[1..], op, Onward(v, rules[0], op));
            var d := Decide(rules, op, v);
            d.rules == [Consider(v, rules[0], op).armed] + rest.rules && d.rules[1..] == rest.rules && d.verdict == rest.verdict
  {
  }

  lemma {:induction false} DecideHalf(rules: seq<Armed>, op: Op, v: Verdict, w: Verdict, timing: bool)
    requires Same(v, w, timing)
    ensures var whole := Decide(rules, op, v);
            var alone := Decide(Half(rules, timing), op, w);
            alone.rules == Half(whole.rules, timing) && Same(whole.verdict, alone.verdict, timing)
    decreases |rules|
  {
    if rules != [] {
      var a, rest := rules[0], rules[1..];
      ConsiderHalf(v, w, a, op, timing);
      DecideUnfold(rules, op, v);
      if Timing(a.rule) == timing {
        assert Half(rules, timing)[0] == a && Half(rules, timing)[1..] == Half(rest, timing);
        DecideHalf(rest, op, Onward(v, a, op), Onward(w, a, op), timing);
        DecideUnfold(Half(rules, timing), op, w);
      } else {
        DecideHalf(rest, op, Onward(v, a, op), w, timing);
        assert Half(rules, timing) == Half(rest, timing);
      }
    }
  }

  // ----- whole runs -----

  /** The run with only one half's rules: a rule of the other half is never added, and never there to remove. */
  function Projected(rules: seq<Armed>, e: Event, timing: bool): seq<Event> {
    match e
    case Act(_) => [e]
    case Add(rule) => if Timing(rule) == timing then [e] else []
    case Remove(i) =>
      if 0 <= i < |rules| && Timing(rules[i].rule) == timing then [Remove(|Half(rules[..i], timing)|)] else []
    case Reset => [e]
  }

  function ProjectedRun(rules: seq<Armed>, events: seq<Event>, timing: bool): seq<Event>
    decreases |events|
  {
    if events == [] then []
    else Projected(rules, events[0], timing) + ProjectedRun(Step(rules, events[0]).rules, events[1..], timing)
  }

  /** The rules, with their counters, after a run. */
  function After(rules: seq<Armed>, events: seq<Event>): seq<Armed>
    decreases |events|
  {
    if events == [] then rules else After(Step(rules, events[0]).rules, events[1..])
  }

  /** The verdict on each operation of a run. */
  function Verdicts(rules: seq<Armed>, events: seq<Event>): seq<Verdict>
    decreases |events|
  {
    if events == [] then []
    else
      var d := Step(rules, events[0]);
      (if events[0].Act? then [d.verdict] else []) + Verdicts(d.rules, events[1..])
  }

  predicate AllSame(vs: seq<Verdict>, ws: seq<Verdict>, timing: bool) {
    |vs| == |ws| && forall i :: 0 <= i < |vs| ==> Same(vs[i], ws[i], timing)
  }

  lemma RemoveHalf(rules: seq<Armed>, i: nat, timing: bool)
    requires i < |rules|
    ensures var k := |Half(rules[..i], timing)|;
            var left := Half(rules[..i] + rules[i + 1..], timing);
            var half := Half(rules, timing);
            if Timing(rules[i].rule) == timing then k < |half| && left == half[..k] + half[k + 1..] else left == half
  {
    HalfJoin(rules[..i], rules[i + 1..], timing);
    assert rules == rules[..i] + rules[i..];
    HalfJoin(rules[..i], rules[i..], timing);
    assert rules[i..][1..] == rules[i + 1..];
  }

  /** One event: the half's rules move as they do alone. */
  lemma StepHalf(rules: seq<Armed>, e: Event, timing: bool)
    ensures var alone := Projected(rules, e, timing);
            var half := Half(rules, timing);
            && |alone| <= 1 && (e.Act? ==> alone == [e])
            && Half(Step(rules, e).rules, timing) == (if alone == [] then half else Step(half, alone[0]).rules)
            && (alone != [] ==> alone[0].Act? == e.Act?)
            && (e.Act? ==> Same(Step(rules, e).verdict, Step(half, e).verdict, timing))
  {
    match e
    case Act(op) => DecideHalf(rules, op, Untouched, Untouched, timing);
    case Add(rule) => HalfJoin(rules, [Armed(rule, 0, 0)], timing);
    case Remove(i) => if 0 <= i < |rules| { RemoveHalf(rules, i, timing); }
    case Reset =>
  }

  /** Over every run, one half's counters and its part of every verdict are the same without the other half's rules. */
  lemma {:induction false} HalvesIndependent(rules: seq<Armed>, events: seq<Event>, timing: bool)
    ensures var alone := ProjectedRun(rules, events, timing);
            var half := Half(rules, timing);
            && After(half, alone) == Half(After(rules, events), timing)
            && AllSame(Verdicts(rules, events), Verdicts(half, alone), timing)
    decreases |events|
  {
    if events != [] {
      var e, next := events[0], Step(rules, events[0]).rules;
      StepHalf(rules, e, timing);
      HalvesIndependent(next, events[1..], timing);
      HalfFirst(rules, events, timing);
    }
  }

  /** The half goes through the first event alike, and then through the rest. */
  lemma HalfFirst(rules: seq<Armed>, events: seq<Event>, timing: bool)
    requires events != []
    ensures var half := Half(rules, timing);
            var first := Projected(rules, events[0], timing);
            var rest := ProjectedRun(Step(rules, events[0]).rules, events[1..], timing);
            var d := if first == [] then Decision(half, Untouched) else Step(half, first[0]);
            && After(half, ProjectedRun(rules, events, timing)) == After(d.rules, rest)
            && Verdicts(half, ProjectedRun(rules, events, timing)) ==
               (if first != [] && first[0].Act? then [d.verdict] else []) + Verdicts(d.rules, rest)
  {
    ProjectedFirst(Half(rules, timing), Projected(rules, events[0], timing),
                   ProjectedRun(Step(rules, events[0]).rules, events[1..], timing));
  }

  /** A run that begins with one event at most goes on from there. */
  lemma ProjectedFirst(half: seq<Armed>, first: seq<Event>, rest: seq<Event>)
    requires |first| <= 1
    ensures first == [] ==> After(half, first + rest) == After(half, rest) && Verdicts(half, first + rest) == Verdicts(half, rest)
    ensures first != [] ==>
              var d := Step(half, first[0]);
              && After(half, first + rest) == After(d.rules, rest)
              && Verdicts(half, first + rest) == (if first[0].Act? then [d.verdict] else []) + Verdicts(d.rules, rest)
  {
    if first == [] {
      assert first + rest == rest;
    } else {
      assert (first + rest)[0] == first[0] && (first + rest)[1..] == rest;
    }
  }
}
