/**
 What a verdict says: which field each acting rule fills, when a rule acts on the
 operations of a run, and which operations it is about.
 */
module RulesVerdict {
  import opened Rules
  import opened RulesCounting

  /** The rule acts on the operation, and does this. */
  ghost predicate ActsWith(events: seq<Event>, t: nat, i: nat, actions: set<Action>)
    requires Operation(events, t)
  {
    i < |Alive(events, t)| && Acts(events, t, i) && Alive(events, t)[i].rule.action in actions
  }

  const REFUSALS: set<Action> := {Fail, Cap}

  /** What the client is told by a rule that fails the operation. */
  ghost predicate Tells(err: Fault, r: Rule) {
    && err.Fault? && err.code == r.code
    && (r.message != "" ==> err.message == Own(r.message))
    && (r.message == "" && r.action == Cap ==> err.message == LimitReached(r.limit))
    && (r.message == "" && r.action == Fail ==> err.message == Injected)
  }

  /** The actions of the rules that act, from the i-th on, in order. */
  ghost function ActionsFrom(events: seq<Event>, t: nat, i: nat): seq<Action>
    requires Operation(events, t) && i <= |Alive(events, t)|
    decreases |Alive(events, t)| - i
  {
    if i == |Alive(events, t)| then []
    else (if Acts(events, t, i) then [Alive(events, t)[i].rule.action] else []) + ActionsFrom(events, t, i + 1)
  }

  ghost predicate NoneFrom(events: seq<Event>, t: nat, i: nat, actions: set<Action>)
    requires Operation(events, t)
  {
    forall j :: i <= j < |Alive(events, t)| ==> !ActsWith(events, t, j, actions)
  }

  // ----- the fields of a composed verdict -----

  lemma {:induction false} ComposedActed(events: seq<Event>, t: nat, i: nat, v: Verdict)
    requires Operation(events, t) && i <= |Alive(events, t)|
    ensures Composed(events, t, i, v).acted == v.acted + ActionsFrom(events, t, i)
    decreases |Alive(events, t)| - i
  {
    if i < |Alive(events, t)| {
      var r := Alive(events, t)[i].rule;
      var own := if Acts(events, t, i) then [r.action] else [];
      var on := if Acts(events, t, i) then Apply(v, r) else v;
      ComposedActed(events, t, i + 1, on);
      assert on.acted == v.acted + own;
      Regroup(v.acted, own, ActionsFrom(events, t, i + 1));
    }
  }

  lemma Regroup(a: seq<Action>, b: seq<Action>, c: seq<Action>)
    ensures a + b + c == a + (b + c)
  {
  }

  lemma {:induction false} ComposedDrop(events: seq<Event>, t: nat, i: nat, v: Verdict)
    requires Operation(events, t) && i <= |Alive(events, t)|
    ensures Composed(events, t, i, v).drop <==> v.drop || !NoneFrom(events, t, i, {DropConn})
    decreases |Alive(events, t)| - i
  {
    if i < |Alive(events, t)| {
      ComposedDrop(events, t, i + 1, if Acts(events, t, i) then Apply(v, Alive(events, t)[i].rule) else v);
      NoneCons(events, t, i, {DropConn});
    }
  }

  lemma NoneCons(events: seq<Event>, t: nat, i: nat, actions: set<Action>)
    requires Operation(events, t) && i < |Alive(events, t)|
    ensures NoneFrom(events, t, i, actions) <==> !ActsWith(events, t, i, actions) && NoneFrom(events, t, i + 1, actions)
  {
  }

  lemma {:induction false} ComposedErr(events: seq<Event>, t: nat, i: nat, v: Verdict)
    requires Operation(events, t) && i <= |Alive(events, t)|
    ensures NoneFrom(events, t, i, REFUSALS) ==> Composed(events, t, i, v).err == v.err
    ensures forall j :: i <= j && ActsWith(events, t, j, REFUSALS) && NoneFrom(events, t, j + 1, REFUSALS) ==>
              Tells(Composed(events, t, i, v).err, Alive(events, t)[j].rule)
    decreases |Alive(events, t)| - i
  {
    if i < |Alive(events, t)| {
      ComposedErr(events, t, i + 1, if Acts(events, t, i) then Apply(v, Alive(events, t)[i].rule) else v);
      NoneCons(events, t, i, REFUSALS);
    }
  }

  lemma {:induction false} ComposedDelay(events: seq<Event>, t: nat, i: nat, v: Verdict)
    requires Operation(events, t) && i <= |Alive(events, t)|
    ensures NoneFrom(events, t, i, {Stall}) ==> Composed(events, t, i, v).delay == v.delay
    ensures forall j :: i <= j && ActsWith(events, t, j, {Stall}) && NoneFrom(events, t, j + 1, {Stall}) ==>
              Composed(events, t, i, v).delay == Nanos(Alive(events, t)[j].rule.millis)
    decreases |Alive(events, t)| - i
  {
    if i < |Alive(events, t)| {
      ComposedDelay(events, t, i + 1, if Acts(events, t, i) then Apply(v, Alive(events, t)[i].rule) else v);
      NoneCons(events, t, i, {Stall});
    }
  }

  // ----- the verdict on an operation of a run -----

  /** One rule at most refuses an operation. */
  lemma OneRefuses(events: seq<Event>, t: nat, j: nat)
    requires Operation(events, t) && ActsWith(events, t, j, REFUSALS)
    ensures NoneFrom(events, t, j + 1, REFUSALS)
  {
    forall k | j + 1 <= k < |Alive(events, t)| ensures !ActsWith(events, t, k, REFUSALS) {
      if !Timing(Alive(events, t)[k].rule) {
        OnePerHalf(events, t, j, k);
      }
    }
  }

  /**
   Along every run: the connection is dropped exactly when a drop rule acts; the
   error is that of the error or cap rule that acts, and there is none without
   one; the delay is that of the last delay rule that acts, or none; and the
   actions are listed in the order of the rules.
   */
  lemma VerdictMeans(events: seq<Event>, t: nat)
    requires Operation(events, t)
    ensures var v := Step(Engine(events, t), events[t]).verdict;
            && (v.drop <==> exists i: nat :: ActsWith(events, t, i, {DropConn}))
            && (forall i: nat :: ActsWith(events, t, i, REFUSALS) ==> Tells(v.err, Alive(events, t)[i].rule))
            && ((forall i: nat :: !ActsWith(events, t, i, REFUSALS)) ==> v.err == NoFault)
            && (forall i: nat :: ActsWith(events, t, i, {Stall}) && NoneFrom(events, t, i + 1, {Stall}) ==>
                  v.delay == Nanos(Alive(events, t)[i].rule.millis))
            && ((forall i: nat :: !ActsWith(events, t, i, {Stall})) ==> v.delay == 0)
            && v.acted == ActionsFrom(events, t, 0)
  {
    VerdictsExact(events, t);
    ComposedActed(events, t, 0, Untouched);
    ComposedDrop(events, t, 0, Untouched);
    ComposedErr(events, t, 0, Untouched);
    ComposedDelay(events, t, 0, Untouched);
    forall i: nat | ActsWith(events, t, i, REFUSALS)
      ensures Tells(Composed(events, t, 0, Untouched).err, Alive(events, t)[i].rule)
    {
      OneRefuses(events, t, i);
    }
    assert [] + ActionsFrom(events, t, 0) == ActionsFrom(events, t, 0);
  }

  /** A delay is its milliseconds in nanoseconds if and only if 64 bits hold them. */
  lemma DelayExactly(millis: nat)
    requires millis < 0x8000_0000_0000_0000
    ensures Nanos(millis) == millis * 1_000_000 <==> millis <= 9_223_372_036_854
  {
    NanosFit(millis * 1_000_000);
    var low := (millis * 1_000_000) % 0x1_0000_0000_0000_0000;
    assert Nanos(millis) == if low < 0x8000_0000_0000_0000 then low else low - 0x1_0000_0000_0000_0000;
  }

  lemma NanosFit(n: nat)
    ensures n < 0x8000_0000_0000_0000 ==> n % 0x1_0000_0000_0000_0000 == n
  {
  }

  // ----- which operations a rule is about -----

  /** A rule applies where its pattern matches and the backend reports every gauge it asks about, at least or at most as it asks. */
  lemma AppliesExactly(r: Rule, op: Op)
    ensures Applies(r, op) <==>
            && NameMatches(r.pattern, op.emulator + "." + op.kind)
            && (forall gauge, bound :: AtLeast(gauge, bound) in r.when ==> gauge in op.gauges && bound <= op.gauges[gauge])
            && (forall gauge, bound :: AtMost(gauge, bound) in r.when ==> gauge in op.gauges && op.gauges[gauge] <= bound)
  {
    forall c | c in r.when ensures Holds(c, op.gauges) <==>
      c.gauge in op.gauges && (c.AtLeast? ==> c.bound <= op.gauges[c.gauge]) && (c.AtMost? ==> op.gauges[c.gauge] <= c.bound)
    {
    }
    if (forall gauge, bound :: AtLeast(gauge, bound) in r.when ==> gauge in op.gauges && bound <= op.gauges[gauge])
       && (forall gauge, bound :: AtMost(gauge, bound) in r.when ==> gauge in op.gauges && op.gauges[gauge] <= bound) {
      forall c | c in r.when ensures Holds(c, op.gauges) {
        if c.AtLeast? { assert AtLeast(c.gauge, c.bound) in r.when; } else { assert AtMost(c.gauge, c.bound) in r.when; }
      }
    }
  }

  // ----- a rule on its own -----

  /** The rule, armed, and then only operations it applies to. */
  ghost predicate Alone(events: seq<Event>, r: Rule) {
    events != [] && events[0] == Add(r) && forall k :: 1 <= k < |events| ==> events[k].Act? && Applies(r, events[k].op)
  }

  lemma {:induction false} AloneAlive(events: seq<Event>, r: Rule, t: nat)
    requires Alone(events, r) && 1 <= t <= |events|
    ensures Alive(events, t) == [Instance(r, 0)]
  {
    if t > 1 {
      AloneAlive(events, r, t - 1);
    } else {
      assert Alive(events, 0) == [] && [] + [Instance(r, 0)] == [Instance(r, 0)];
    }
  }

  lemma {:induction false} AloneCounts(events: seq<Event>, r: Rule, t: nat)
    requires Alone(events, r) && 1 <= t <= |events|
    ensures Occurrences(events, t, 0) == t - 1
  {
    if t > 1 {
      AloneCounts(events, r, t - 1);
      AloneAlive(events, r, t - 1);
      assert !Settled(events, t - 1, 0, Timing(r));
      OccursInPlace(events, t - 1, 0);
    } else {
      assert Occurrences(events, 0, 0) == 0 && !OccursTo(events, 0, 0);
    }
  }

  /**
   Alone, a cap lets its limit of operations through and acts on every one after;
   any other rule lets as many through as its `after` says; and both stop after
   `times` of them, if that is not zero.
   */
  lemma AloneActs(events: seq<Event>, r: Rule, t: nat)
    requires Alone(events, r) && 1 <= t < |events|
    ensures |Alive(events, t)| == 1
    ensures Acts(events, t, 0) <==>
            var through := if r.action == Cap then r.limit else r.after;
            through < t && (r.times == 0 || t <= through + r.times)
  {
    AloneAlive(events, r, t);
    AloneCounts(events, r, t);
    assert !Settled(events, t, 0, Timing(r));
  }
}
