/**
 The rule engine every operation passes through: armed fault rules, the counters
 that decide when each of them acts, and the verdict they compose.
 */
module Rules {

  // ----- rules and operations -----

  datatype Action = Fail | Stall | DropConn | Cap

  datatype Condition = AtLeast(gauge: string, bound: int) | AtMost(gauge: string, bound: int)

  datatype Rule = Rule(pattern: string, action: Action, after: nat, times: nat, when: seq<Condition>,
                       message: string, code: string, millis: nat, limit: nat)

  datatype Op = Op(emulator: string, kind: string, gauges: map<string, int>)

  /** What is before the first dot, and what is behind it. */
  function Before(s: string): string {
    if s == [] || s[0] == '.' then [] else [s[0]] + Before(s[1..])
  }

  function Behind(s: string): string {
    if s == [] then [] else if s[0] == '.' then s[1..] else Behind(s[1..])
  }

  predicate SegmentMatches(pattern: string, segment: string) {
    pattern == "*" || pattern == segment
  }

  predicate NameMatches(pattern: string, name: string) {
    pattern == "*" ||
    (SegmentMatches(Before(pattern), Before(name)) && SegmentMatches(Behind(pattern), Behind(name)))
  }

  lemma {:induction false} CutAtFirstDot(head: string, tail: string)
    requires '.' !in head
    ensures Before(head + "." + tail) == head && Behind(head + "." + tail) == tail
  {
    var s := head + "." + tail;
    if head == "" {
      assert s[1..] == tail;
    } else {
      assert s[1..] == head[1..] + "." + tail;
      CutAtFirstDot(head[1..], tail);
    }
  }

  /** A pattern of two segments matches the operation of an emulator segment by segment, a star standing for a whole one. */
  lemma NameMatchesExact(wantEmulator: string, wantKind: string, emulator: string, kind: string)
    requires '.' !in wantEmulator && '.' !in emulator
    ensures NameMatches(wantEmulator + "." + wantKind, emulator + "." + kind) <==>
            (wantEmulator == "*" || wantEmulator == emulator) && (wantKind == "*" || wantKind == kind)
  {
    CutAtFirstDot(wantEmulator, wantKind);
    CutAtFirstDot(emulator, kind);
    assert '.' in wantEmulator + "." + wantKind;
  }

  predicate Holds(c: Condition, gauges: map<string, int>) {
    c.gauge in gauges && if c.AtLeast? then gauges[c.gauge] >= c.bound else gauges[c.gauge] <= c.bound
  }

  /** The rule is about this operation, in the state its backend reports. */
  predicate Applies(r: Rule, op: Op) {
    && NameMatches(r.pattern, op.emulator + "." + op.kind)
    && forall c :: c in r.when ==> Holds(c, op.gauges)
  }

  function Threshold(r: Rule): nat {
    if r.action == Cap then r.limit else r.after
  }

  /** Milliseconds as nanoseconds in a 64-bit integer, wrapped as the multiplication wraps. */
  function Nanos(millis: nat): int {
    var low := (millis * 1_000_000) % 0x1_0000_0000_0000_0000;
    if low < 0x8000_0000_0000_0000 then low else low - 0x1_0000_0000_0000_0000
  }

  // ----- the verdict -----

  datatype Text = Own(text: string) | LimitReached(limit: nat) | Injected

  datatype Fault = NoFault | Fault(code: string, message: Text)

  datatype Verdict = Verdict(delay: int, drop: bool, err: Fault, acted: seq<Action>)

  const Untouched: Verdict := Verdict(0, false, NoFault, [])

  predicate Timing(r: Rule) {
    r.action == Stall
  }

  /** An earlier rule already decided the half of the verdict this rule would decide. */
  predicate Taken(v: Verdict, r: Rule) {
    if Timing(r) then v.delay > 0 else v.drop || v.err != NoFault
  }

  function Said(r: Rule): Text {
    if r.message != "" then Own(r.message) else if r.action == Cap then LimitReached(r.limit) else Injected
  }

  function Apply(v: Verdict, r: Rule): Verdict {
    (match r.action
     case Stall => v.(delay := Nanos(r.millis))
     case DropConn => v.(drop := true)
     case Fail => v.(err := Fault(r.code, Said(r)))
     case Cap => v.(err := Fault(r.code, Said(r)))).(acted := v.acted + [r.action])
  }

  // ----- counting -----

  datatype Armed = Armed(rule: Rule, matched: nat, fired: nat)

  datatype Shot = Shot(armed: Armed, acts: bool)

  function Fire(a: Armed, op: Op): Shot {
    if !Applies(a.rule, op) then Shot(a, false)
    else
      var counted := a.(matched := a.matched + 1);
      if counted.matched <= Threshold(a.rule) then Shot(counted, false)
      else if a.rule.times > 0 && a.fired >= a.rule.times then Shot(counted, false)
      else Shot(counted.(fired := a.fired + 1), true)
  }

  /** What one rule does to the verdict so far: a rule whose half is taken does not even count. */
  function Consider(v: Verdict, a: Armed, op: Op): Shot {
    if Taken(v, a.rule) then Shot(a, false) else Fire(a, op)
  }

  datatype Decision = Decision(rules: seq<Armed>, verdict: Verdict)

  function Decide(rules: seq<Armed>, op: Op, v: Verdict): (d: Decision)
    ensures |d.rules| == |rules|
    decreases |rules|
  {
    if rules == [] then Decision([], v)
    else
      var shot := Consider(v, rules[0], op);
      var rest := Decide(rules[1..], op, if shot.acts then Apply(v, rules[0].rule) else v);
      Decision([shot.armed] + rest.rules, rest.verdict)
  }

  // ----- the interceptor -----

  datatype Event = Act(op: Op) | Add(rule: Rule) | Remove(index: int) | Reset

  function Step(rules: seq<Armed>, e: Event): Decision {
    match e
    case Act(op) => Decide(rules, op, Untouched)
    case Add(rule) => Decision(rules + [Armed(rule, 0, 0)], Untouched)
    case Remove(i) => Decision(if 0 <= i < |rules| then rules[..i] + rules[i + 1..] else rules, Untouched)
    case Reset => Decision([], Untouched)
  }

  class Interceptor {
    var rules: seq<Armed>

    constructor ()
      ensures rules == []
    {
      rules := [];
    }

    method DecideOp(op: Op) returns (verdict: Verdict)
      modifies this
      ensures Decision(rules, verdict) == Decide(old(rules), op, Untouched)
    {
      verdict := Untouched;
      ghost var whole := Decide(rules, op, Untouched);
      assert rules[0..] == rules;
      for i := 0 to |rules|
        invariant |rules| == |old(rules)| && rules[i..] == old(rules)[i..]
        invariant var rest := Decide(rules[i..], op, verdict); rules[..i] + rest.rules == whole.rules && rest.verdict == whole.verdict
      {
        var armed := rules[i];
        var shot := Consider(verdict, armed, op);
        DecideStep(rules, i, op, verdict);
        rules := rules[i := shot.armed];
        if shot.acts {
          verdict := Apply(verdict, armed.rule);
        }
      }
    }

    method AddRule(rule: Rule)
      modifies this
      ensures rules == Step(old(rules), Add(rule)).rules
    {
      rules := rules + [Armed(rule, 0, 0)];
    }

    method RemoveRule(index: int) returns (ok: bool)
      modifies this
      ensures ok == (0 <= index < |old(rules)|) && rules == Step(old(rules), Remove(index)).rules
    {
      ok := 0 <= index < |rules|;
      if ok {
        rules := rules[..index] + rules[index + 1..];
      }
    }

    method ResetRules()
      modifies this
      ensures rules == Step(old(rules), Reset).rules
    {
      rules := [];
    }
  }

  lemma Reassociate(rules: seq<Armed>, i: nat, a: Armed, rest: seq<Armed>)
    requires i < |rules|
    ensures rules[i := a][i + 1..] == rules[i + 1..] && rules[i := a][..i + 1] + rest == rules[..i] + ([a] + rest)
  {
  }

  lemma DecideStep(rules: seq<Armed>, i: nat, op: Op, v: Verdict)
    requires i < |rules|
    ensures var shot := Consider(v, rules[i], op);
            var rest := Decide(rules[i + 1..], op, if shot.acts then Apply(v, rules[i].rule) else v);
            var now := rules[i := shot.armed];
            && now[i + 1..] == rules[i + 1..] && Decide(rules[i..], op, v).verdict == rest.verdict
            && now[..i + 1] + rest.rules == rules[..i] + Decide(rules[i..], op, v).rules
  {
    var shot := Consider(v, rules[i], op);
    var rest := Decide(rules[i + 1..], op, if shot.acts then Apply(v, rules[i].rule) else v);
    assert rules[i..][1..] == rules[i + 1..];
    Reassociate(rules, i, shot.armed, rest.rules);
  }
}
