/**
 Writing tokens as a pattern, and what reading the pattern gives: every token list
 whose ranges can be written at all comes back as it was.
 */
module GlobSpelling {
  import opened Glob

  /** A single character of a class is escaped, a range has its dash. */
  function RangeText(r: Range): string {
    if r.low == r.high then ['\\', r.low] else [r.low, '-', r.high]
  }

  /** No escape reaches inside a range, so it cannot begin with what a class reads first, or end with a bracket. */
  predicate Writable(r: Range) {
    r.low == r.high || (r.low != '\\' && r.low != ']' && r.low != '^' && r.high != ']')
  }

  function RangesText(ranges: seq<Range>): string {
    if ranges == [] then "" else RangeText(ranges[0]) + RangesText(ranges[1..])
  }

  predicate TokenWritable(t: Token) {
    t.Class? ==> forall r :: r in t.ranges ==> Writable(r)
  }

  function TokenText(t: Token): string {
    match t
    case Run => "*"
    case One => "?"
    case Class(negated, ranges) => "[" + (if negated then "^" else "") + RangesText(ranges) + "]"
    case Literal(c) => ['\\', c]
  }

  function PatternText(tokens: seq<Token>): string {
    if tokens == [] then "" else TokenText(tokens[0]) + PatternText(tokens[1..])
  }

  lemma RangeRead(r: Range, rest: string)
    requires Writable(r)
    ensures var p := RangeText(r) + rest; p[0] != ']' && p[0] != '^' && Member(p) == r && Width(p) == |RangeText(r)| && p[Width(p)..] == rest
  {
  }

  lemma MembersStep(p: string, r: Range, rest: string)
    requires p != "" && p[0] != ']' && Member(p) == r && p[Width(p)..] == rest
    ensures Members(p) == Group([r] + Members(rest).ranges, Members(rest).rest)
  {
  }

  lemma {:induction false} MembersRead(ranges: seq<Range>, rest: string)
    requires forall r :: r in ranges ==> Writable(r)
    ensures Members(RangesText(ranges) + ("]" + rest)) == Group(ranges, rest)
  {
    var tail := "]" + rest;
    if ranges == [] {
      assert RangesText(ranges) + tail == tail;
    } else {
      var more := RangesText(ranges[1..]) + tail;
      assert RangesText(ranges) + tail == RangeText(ranges[0]) + more;
      RangeRead(ranges[0], more);
      MembersStep(RangesText(ranges) + tail, ranges[0], more);
      MembersRead(ranges[1..], rest);
    }
  }

  lemma NoCaret(ranges: seq<Range>, tail: string)
    requires (forall r :: r in ranges ==> Writable(r)) && tail != "" && tail[0] != '^'
    ensures (RangesText(ranges) + tail)[0] != '^'
  {
    if ranges == [] {
      assert RangesText(ranges) + tail == tail;
    } else {
      RangeRead(ranges[0], RangesText(ranges[1..]) + tail);
      assert RangesText(ranges) + tail == RangeText(ranges[0]) + (RangesText(ranges[1..]) + tail);
    }
  }

  lemma ClassRead(negated: bool, ranges: seq<Range>, rest: string)
    requires forall r :: r in ranges ==> Writable(r)
    ensures Lex(TokenText(Class(negated, ranges)) + rest) == Lexed(Class(negated, ranges), rest)
  {
    var body := RangesText(ranges) + ("]" + rest);
    MembersRead(ranges, rest);
    NoCaret(ranges, "]" + rest);
    ClassText(negated, ranges, rest);
    ClassLexed(negated, body);
  }

  lemma ClassText(negated: bool, ranges: seq<Range>, rest: string)
    ensures TokenText(Class(negated, ranges)) + rest ==
            "[" + ((if negated then "^" else "") + (RangesText(ranges) + ("]" + rest)))
  {
  }

  lemma ClassLexed(negated: bool, body: string)
    requires body != "" && body[0] != '^'
    ensures Lex("[" + ((if negated then "^" else "") + body)) == Lexed(Class(negated, Members(body).ranges), Members(body).rest)
  {
    var inside := (if negated then "^" else "") + body;
    assert ("[" + inside)[1..] == inside;
    if negated {
      assert inside[1..] == body;
    } else {
      assert inside == body;
    }
  }

  lemma TokenRead(t: Token, rest: string)
    requires TokenWritable(t)
    ensures Lex(TokenText(t) + rest) == Lexed(t, rest)
  {
    if t.Class? {
      ClassRead(t.negated, t.ranges, rest);
    }
  }

  /** Reading what was written gives the tokens back. */
  lemma {:induction false} WrittenIsRead(tokens: seq<Token>)
    requires forall t :: t in tokens ==> TokenWritable(t)
    ensures Tokens(PatternText(tokens)) == tokens
  {
    if tokens != [] {
      var rest := PatternText(tokens[1..]);
      assert TokenText(tokens[0]) != "";
      TokenRead(tokens[0], rest);
      WrittenIsRead(tokens[1..]);
      assert tokens == [tokens[0]] + tokens[1..];
    }
  }

  // ----- what the marks stand for -----

  predicate Special(c: char) {
    c == '*' || c == '?' || c == '[' || c == '\\'
  }

  /** A pattern without special characters stands for itself alone. */
  lemma {:induction false} PlainStandsForItself(p: string, text: string)
    requires forall c :: c in p ==> !Special(c)
    ensures InLanguage(Tokens(p), text) <==> text == p
  {
    AcceptsExactly(Tokens(p), text);
    if p != "" {
      assert p[0] in p && Lex(p) == Lexed(Literal(p[0]), p[1..]);
      assert Tokens(p)[0] == Literal(p[0]) && Tokens(p)[1..] == Tokens(p[1..]);
      if text != "" {
        AcceptsExactly(Tokens(p[1..]), text[1..]);
        PlainStandsForItself(p[1..], text[1..]);
        assert text == [text[0]] + text[1..] && p == [p[0]] + p[1..];
      }
    }
  }

  /** A star stands for any text, a question mark for any one character, and a class for one that some range of it holds, or none if it is negated. */
  lemma MarksStandFor(negated: bool, ranges: seq<Range>, text: string)
    requires forall r :: r in ranges ==> Writable(r)
    ensures InLanguage(Tokens("*"), text)
    ensures InLanguage(Tokens("?"), text) <==> |text| == 1
    ensures InLanguage(Tokens(TokenText(Class(negated, ranges))), text) <==>
            |text| == 1 && (negated <==> !exists r :: r in ranges && r.low <= text[0] <= r.high)
  {
    OneToken(Run, text);
    OneToken(One, text);
    OneToken(Class(negated, ranges), text);
    if |text| == 1 {
      HeldBySome(ranges, text[0]);
    }
  }

  lemma HeldBySome(ranges: seq<Range>, c: char)
    ensures Contains(ranges, c) <==> exists r :: r in ranges && r.low <= c <= r.high
  {
    if r :| r in ranges && r.low <= c <= r.high {
      var i :| 0 <= i < |ranges| && ranges[i] == r;
      assert InRange(ranges[i], c);
    }
  }

  lemma OneToken(t: Token, text: string)
    requires TokenWritable(t)
    ensures InLanguage(Tokens(TokenText(t)), text) <==> Stands(t, text)
  {
    WrittenIsRead([t]);
    assert PatternText([t]) == TokenText(t);
    if Stands(t, text) {
      assert Cut([t], [text], text);
    }
    if InLanguage([t], text) {
      var pieces :| Cut([t], pieces, text);
      assert pieces == [pieces[0]] && Joined(pieces) == pieces[0];
    }
  }
}
