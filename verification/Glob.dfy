/**
 Redis globs: a pattern read into tokens, the language the tokens stand for, and
 the backtracking matcher that decides it.
 */
module Glob {

  datatype Range = Range(low: char, high: char)

  datatype Token = Run | One | Class(negated: bool, ranges: seq<Range>) | Literal(c: char)

  // ----- patterns as tokens -----

  datatype Group = Group(ranges: seq<Range>, rest: string)

  /** The members of a class, up to its closing bracket or the end of the pattern. */
  function Members(p: string): (g: Group)
    ensures |g.rest| <= |p|
    decreases |p|
  {
    if p == "" then Group([], "")
    else if p[0] == ']' then Group([], p[1..])
    else
      var tail := Members(p[Width(p)..]);
      Group([Member(p)] + tail.ranges, tail.rest)
  }

  predicate Escaped(p: string)
    requires p != ""
  {
    p[0] == '\\' && |p| > 1
  }

  predicate Ranged(p: string)
    requires p != ""
  {
    |p| > 2 && p[1] == '-' && p[2] != ']'
  }

  function Member(p: string): Range
    requires p != ""
  {
    if Escaped(p) then Range(p[1], p[1]) else if Ranged(p) then Range(p[0], p[2]) else Range(p[0], p[0])
  }

  function Width(p: string): (n: nat)
    requires p != ""
    ensures 0 < n <= |p|
  {
    if Escaped(p) then 2 else if Ranged(p) then 3 else 1
  }

  function Inside(p: string): string {
    if p != "" && p[0] == '^' then p[1..] else p
  }

  datatype Lexed = Lexed(token: Token, rest: string)

  function Lex(p: string): (l: Lexed)
    requires p != ""
    ensures |l.rest| < |p|
  {
    if p[0] == '*' then Lexed(Run, p[1..])
    else if p[0] == '?' then Lexed(One, p[1..])
    else if p[0] == '[' then
      var inside := Inside(p[1..]);
      var group := Members(inside);
      Lexed(Class(inside != p[1..], group.ranges), group.rest)
    else if p[0] == '\\' && |p| > 1 then Lexed(Literal(p[1]), p[2..])
    else Lexed(Literal(p[0]), p[1..])
  }

  function Tokens(p: string): seq<Token>
    decreases |p|
  {
    if p == "" then [] else [Lex(p).token] + Tokens(Lex(p).rest)
  }

  // ----- the language -----

  predicate InRange(r: Range, c: char) {
    r.low <= c <= r.high
  }

  predicate Contains(ranges: seq<Range>, c: char) {
    exists i :: 0 <= i < |ranges| && InRange(ranges[i], c)
  }

  predicate Fits(t: Token, c: char) {
    match t
    case Run => false
    case One => true
    case Class(negated, ranges) => Contains(ranges, c) != negated
    case Literal(l) => c == l
  }

  /** What one token can stand for: a star for anything, the others for one character. */
  predicate Stands(t: Token, piece: string) {
    t == Run || (|piece| == 1 && Fits(t, piece[0]))
  }

  function Joined(pieces: seq<string>): string {
    if pieces == [] then "" else pieces[0] + Joined(pieces[1..])
  }

  ghost predicate Cut(tokens: seq<Token>, pieces: seq<string>, text: string) {
    && |pieces| == |tokens| && Joined(pieces) == text
    && forall i :: 0 <= i < |tokens| ==> Stands(tokens[i], pieces[i])
  }

  /** The text can be cut into pieces, one for each token. */
  ghost predicate InLanguage(tokens: seq<Token>, text: string) {
    exists pieces :: Cut(tokens, pieces, text)
  }

  // ----- the same language, token by token -----

  ghost predicate Accepts(tokens: seq<Token>, text: string)
    decreases |tokens|
  {
    if tokens == [] then text == ""
    else if tokens[0] == Run then exists i :: 0 <= i <= |text| && Accepts(tokens[1..], text[i..])
    else text != "" && Fits(tokens[0], text[0]) && Accepts(tokens[1..], text[1..])
  }

  lemma CutFirst(tokens: seq<Token>, piece: string, pieces: seq<string>, text: string)
    requires tokens != [] && Stands(tokens[0], piece) && Cut(tokens[1..], pieces, text)
    ensures Cut(tokens, [piece] + pieces, piece + text)
  {
    var all := [piece] + pieces;
    assert all[1..] == pieces;
    forall i | 0 <= i < |tokens| ensures Stands(tokens[i], all[i]) {
      if i > 0 {
        assert Stands(tokens[1..][i - 1], pieces[i - 1]);
      }
    }
  }

  lemma CutRest(tokens: seq<Token>, pieces: seq<string>, text: string)
    requires tokens != [] && Cut(tokens, pieces, text)
    ensures |pieces[0]| <= |text| && text[..|pieces[0]|] == pieces[0] && Stands(tokens[0], pieces[0])
    ensures Cut(tokens[1..], pieces[1..], text[|pieces[0]|..])
  {
    assert text == pieces[0] + Joined(pieces[1..]);
    forall i | 0 <= i < |tokens| - 1 ensures Stands(tokens[1..][i], pieces[1..][i]) {
      assert Stands(tokens[i + 1], pieces[i + 1]);
    }
  }

  lemma {:induction false} AcceptsInLanguage(tokens: seq<Token>, text: string)
    requires Accepts(tokens, text)
    ensures InLanguage(tokens, text)
    decreases |tokens|
  {
    if tokens == [] {
      assert Cut(tokens, [], text);
    } else {
      var i := 1;
      if tokens[0] == Run {
        i :| 0 <= i <= |text| && Accepts(tokens[1..], text[i..]);
      }
      AcceptsInLanguage(tokens[1..], text[i..]);
      var pieces :| Cut(tokens[1..], pieces, text[i..]);
      CutFirst(tokens, text[..i], pieces, text[i..]);
      assert text == text[..i] + text[i..];
    }
  }

  lemma {:induction false} InLanguageAccepts(tokens: seq<Token>, pieces: seq<string>, text: string)
    requires Cut(tokens, pieces, text)
    ensures Accepts(tokens, text)
    decreases |tokens|
  {
    if tokens != [] {
      CutRest(tokens, pieces, text);
      InLanguageAccepts(tokens[1..], pieces[1..], text[|pieces[0]|..]);
      assert tokens[0] != Run ==> text[0] == pieces[0][0];
    }
  }

  lemma AcceptsExactly(tokens: seq<Token>, text: string)
    ensures Accepts(tokens, text) <==> InLanguage(tokens, text)
  {
    if Accepts(tokens, text) {
      AcceptsInLanguage(tokens, text);
    }
    if InLanguage(tokens, text) {
      var pieces :| Cut(tokens, pieces, text);
      InLanguageAccepts(tokens, pieces, text);
    }
  }

  /** A second star right after a star adds nothing. */
  lemma RunTwice(tokens: seq<Token>, text: string)
    ensures Accepts([Run, Run] + tokens, text) <==> Accepts([Run] + tokens, text)
  {
    var one, two := [Run] + tokens, [Run, Run] + tokens;
    assert one[1..] == tokens && two[1..] == one;
    if Accepts(one, text) {
      assert text[0..] == text;
    }
    if Accepts(two, text) {
      var i :| 0 <= i <= |text| && Accepts(one, text[i..]);
      var j :| 0 <= j <= |text[i..]| && Accepts(tokens, text[i..][j..]);
      assert text[i..][j..] == text[i + j..];
    }
  }

  // ----- the matcher -----

  function TrimStars(p: string): (r: string)
    ensures |r| <= |p|
  {
    if p != "" && p[0] == '*' then TrimStars(p[1..]) else p
  }

  lemma TokensRun(p: string)
    requires p != "" && p[0] == '*'
    ensures Tokens(p) == [Run] + Tokens(p[1..])
  {
  }

  lemma {:induction false} TrimmedStars(p: string, text: string)
    requires p != "" && p[0] == '*'
    ensures Accepts(Tokens(p), text) <==> Accepts([Run] + Tokens(TrimStars(p)), text)
    decreases |p|
  {
    var rest := p[1..];
    TokensRun(p);
    if rest != "" && rest[0] == '*' {
      TokensRun(rest);
      TrimmedStars(rest, text);
      RunTwice(Tokens(rest[1..]), text);
      assert [Run] + ([Run] + Tokens(rest[1..])) == [Run, Run] + Tokens(rest[1..]);
    }
  }

  /** Whether the character is among the members, and what is behind the closing bracket. */
  method ReadMembers(p: string, c: char) returns (rest: string, found: bool)
    ensures rest == Members(p).rest && found == Contains(Members(p).ranges, c)
  {
    rest, found := p, false;
    while rest != "" && rest[0] != ']'
      invariant Members(rest).rest == Members(p).rest
      invariant Contains(Members(p).ranges, c) <==> found || Contains(Members(rest).ranges, c)
      decreases |rest|
    {
      ContainsFirst(Member(rest), Members(rest[Width(rest)..]).ranges, c);
      if rest[0] == '\\' && |rest| > 1 {
        found, rest := found || rest[1] == c, rest[2..];
      } else if |rest| > 2 && rest[1] == '-' && rest[2] != ']' {
        found, rest := found || (rest[0] <= c && c <= rest[2]), rest[3..];
      } else {
        found, rest := found || rest[0] == c, rest[1..];
      }
    }
    if rest != "" {
      rest := rest[1..];
    }
  }

  lemma ContainsFirst(first: Range, ranges: seq<Range>, c: char)
    ensures Contains([first] + ranges, c) <==> InRange(first, c) || Contains(ranges, c)
  {
    var all := [first] + ranges;
    assert all[0] == first && all[1..] == ranges;
    if Contains(ranges, c) {
      var i :| 0 <= i < |ranges| && InRange(ranges[i], c);
      assert InRange(all[i + 1], c);
    }
  }

  /** Whether the character belongs to the class at the head, and what is behind it. */
  method ReadClass(p: string, c: char) returns (rest: string, member: bool)
    requires p != "" && p[0] == '['
    ensures rest == Lex(p).rest && member == Fits(Lex(p).token, c)
  {
    var inside := p[1..];
    var negated := inside != "" && inside[0] == '^';
    if negated {
      inside := inside[1..];
    }
    assert inside == Inside(p[1..]);
    var found;
    rest, found := ReadMembers(inside, c);
    member := found != negated;
  }

  /** The matcher decides exactly the language of the pattern. */
  method Matches(pattern: string, text: string) returns (r: bool)
    ensures r <==> InLanguage(Tokens(pattern), text)
    decreases |pattern|, 0
  {
    var p, t := pattern, text;
    while p != ""
      invariant |p| <= |pattern|
      invariant Accepts(Tokens(p), t) <==> Accepts(Tokens(pattern), text)
      decreases |p|
    {
      AcceptsExactly(Tokens(pattern), text);
      if p[0] == '*' {
        TrimmedStars(p, t);
        TrimShorter(p);
        r := MatchesRun(TrimStars(p), t);
        return;
      }
      LexStep(p, t);
      if t == "" {
        return false;
      }
      if p[0] == '?' {
        p := p[1..];
      } else if p[0] == '[' {
        var rest, member := ReadClass(p, t[0]);
        if !member {
          return false;
        }
        p := rest;
      } else {
        var literal := if p[0] == '\\' && |p| > 1 then p[1..] else p;
        if t[0] != literal[0] {
          return false;
        }
        p := literal[1..];
      }
      t := t[1..];
    }
    AcceptsExactly(Tokens(pattern), text);
    return t == "";
  }

  lemma LexStep(p: string, t: string)
    requires p != "" && p[0] != '*'
    ensures Accepts(Tokens(p), t) <==> t != "" && Fits(Lex(p).token, t[0]) && Accepts(Tokens(Lex(p).rest), t[1..])
  {
    assert Tokens(p)[0] == Lex(p).token && Tokens(p)[1..] == Tokens(Lex(p).rest);
  }

  lemma TrimShorter(p: string)
    requires p != "" && p[0] == '*'
    ensures |TrimStars(p)| < |p|
  {
  }

  method MatchesRun(rest: string, text: string) returns (r: bool)
    ensures r <==> Accepts([Run] + Tokens(rest), text)
    decreases |rest|, 1
  {
    ghost var tokens := [Run] + Tokens(rest);
    assert tokens[1..] == Tokens(rest);
    if rest == "" {
      assert text[|text|..] == "";
      return true;
    }
    for i := 0 to |text| + 1
      invariant forall k :: 0 <= k < i ==> !Accepts(Tokens(rest), text[k..])
    {
      var here := Matches(rest, text[i..]);
      AcceptsExactly(Tokens(rest), text[i..]);
      if here {
        return true;
      }
    }
    return false;
  }
}
