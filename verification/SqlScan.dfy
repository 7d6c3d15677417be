/**
 The SQL scanner: a walk that tells names from literals, quoted identifiers and
 comments, and the rewrite of $1 placeholders into ?1 built on it. A statement
 is a sequence of bytes, each written as the character of its code.
 */
module SqlScan {

  datatype Kind = LineComment | BlockComment | Literal | Quoted | Name | Space | Mark

  predicate IsDigit(c: char) {
    '0' <= c <= '9'
  }

  predicate IsNameByte(c: char) {
    'a' <= c <= 'z' || 'A' <= c <= 'Z' || IsDigit(c) || c == '_' || c == '$' || c as int >= 0x80
  }

  predicate IsSpace(c: char) {
    c == ' ' || c == '\t' || c == '\n' || c == '\r' || c as int == 11 || c as int == 12
  }

  // ----- where each piece ends -----

  /** Just past the first newline, or the end. */
  function LineEnd(s: string): (n: nat)
    ensures n <= |s| && (s != [] ==> n > 0)
  {
    if s == [] then 0 else if s[0] == '\n' then 1 else 1 + LineEnd(s[1..])
  }

  /** Just past the first star and slash, or the end. */
  function BlockEnd(s: string): (n: nat)
    ensures n <= |s|
  {
    if |s| < 2 then |s| else if s[0] == '*' && s[1] == '/' then 2 else 1 + BlockEnd(s[1..])
  }

  /** Just past the closing mark of a run whose opening mark is already behind; a doubled mark stands for itself. */
  function QuoteEnd(s: string, mark: char): (n: nat)
    ensures n <= |s|
  {
    if s == [] then 0
    else if s[0] != mark then 1 + QuoteEnd(s[1..], mark)
    else if |s| > 1 && s[1] == mark then 2 + QuoteEnd(s[2..], mark)
    else 1
  }

  function NameEnd(s: string): (n: nat)
    ensures n <= |s| && (s != [] && IsNameByte(s[0]) ==> n > 0)
    ensures n < |s| ==> !IsNameByte(s[n])
  {
    if s == [] || !IsNameByte(s[0]) then 0 else 1 + NameEnd(s[1..])
  }

  predicate Starts(s: string, a: char, b: char) {
    |s| > 1 && s[0] == a && s[1] == b
  }

  function KindOf(s: string): Kind
    requires s != []
  {
    if Starts(s, '-', '-') then LineComment
    else if Starts(s, '/', '*') then BlockComment
    else if s[0] == '\'' then Literal
    else if s[0] == '"' || s[0] == '`' then Quoted
    else if IsNameByte(s[0]) then Name
    else if IsSpace(s[0]) then Space
    else Mark
  }

  /** How many bytes the piece at the head takes. */
  function Length(s: string): (n: nat)
    requires s != []
    ensures 0 < n <= |s|
  {
    match KindOf(s)
    case LineComment => LineEnd(s)
    case BlockComment => 2 + BlockEnd(s[2..])
    case Literal => 1 + QuoteEnd(s[1..], s[0])
    case Quoted => 1 + QuoteEnd(s[1..], s[0])
    case Name => NameEnd(s)
    case Space => 1
    case Mark => 1
  }

  predicate AllDigits(s: string) {
    s == [] || (IsDigit(s[0]) && AllDigits(s[1..]))
  }

  /** A bare dollar sign and digits, and nothing else in the name. */
  predicate Placeholder(s: string)
    requires s != []
  {
    KindOf(s) == Name && s[0] == '$' && Length(s) >= 2 && AllDigits(s[1..Length(s)])
  }

  // ----- the rewrite -----

  function Bindable(s: string): (r: string)
    ensures |r| == |s|
  {
    if s == [] then []
    else
      var n := Length(s);
      (if Placeholder(s) then ['?'] + s[1..n] else s[..n]) + Bindable(s[n..])
  }

  // ----- the rewrite does not disturb the scan -----

  /** What may follow a piece after the rewrite: the same first byte, or the mark a placeholder became. */
  predicate Follows(before: string, after: string) {
    && |before| == |after|
    && (before != [] ==> after[0] == before[0] || (before[0] == '$' && after[0] == '?'))
  }

  lemma BindableFollows(s: string)
    ensures Follows(s, Bindable(s))
  {
  }

  lemma {:induction false} LineEndStable(s: string, t: string)
    requires Follows(s[LineEnd(s)..], t)
    ensures LineEnd(s[..LineEnd(s)] + t) == LineEnd(s)
  {
    var n := LineEnd(s);
    if s != [] && s[0] != '\n' {
      var rest := s[1..];
      assert rest[n - 1..] == s[n..];
      LineEndStable(rest, t);
      assert s[..n] + t == [s[0]] + (rest[..n - 1] + t);
    }
  }

  lemma {:induction false} BlockEndStable(s: string, t: string)
    requires Follows(s[BlockEnd(s)..], t)
    ensures BlockEnd(s[..BlockEnd(s)] + t) == BlockEnd(s)
  {
    var n := BlockEnd(s);
    if |s| < 2 {
      assert s[..n] + t == s;
    } else if !(s[0] == '*' && s[1] == '/') {
      var rest := s[1..];
      assert rest[n - 1..] == s[n..];
      BlockEndStable(rest, t);
      var v := rest[..n - 1] + t;
      assert v[0] == s[1];
      assert s[..n] + t == [s[0]] + v && ([s[0]] + v)[1..] == v;
    }
  }

  lemma {:induction false} QuoteEndStable(s: string, mark: char, t: string)
    requires mark != '?' && mark != '$' && Follows(s[QuoteEnd(s, mark)..], t)
    ensures QuoteEnd(s[..QuoteEnd(s, mark)] + t, mark) == QuoteEnd(s, mark)
    decreases |s|
  {
    var n := QuoteEnd(s, mark);
    if s != [] {
      if s[0] != mark {
        QuoteEndStable(s[1..], mark, t) by { Regroup(s, 1, n, t); }
        Regroup(s, 1, n, t);
        QuoteEndPast(s[0], s[1..][..n - 1] + t, mark);
      } else if |s| > 1 && s[1] == mark {
        QuoteEndStable(s[2..], mark, t) by { Regroup(s, 2, n, t); }
        Regroup(s, 2, n, t);
        QuoteEndDoubled(s[2..][..n - 2] + t, mark);
        assert s[..2] == [mark, mark];
      } else {
        QuoteEndClosed(s, mark, t);
      }
    }
  }

  lemma QuoteEndPast(c: char, v: string, mark: char)
    requires c != mark
    ensures QuoteEnd([c] + v, mark) == 1 + QuoteEnd(v, mark)
  {
    assert ([c] + v)[1..] == v;
  }

  lemma QuoteEndDoubled(v: string, mark: char)
    ensures QuoteEnd([mark, mark] + v, mark) == 2 + QuoteEnd(v, mark)
  {
    assert ([mark, mark] + v)[2..] == v;
  }

  lemma QuoteEndClosed(s: string, mark: char, t: string)
    requires mark != '?' && s != [] && s[0] == mark && (|s| > 1 ==> s[1] != mark)
    requires Follows(s[1..], t)
    ensures QuoteEnd(s[..1] + t, mark) == 1
  {
    var u := s[..1] + t;
    assert u[0] == mark && (|u| > 1 ==> u[1] == t[0]);
    assert |s| > 1 ==> s[1..][0] == s[1];
  }

  lemma Regroup(s: string, k: nat, n: nat, t: string)
    requires k <= n <= |s|
    ensures s[k..][n - k..] == s[n..]
    ensures s[..n] + t == s[..k] + (s[k..][..n - k] + t)
    ensures k == 1 ==> s[..k] == [s[0]]
  {
  }

  lemma {:induction false} NameEndStable(s: string, t: string)
    requires Follows(s[NameEnd(s)..], t)
    ensures NameEnd(s[..NameEnd(s)] + t) == NameEnd(s)
  {
    var n := NameEnd(s);
    if s != [] && IsNameByte(s[0]) {
      var rest := s[1..];
      assert rest[n - 1..] == s[n..];
      NameEndStable(rest, t);
      assert s[..n] + t == [s[0]] + (rest[..n - 1] + t);
    }
  }

  lemma BlockStable(s: string, t: string)
    requires s != [] && KindOf(s) == BlockComment && Follows(s[Length(s)..], t)
    ensures var u := s[..Length(s)] + t; u != [] && KindOf(u) == BlockComment && Length(u) == Length(s)
  {
    var n := Length(s);
    var rest := s[2..];
    KindStable(s, t);
    assert rest[n - 2..] == s[n..];
    BlockEndStable(rest, t);
    assert (s[..n] + t)[2..] == rest[..n - 2] + t;
  }

  lemma QuoteStable(s: string, t: string)
    requires s != [] && (KindOf(s) == Literal || KindOf(s) == Quoted) && Follows(s[Length(s)..], t)
    ensures var u := s[..Length(s)] + t; u != [] && KindOf(u) == KindOf(s) && Length(u) == Length(s)
  {
    KindStable(s, t);
    QuoteLength(s, s[1..], s[0], t);
    var n := 1 + QuoteEnd(s[1..], s[0]);
    var u := s[..n] + t;
    assert u[0] == s[0];
    assert Length(u) == 1 + QuoteEnd(u[1..], u[0]);
  }

  lemma QuoteLength(s: string, rest: string, mark: char, t: string)
    requires s == [mark] + rest && mark != '?' && mark != '$' && Follows(s[1 + QuoteEnd(rest, mark)..], t)
    ensures var n := 1 + QuoteEnd(rest, mark); n <= |s| && 1 + QuoteEnd((s[..n] + t)[1..], mark) == n
  {
    var n := 1 + QuoteEnd(rest, mark);
    assert rest[n - 1..] == s[n..];
    QuoteEndStable(rest, mark, t);
    assert (s[..n] + t)[1..] == rest[..n - 1] + t;
  }

  /** A piece scans the same when only what follows it was rewritten. */
  lemma PieceStable(s: string, t: string)
    requires s != [] && Follows(s[Length(s)..], t)
    ensures var u := s[..Length(s)] + t; u != [] && KindOf(u) == KindOf(s) && Length(u) == Length(s)
  {
    KindStable(s, t);
    match KindOf(s)
    case LineComment => LineEndStable(s, t);
    case BlockComment => BlockStable(s, t);
    case Literal => QuoteStable(s, t);
    case Quoted => QuoteStable(s, t);
    case Name => NameEndStable(s, t);
    case Space =>
    case Mark =>
  }

  lemma KindStable(s: string, t: string)
    requires s != [] && Follows(s[Length(s)..], t)
    ensures var u := s[..Length(s)] + t; u != [] && KindOf(u) == KindOf(s)
  {
    var n := Length(s);
    var u := s[..n] + t;
    assert u[0] == s[0];
    if n == 1 && |s| > 1 {
      assert u[1] == t[0] && s[n..][0] == s[1];
    } else if n > 1 {
      assert u[1] == s[1];
    }
  }

  /** The digits of a placeholder are a name of their own once its dollar sign is a mark. */
  lemma DigitsStable(s: string, t: string)
    requires s != [] && Placeholder(s) && Follows(s[Length(s)..], t)
    ensures var d := s[1..Length(s)] + t; d != [] && KindOf(d) == Name && Length(d) == Length(s) - 1 && !Placeholder(d)
  {
    var n := Length(s);
    assert NameEnd(s[1..]) == n - 1;
    assert s[1..][n - 1..] == s[n..];
    NameEndStable(s[1..], t);
    var d := s[1..n] + t;
    assert s[1..][..n - 1] == s[1..n];
    assert IsDigit(d[0]);
  }

  /** Rewriting what was rewritten changes nothing. */
  lemma {:induction false} BindableIdempotent(s: string)
    ensures Bindable(Bindable(s)) == Bindable(s)
  {
    if s != [] {
      var n := Length(s);
      var t := Bindable(s[n..]);
      BindableIdempotent(s[n..]);
      BindableFollows(s[n..]);
      if Placeholder(s) {
        DigitsStable(s, t);
        PlaceholderRewritten(s[1..n], t);
      } else {
        PieceStable(s, t);
        assert !Placeholder(s[..n] + t) by { assert (s[..n] + t)[1..n] == s[1..n]; }
        PieceKept(s[..n], t);
      }
    }
  }

  lemma PlaceholderRewritten(digits: string, t: string)
    requires var d := digits + t; d != [] && Length(d) == |digits| && !Placeholder(d)
    requires Bindable(t) == t
    ensures Bindable(['?'] + digits + t) == ['?'] + digits + t
  {
    PieceKept(digits, t);
    MarkKept(digits + t);
    Prefixed(['?'], digits, t);
  }

  lemma PieceKept(head: string, t: string)
    requires var d := head + t; d != [] && Length(d) == |head| && !Placeholder(d)
    requires Bindable(t) == t
    ensures Bindable(head + t) == head + t
  {
    var d := head + t;
    assert d[..|head|] == head && d[|head|..] == t;
  }

  lemma MarkKept(d: string)
    requires Bindable(d) == d
    ensures Bindable(['?'] + d) == ['?'] + d
  {
    var u := ['?'] + d;
    assert KindOf(u) == Mark && u[..1] == ['?'] && u[1..] == d;
  }

  // ----- tokens -----

  /** A word of the statement, spelt as it is written there. */
  datatype Word = Word(raw: string, at: nat, name: bool)

  /** A piece of the statement as it is written. */
  datatype Piece = Piece(kind: Kind, text: string)

  function Pieces(s: string): (ps: seq<Piece>)
    ensures AllWhole(ps)
    decreases |s|
  {
    if s == [] then []
    else
      var tail := Pieces(s[Length(s)..]);
      var all := [Piece(KindOf(s), s[..Length(s)])] + tail;
      assert all[1..] == tail;
      all
  }

  predicate Whole(p: Piece) {
    p.text != [] && (p.kind == Quoted ==> p.text[0] != '$')
  }

  predicate AllWhole(ps: seq<Piece>) {
    ps == [] || (Whole(ps[0]) && AllWhole(ps[1..]))
  }

  /** Comments, literals and blanks never become words. */
  predicate Silent(p: Piece) {
    p.kind == LineComment || p.kind == BlockComment || p.kind == Literal || p.kind == Space
  }

  function WordOf(p: Piece, at: nat): Word
    requires !Silent(p)
  {
    Word(p.text, at, p.kind == Quoted || p.kind == Name)
  }

  function Words(ps: seq<Piece>, at: nat): seq<Word>
  {
    if ps == [] then []
    else
      var rest := Words(ps[1..], at + |ps[0].text|);
      if Silent(ps[0]) then rest else [WordOf(ps[0], at)] + rest
  }

  method SkipQuoted(sql: string, start: nat, mark: char) returns (end: nat)
    requires start < |sql|
    ensures end == start + 1 + QuoteEnd(sql[start + 1..], mark)
  {
    var index := start + 1;
    while index < |sql|
      invariant start < index <= |sql|
      invariant index + QuoteEnd(sql[index..], mark) == start + 1 + QuoteEnd(sql[start + 1..], mark)
    {
      assert sql[index..][1..] == sql[index + 1..];
      if sql[index] != mark {
        index := index + 1;
      } else if index + 1 < |sql| && sql[index + 1] == mark {
        assert sql[index..][2..] == sql[index + 2..];
        index := index + 2;
      } else {
        return index + 1;
      }
    }
    return |sql|;
  }

  method SkipName(sql: string, start: nat) returns (end: nat)
    requires start < |sql|
    ensures end == start + NameEnd(sql[start..])
  {
    end := start;
    while end < |sql| && IsNameByte(sql[end])
      invariant start <= end <= |sql| && end + NameEnd(sql[end..]) == start + NameEnd(sql[start..])
    {
      assert sql[end..][1..] == sql[end + 1..];
      end := end + 1;
    }
  }

  /** The next piece of the statement: its kind and its end. */
  method NextPiece(sql: string, index: nat, ghost ps: seq<Piece>) returns (kind: Kind, end: nat)
    requires index < |sql| && Ahead(sql, index, ps)
    ensures index < end <= |sql| && ps != [] && ps[0] == Piece(kind, sql[index..end]) && Ahead(sql, end, ps[1..])
  {
    ghost var rest := sql[index..];
    kind, end := Scan(sql, index, rest);
    PiecesStep(rest, ps);
    assert rest[end - index..] == sql[end..] && rest[..end - index] == sql[index..end];
  }

  /** The end of the piece that begins at the index, and what kind of piece it is. */
  method Scan(sql: string, index: nat, ghost rest: string) returns (kind: Kind, end: nat)
    requires index < |sql| && rest == sql[index..]
    ensures kind == KindOf(rest) && end == index + Length(rest)
  {
    var c, next := sql[index], if index + 1 < |sql| then sql[index + 1] else '\0';
    assert c == rest[0] && (|rest| > 1 ==> next == rest[1]);
    assert sql[index + 1..] == rest[1..];
    if c == '-' && next == '-' {
      kind, end := LineComment, index + LineEnd(sql[index..]);
    } else if c == '/' && next == '*' {
      assert sql[index + 2..] == rest[2..];
      kind, end := BlockComment, index + 2 + BlockEnd(sql[index + 2..]);
    } else if c == '\'' {
      kind := Literal;
      end := SkipQuoted(sql, index, c);
    } else if c == '"' || c == '`' {
      kind := Quoted;
      end := SkipQuoted(sql, index, c);
    } else if IsNameByte(c) {
      kind := Name;
      end := SkipName(sql, index);
    } else {
      kind, end := if IsSpace(c) then Space else Mark, index + 1;
    }
  }

  method Tokenize(sql: string) returns (words: seq<Word>)
    ensures words == Words(Pieces(sql), 0)
  {
    words := ReadWords(sql, Pieces(sql));
  }

  method ReadWords(sql: string, ghost all: seq<Piece>) returns (words: seq<Word>)
    requires all == Pieces(sql)
    ensures words == Words(all, 0)
  {
    words := [];
    var index: nat := 0;
    ghost var ps := all;
    assert sql[0..] == sql;
    while index < |sql|
      invariant index <= |sql| && Ahead(sql, index, ps)
      invariant Collected(words, ps, index, all)
      decreases |sql| - index
    {
      var kind, end := NextPiece(sql, index, ps);
      var piece := Piece(kind, sql[index..end]);
      CollectedStep(words, ps, index, all);
      if !Silent(piece) {
        words := words + [WordOf(piece, index)];
      }
      index, ps := end, ps[1..];
    }
  }

  /** The pieces are those of the statement from the index on. */
  ghost predicate Ahead(sql: string, index: nat, ps: seq<Piece>)
    requires index <= |sql|
  {
    ps == Pieces(sql[index..])
  }

  lemma PiecesStep(s: string, ps: seq<Piece>)
    requires s != [] && ps == Pieces(s)
    ensures ps != [] && ps[0] == Piece(KindOf(s), s[..Length(s)]) && ps[1..] == Pieces(s[Length(s)..])
  {
  }

  /** With the words of the pieces still ahead, these are the words of them all. */
  ghost predicate Collected(words: seq<Word>, ps: seq<Piece>, at: nat, all: seq<Piece>) {
    words + Words(ps, at) == Words(all, 0)
  }

  lemma CollectedStep(words: seq<Word>, ps: seq<Piece>, at: nat, all: seq<Piece>)
    requires ps != [] && Collected(words, ps, at, all)
    ensures Collected(if Silent(ps[0]) then words else words + [WordOf(ps[0], at)], ps[1..], at + |ps[0].text|, all)
  {
  }

  // ----- the rewrite, word by word -----

  /** The pieces put back together, each placeholder with its new mark. */
  function Rewritten(ps: seq<Piece>): string
  {
    if ps == [] then [] else (if Hole(ps[0]) then ['?'] + ps[0].text[1..] else ps[0].text) + Rewritten(ps[1..])
  }

  predicate Hole(p: Piece) {
    p.kind == Name && |p.text| >= 2 && p.text[0] == '$' && AllDigits(p.text[1..])
  }

  function Flat(ps: seq<Piece>): string {
    if ps == [] then [] else ps[0].text + Flat(ps[1..])
  }

  lemma {:induction false} PiecesSpell(s: string)
    ensures Flat(Pieces(s)) == s && Rewritten(Pieces(s)) == Bindable(s)
    decreases |s|
  {
    if s != [] {
      PiecesStep(s, Pieces(s));
      var n := Length(s);
      PiecesSpell(s[n..]);
      HoleIsPlaceholder(s);
      assert s[..n] + s[n..] == s;
    }
  }

  lemma HoleIsPlaceholder(s: string)
    requires s != []
    ensures Hole(Piece(KindOf(s), s[..Length(s)])) == Placeholder(s)
    ensures s[..Length(s)][1..] == s[1..Length(s)]
  {
  }

  /** The test the program makes of a word, against the statement it came from. */
  predicate IsPlaceholder(sql: string, item: Word)
    requires item.at < |sql|
  {
    item.name && |item.raw| >= 2 && sql[item.at] == '$' && AllDigits(item.raw[1..])
  }

  /** The words lie in the statement, one after the other, from the position on. */
  predicate InOrder(sql: string, words: seq<Word>, from: nat) {
    words == [] ||
    (from <= words[0].at < |sql| &&
     (IsPlaceholder(sql, words[0]) ==> words[0].at + |words[0].raw| <= |sql| && InOrder(sql, words[1..], words[0].at + |words[0].raw|)) &&
     (!IsPlaceholder(sql, words[0]) ==> InOrder(sql, words[1..], from)))
  }

  /** What the walk over the words still has to write. */
  function Spliced(sql: string, words: seq<Word>, copied: nat): string
    requires copied <= |sql| && InOrder(sql, words, copied)
  {
    if words == [] then sql[copied..]
    else if !IsPlaceholder(sql, words[0]) then Spliced(sql, words[1..], copied)
    else
      var item := words[0];
      sql[copied..item.at] + ['?'] + item.raw[1..] + Spliced(sql, words[1..], item.at + |item.raw|)
  }

  /** Splicing these words, from the copied position, writes what is still uncopied and then the tail. */
  ghost predicate Writes(sql: string, words: seq<Word>, copied: nat, at: nat, tail: string) {
    copied <= at <= |sql| && InOrder(sql, words, copied) && Spliced(sql, words, copied) == sql[copied..at] + tail
  }

  /** Splicing by words is rewriting piece by piece. */
  lemma {:induction false} SplicedIsRewritten(sql: string, ps: seq<Piece>, copied: nat, at: nat)
    requires copied <= at <= |sql| && sql[at..] == Flat(ps) && AllWhole(ps)
    ensures Writes(sql, Words(ps, at), copied, at, Rewritten(ps))
    decreases |ps|
  {
    if ps == [] {
      WritesEnd(sql, copied, at);
    } else {
      var rest := ps[1..];
      HeadText(sql, at, ps[0].text, Flat(rest));
      var end := at + |ps[0].text|;
      if Hole(ps[0]) {
        SplicedIsRewritten(sql, rest, end, end);
        WritesHoleFirst(sql, ps, copied, at);
      } else {
        SplicedIsRewritten(sql, rest, copied, end);
        WritesPlainFirst(sql, ps, copied, at);
      }
    }
  }

  lemma WritesHoleFirst(sql: string, ps: seq<Piece>, copied: nat, at: nat)
    requires ps != [] && copied <= at && Hole(ps[0]) && Whole(ps[0])
    requires var end := at + |ps[0].text|;
             end <= |sql| && sql[at..end] == ps[0].text && Writes(sql, Words(ps[1..], end), end, end, Rewritten(ps[1..]))
    ensures Writes(sql, Words(ps, at), copied, at, Rewritten(ps))
  {
    WritesHole(sql, ps[0], Words(ps[1..], at + |ps[0].text|), copied, at, Rewritten(ps[1..]));
  }

  lemma WritesPlainFirst(sql: string, ps: seq<Piece>, copied: nat, at: nat)
    requires ps != [] && copied <= at && !Hole(ps[0]) && Whole(ps[0])
    requires var end := at + |ps[0].text|;
             end <= |sql| && sql[at..end] == ps[0].text && Writes(sql, Words(ps[1..], end), copied, end, Rewritten(ps[1..]))
    ensures Writes(sql, Words(ps, at), copied, at, Rewritten(ps))
  {
    WritesPlain(sql, ps[0], Words(ps[1..], at + |ps[0].text|), copied, at, Rewritten(ps[1..]));
  }

  lemma WritesEnd(sql: string, copied: nat, at: nat)
    requires copied <= at <= |sql| && sql[at..] == []
    ensures Writes(sql, [], copied, at, [])
  {
    assert sql[copied..] == sql[copied..at] + [];
  }

  lemma WritesHole(sql: string, piece: Piece, words: seq<Word>, copied: nat, at: nat, tail: string)
    requires copied <= at && Hole(piece) && Whole(piece) && at + |piece.text| <= |sql| && sql[at..at + |piece.text|] == piece.text
    requires Writes(sql, words, at + |piece.text|, at + |piece.text|, tail)
    ensures Writes(sql, [WordOf(piece, at)] + words, copied, at, ['?'] + piece.text[1..] + tail)
  {
    assert sql[at] == sql[at..at + |piece.text|][0];
    SplicedHole(sql, piece, words, copied, at, tail);
  }

  lemma WritesPlain(sql: string, piece: Piece, words: seq<Word>, copied: nat, at: nat, tail: string)
    requires copied <= at && !Hole(piece) && Whole(piece) && at + |piece.text| <= |sql| && sql[at..at + |piece.text|] == piece.text
    requires Writes(sql, words, copied, at + |piece.text|, tail)
    ensures Writes(sql, if Silent(piece) then words else [WordOf(piece, at)] + words, copied, at, piece.text + tail)
  {
    assert sql[at] == sql[at..at + |piece.text|][0];
    SpliceCopy(sql, copied, at, at + |piece.text|, tail);
    if !Silent(piece) {
      SplicedPlain(sql, piece, words, copied, at);
    }
  }

  lemma SplicedHole(sql: string, piece: Piece, words: seq<Word>, copied: nat, at: nat, tail: string)
    requires copied <= at && Whole(piece) && Hole(piece) && at + |piece.text| <= |sql| && sql[at] == piece.text[0]
    requires var end := at + |piece.text|; InOrder(sql, words, end) && Spliced(sql, words, end) == sql[end..end] + tail
    ensures var all := [WordOf(piece, at)] + words;
            InOrder(sql, all, copied) && Spliced(sql, all, copied) == sql[copied..at] + (['?'] + piece.text[1..] + tail)
  {
    var all := [WordOf(piece, at)] + words;
    assert all[1..] == words && IsPlaceholder(sql, all[0]);
    SpliceHole(sql[copied..at], piece.text[1..], tail);
  }

  lemma SplicedPlain(sql: string, piece: Piece, words: seq<Word>, copied: nat, at: nat)
    requires copied <= at < |sql| && Whole(piece) && !Hole(piece) && !Silent(piece) && sql[at] == piece.text[0]
    requires InOrder(sql, words, copied)
    ensures var all := [WordOf(piece, at)] + words; InOrder(sql, all, copied) && Spliced(sql, all, copied) == Spliced(sql, words, copied)
  {
    var all := [WordOf(piece, at)] + words;
    assert all[1..] == words && !IsPlaceholder(sql, all[0]);
  }

  lemma HeadText(sql: string, at: nat, text: string, tail: string)
    requires at <= |sql| && text != [] && sql[at..] == text + tail
    ensures at + |text| <= |sql| && sql[at] == text[0] && sql[at..at + |text|] == text && sql[at + |text|..] == tail
  {
    var end := at + |text|;
    assert |sql[at..]| == |text| + |tail|;
    assert sql[at..][0] == text[0];
    assert sql[at..][..|text|] == sql[at..end];
    assert sql[at..][|text|..] == sql[end..];
  }

  lemma SpliceHole(before: string, digits: string, tail: string)
    ensures before + ['?'] + digits + tail == before + (['?'] + digits + tail)
  {
  }

  lemma SpliceCopy(sql: string, copied: nat, at: nat, end: nat, tail: string)
    requires copied <= at <= end <= |sql|
    ensures sql[copied..end] + tail == sql[copied..at] + (sql[at..end] + tail)
  {
  }

  method Splice(sql: string, words: seq<Word>) returns (r: string)
    requires InOrder(sql, words, 0)
    ensures r == Spliced(sql, words, 0)
  {
    var rewritten: string, copied: nat := "", 0;
    for i := 0 to |words|
      invariant copied <= |sql| && InOrder(sql, words[i..], copied)
      invariant rewritten + Spliced(sql, words[i..], copied) == Spliced(sql, words, 0)
      invariant copied == 0 ==> rewritten == ""
    {
      var item := words[i];
      assert words[i..][1..] == words[i + 1..];
      if IsPlaceholder(sql, item) {
        ghost var tail := Spliced(sql, words[i + 1..], item.at + |item.raw|);
        SpliceOn(rewritten, sql[copied..item.at], item.raw[1..], tail);
        rewritten := rewritten + sql[copied..item.at] + ['?'] + item.raw[1..];
        copied := item.at + |item.raw|;
      }
    }
    if copied == 0 {
      return sql;
    }
    return rewritten + sql[copied..];
  }

  lemma SpliceOn(written: string, before: string, digits: string, tail: string)
    ensures written + (before + ['?'] + digits + tail) == written + before + ['?'] + digits + tail
  {
  }

  /** The rewrite the program makes is the rewrite piece by piece. */
  method Bind(sql: string) returns (r: string)
    ensures r == Bindable(sql)
  {
    var words := Tokenize(sql);
    BindIsSplice(sql);
    r := Splice(sql, words);
  }

  lemma BindIsSplice(sql: string)
    ensures InOrder(sql, Words(Pieces(sql), 0), 0) && Spliced(sql, Words(Pieces(sql), 0), 0) == Bindable(sql)
  {
    var ps := Pieces(sql);
    PiecesSpell(sql);
    assert sql[0..] == sql;
    SplicedIsRewritten(sql, ps, 0, 0);
  }

  // ----- what the rewrite touches -----

  /** The position is where a placeholder piece begins. */
  predicate HoleAt(ps: seq<Piece>, p: nat) {
    ps != [] && (if p < |ps[0].text| then p == 0 && Hole(ps[0]) else HoleAt(ps[1..], p - |ps[0].text|))
  }

  lemma {:induction false} RewrittenExact(ps: seq<Piece>, p: nat)
    requires p < |Flat(ps)|
    ensures |Rewritten(ps)| == |Flat(ps)|
    ensures Rewritten(ps)[p] == if HoleAt(ps, p) then '?' else Flat(ps)[p]
    ensures HoleAt(ps, p) ==> Flat(ps)[p] == '$'
  {
    var n := |ps[0].text|;
    RewrittenLength(ps[1..]);
    if p >= n {
      RewrittenExact(ps[1..], p - n);
    }
  }

  lemma {:induction false} RewrittenLength(ps: seq<Piece>)
    ensures |Rewritten(ps)| == |Flat(ps)|
  {
    if ps != [] {
      RewrittenLength(ps[1..]);
    }
  }

  /** The rewrite changes the dollar sign of each top-level placeholder, and no other byte. */
  lemma {:induction false} BindableExact(s: string, p: nat)
    requires p < |s|
    ensures Bindable(s)[p] == if HoleAt(Pieces(s), p) then '?' else s[p]
    ensures HoleAt(Pieces(s), p) ==> s[p] == '$'
  {
    var ps := Pieces(s);
    PiecesSpell(s);
    RewrittenExact(ps, p);
  }

  // ----- literals and quoted names -----

  /** Text as it is written between two marks, with every mark inside it doubled. */
  function Doubled(text: string, mark: char): string {
    if text == "" then "" else (if text[0] == mark then [mark, mark] else [text[0]]) + Doubled(text[1..], mark)
  }

  lemma {:induction false} QuoteEndsAt(text: string, mark: char, rest: string)
    requires rest == "" || rest[0] != mark
    ensures QuoteEnd(Doubled(text, mark) + ([mark] + rest), mark) == |Doubled(text, mark)| + 1
  {
    var closing := [mark] + rest;
    if text == "" {
      assert Doubled(text, mark) + closing == closing;
    } else {
      var inner := Doubled(text[1..], mark);
      QuoteEndsAt(text[1..], mark, rest);
      if text[0] == mark {
        Prefixed([mark, mark], inner, closing);
        QuoteEndDoubled(inner + closing, mark);
      } else {
        Prefixed([text[0]], inner, closing);
        QuoteEndPast(text[0], inner + closing, mark);
      }
    }
  }

  lemma Prefixed(head: string, inner: string, closing: string)
    ensures head + inner + closing == head + (inner + closing)
  {
  }

  lemma QuotedShape(inner: string, mark: char, rest: string)
    ensures var quoted := [mark] + inner + [mark];
            var s := quoted + rest;
            && |quoted| == |inner| + 2 && s[0] == mark && s[1..] == inner + ([mark] + rest)
            && s[..|inner| + 2] == quoted && s[|inner| + 2..] == rest
  {
  }

  /** The whole quoted run is one piece, and no placeholder. */
  lemma QuotedPiece(s: string, mark: char, n: nat)
    requires s != [] && s[0] == mark && (mark == '\'' || mark == '"' || mark == '`') && n == 1 + QuoteEnd(s[1..], mark)
    ensures n <= |s| && Bindable(s) == s[..n] + Bindable(s[n..])
  {
  }

  lemma QuotedHead(s: string, mark: char, inner: string, rest: string)
    requires (mark == '\'' || mark == '"' || mark == '`') && s != [] && s[0] == mark && s[1..] == inner + ([mark] + rest)
    requires QuoteEnd(inner + ([mark] + rest), mark) == |inner| + 1
    ensures |inner| + 2 <= |s| && Bindable(s) == s[..|inner| + 2] + Bindable(s[|inner| + 2..])
  {
    QuotedPiece(s, mark, |inner| + 2);
  }

  /** Any text at all, quoted and followed by more of the statement, is left as it is, whatever it contains. */
  lemma QuotedUntouched(text: string, mark: char, rest: string)
    requires (mark == '\'' || mark == '"' || mark == '`') && (rest == "" || rest[0] != mark)
    ensures var quoted := [mark] + Doubled(text, mark) + [mark]; Bindable(quoted + rest) == quoted + Bindable(rest)
  {
    var inner := Doubled(text, mark);
    var s := [mark] + inner + [mark] + rest;
    QuoteEndsAt(text, mark, rest);
    QuotedShape(inner, mark, rest);
    QuotedHead(s, mark, inner, rest);
  }

  // ----- what the rewrite makes of each kind of text -----

  /** A piece that ends where it is said to is rewritten alone, and the rest as if it stood by itself. */
  lemma BindableHead(piece: string, rest: string)
    requires piece != [] && Length(piece + rest) == |piece|
    ensures Bindable(piece + rest) == (if Placeholder(piece + rest) then ['?'] + piece[1..] else piece) + Bindable(rest)
  {
    var s := piece + rest;
    assert s[..|piece|] == piece && s[|piece|..] == rest && s[1..|piece|] == piece[1..];
  }

  lemma {:induction false} LineEndsAt(line: string, rest: string)
    requires '\n' !in line
    ensures LineEnd(line) == |line| && LineEnd(line + ("\n" + rest)) == |line| + 1
  {
    if line == [] {
      assert line + ("\n" + rest) == "\n" + rest;
    } else {
      LineEndsAt(line[1..], rest);
      assert (line + ("\n" + rest))[1..] == line[1..] + ("\n" + rest);
    }
  }

  /** A comment to the end of its line, or of the statement, is left as it is, whatever it contains. */
  lemma LineCommentUntouched(body: string, rest: string)
    requires '\n' !in body
    ensures Bindable("--" + body) == "--" + body
    ensures Bindable("--" + body + "\n" + rest) == "--" + body + "\n" + Bindable(rest)
  {
    LineEndsAt("--" + body, rest);
    CommentAlone("--" + body);
    CommentLine("--" + body, rest);
  }

  lemma CommentAlone(line: string)
    requires Starts(line, '-', '-') && LineEnd(line) == |line|
    ensures Bindable(line) == line
  {
    assert line + [] == line;
    BindableHead(line, []);
  }

  lemma CommentLine(line: string, rest: string)
    requires Starts(line, '-', '-') && LineEnd(line + ("\n" + rest)) == |line| + 1
    ensures Bindable(line + "\n" + rest) == line + "\n" + Bindable(rest)
  {
    var s := line + "\n" + rest;
    assert s == line + ("\n" + rest) && s[0] == line[0] && s[1] == line[1];
    BindableHead(line + "\n", rest);
  }

  /** The closing mark of a comment stands nowhere in the text. */
  predicate Unclosed(body: string) {
    forall i :: 0 <= i < |body| - 1 ==> !(body[i] == '*' && body[i + 1] == '/')
  }

  lemma {:induction false} BlockEndsAt(body: string, rest: string)
    requires Unclosed(body + "*")
    ensures BlockEnd(body + ("*/" + rest)) == |body| + 2
  {
    var s := body + ("*/" + rest);
    if body == [] {
      assert s == "*/" + rest;
    } else {
      var whole := body + "*";
      assert !(whole[0] == '*' && whole[1] == '/') && s[0] == whole[0] && s[1] == whole[1];
      assert body[1..] + "*" == whole[1..];
      assert s[1..] == body[1..] + ("*/" + rest);
      BlockEndsAt(body[1..], rest);
    }
  }

  /** So is a comment to its closing mark, over any number of lines. */
  lemma BlockCommentUntouched(body: string, rest: string)
    requires Unclosed(body + "*")
    ensures var comment := "/*" + body + "*/"; Bindable(comment + rest) == comment + Bindable(rest)
  {
    var comment := "/*" + body + "*/";
    var s := comment + rest;
    BlockEndsAt(body, rest);
    assert s[2..] == body + ("*/" + rest) && s[0] == '/' && s[1] == '*';
    BindableHead(comment, rest);
  }

  lemma {:induction false} NameEndsAt(name: string, rest: string)
    requires (forall c :: c in name ==> IsNameByte(c)) && (rest == [] || !IsNameByte(rest[0]))
    ensures NameEnd(name + rest) == |name|
  {
    if name == [] {
      assert name + rest == rest;
    } else {
      NameEndsAt(name[1..], rest);
      assert (name + rest)[1..] == name[1..] + rest;
    }
  }

  lemma {:induction false} AllDigitsMeans(s: string)
    ensures AllDigits(s) <==> forall c :: c in s ==> IsDigit(c)
  {
    if s != [] {
      AllDigitsMeans(s[1..]);
      assert s == [s[0]] + s[1..];
    }
  }

  /** A dollar sign and digits alone become a question mark and the digits, and any other name stays as it is. */
  lemma NameBecomes(name: string, rest: string)
    requires name != [] && (forall c :: c in name ==> IsNameByte(c)) && (rest == [] || !IsNameByte(rest[0]))
    ensures var numbered := name[0] == '$' && |name| > 1 && forall c :: c in name[1..] ==> IsDigit(c);
            Bindable(name + rest) == (if numbered then "?" + name[1..] else name) + Bindable(rest)
  {
    var s := name + rest;
    NameEndsAt(name, rest);
    AllDigitsMeans(name[1..]);
    assert s[0] == name[0] && IsNameByte(name[0]) && s[1..|name|] == name[1..];
    BindableHead(name, rest);
  }

  /** A byte that begins none of these stays as it is. */
  lemma OtherUntouched(c: char, rest: string)
    requires !IsNameByte(c) && c != '\'' && c != '"' && c != '`'
    requires (c == '-' && rest != [] ==> rest[0] != '-') && (c == '/' && rest != [] ==> rest[0] != '*')
    ensures Bindable([c] + rest) == [c] + Bindable(rest)
  {
    BindableHead([c], rest);
  }

  // ----- which words there are -----

  /** A word is a name, a quoted name or a mark of the statement, spelt as it is there, at the byte where it stands. */
  predicate MadeFrom(w: Word, ps: seq<Piece>, at: nat, k: nat) {
    && k < |ps| && (ps[k].kind == Name || ps[k].kind == Quoted || ps[k].kind == Mark)
    && w == Word(ps[k].text, at + |Flat(ps[..k])|, ps[k].kind != Mark)
  }

  lemma MadeLater(w: Word, ps: seq<Piece>, at: nat, k: nat)
    requires 0 < k < |ps|
    ensures MadeFrom(w, ps, at, k) <==> MadeFrom(w, ps[1..], at + |ps[0].text|, k - 1)
  {
    assert ps[..k][1..] == ps[1..][..k - 1];
    assert Flat(ps[..k]) == ps[0].text + Flat(ps[1..][..k - 1]);
  }

  lemma MadeHere(w: Word, ps: seq<Piece>, at: nat)
    requires ps != []
    ensures MadeFrom(w, ps, at, 0) <==> !Silent(ps[0]) && w == WordOf(ps[0], at)
  {
    assert Flat(ps[..0]) == [];
  }

  ghost predicate Made(w: Word, ps: seq<Piece>, at: nat) {
    exists k: nat :: MadeFrom(w, ps, at, k)
  }

  lemma MadeSplits(w: Word, ps: seq<Piece>, at: nat)
    requires ps != []
    ensures Made(w, ps, at) <==> MadeFrom(w, ps, at, 0) || Made(w, ps[1..], at + |ps[0].text|)
  {
    var end := at + |ps[0].text|;
    if k: nat :| MadeFrom(w, ps, at, k) {
      if k > 0 {
        MadeLater(w, ps, at, k);
      }
    }
    if k: nat :| MadeFrom(w, ps[1..], end, k) {
      MadeLater(w, ps, at, k + 1);
    }
  }

  /** The words are those. */
  lemma {:induction false} WordsExact(ps: seq<Piece>, at: nat, w: Word)
    ensures w in Words(ps, at) <==> Made(w, ps, at)
    decreases |ps|
  {
    if ps != [] {
      WordsExact(ps[1..], at + |ps[0].text|, w);
      MadeSplits(w, ps, at);
      MadeHere(w, ps, at);
    }
  }

  /** They stand in the order of the statement. */
  lemma {:induction false} WordsInOrder(ps: seq<Piece>, at: nat)
    requires AllWhole(ps)
    ensures forall i :: 0 <= i < |Words(ps, at)| ==> Words(ps, at)[i].at >= at
    ensures forall i, j :: 0 <= i < j < |Words(ps, at)| ==> Words(ps, at)[i].at < Words(ps, at)[j].at
    decreases |ps|
  {
    if ps != [] {
      WordsInOrder(ps[1..], at + |ps[0].text|);
    }
  }

  /** A literal gives no word, and a quoted name one, whatever text stands between the marks. */
  lemma QuotedWords(text: string, mark: char, rest: string, at: nat)
    requires (mark == '\'' || mark == '"' || mark == '`') && (rest == "" || rest[0] != mark)
    ensures var quoted := [mark] + Doubled(text, mark) + [mark];
            Words(Pieces(quoted + rest), at) ==
            (if mark == '\'' then [] else [Word(quoted, at, true)]) + Words(Pieces(rest), at + |quoted|)
  {
    var inner := Doubled(text, mark);
    QuoteEndsAt(text, mark, rest);
    QuotedShape(inner, mark, rest);
    QuotedFirst([mark] + inner + [mark], rest, mark, at);
  }

  lemma QuotedFirst(quoted: string, rest: string, mark: char, at: nat)
    requires (mark == '\'' || mark == '"' || mark == '`') && quoted != [] && quoted[0] == mark
    requires 1 + QuoteEnd((quoted + rest)[1..], mark) == |quoted|
    ensures Words(Pieces(quoted + rest), at) ==
            (if mark == '\'' then [] else [Word(quoted, at, true)]) + Words(Pieces(rest), at + |quoted|)
  {
    QuotedLength(quoted + rest, mark);
    PiecesHead(quoted, rest);
    FirstWord(Pieces(quoted + rest), Piece(if mark == '\'' then Literal else Quoted, quoted), at);
  }

  lemma QuotedLength(s: string, mark: char)
    requires (mark == '\'' || mark == '"' || mark == '`') && s != [] && s[0] == mark
    ensures KindOf(s) == (if mark == '\'' then Literal else Quoted) && Length(s) == 1 + QuoteEnd(s[1..], mark)
  {
  }

  lemma PiecesHead(piece: string, rest: string)
    requires piece != [] && Length(piece + rest) == |piece|
    ensures Pieces(piece + rest) != [] && Pieces(piece + rest)[0] == Piece(KindOf(piece + rest), piece) && Pieces(piece + rest)[1..] == Pieces(rest)
  {
    var s := piece + rest;
    assert s[..|piece|] == piece && s[|piece|..] == rest;
    PiecesStep(s, Pieces(s));
  }

  lemma FirstWord(ps: seq<Piece>, p: Piece, at: nat)
    requires ps != [] && ps[0] == p
    ensures Words(ps, at) == (if Silent(p) then [] else [WordOf(p, at)]) + Words(ps[1..], at + |p.text|)
  {
  }

  // ----- quoted names -----

  /** Every doubled mark made single, from the left. */
  function Single(s: string, mark: char): string {
    if s == [] then []
    else if |s| > 1 && s[0] == mark && s[1] == mark then [mark] + Single(s[2..], mark)
    else [s[0]] + Single(s[1..], mark)
  }

  /** The name a quoted word stands for: its fence off at either end, doubled marks single. */
  function Unfenced(raw: string, mark: char): string {
    var bare := if raw != [] && raw[0] == mark then raw[1..] else raw;
    Single(if bare != [] && bare[|bare| - 1] == mark then bare[..|bare| - 1] else bare, mark)
  }

  lemma {:induction false} SingleDoubled(text: string, mark: char)
    ensures Single(Doubled(text, mark), mark) == text
  {
    if text != [] {
      var inner := Doubled(text[1..], mark);
      SingleDoubled(text[1..], mark);
      if text[0] == mark {
        assert ([mark, mark] + inner)[2..] == inner;
      } else {
        assert ([text[0]] + inner)[1..] == inner;
      }
      assert text == [text[0]] + text[1..];
    }
  }

  /** Quoting a name and reading it back gives the name, whatever it contains. */
  lemma QuotedNameExact(name: string, mark: char)
    ensures Unfenced([mark] + Doubled(name, mark) + [mark], mark) == name
  {
    var inner := Doubled(name, mark);
    assert ([mark] + inner + [mark])[1..] == inner + [mark];
    assert (inner + [mark])[..|inner|] == inner;
    SingleDoubled(name, mark);
  }
}
