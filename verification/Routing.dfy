/**
 Which queues a published message reaches: the topic matcher and the binding
 walk of the broker's exchanges.
 */
module Routing {

  datatype Kind = Direct | Fanout | Topic

  datatype Binding = Binding(target: nat, key: string)

  datatype Exchange = Exchange(kind: Kind, bindings: seq<Binding>)

  const ONE_WORD := "*"
  const ANY_WORDS := "#"

  // ----- words of a routing key -----

  /** The words between the dots; there is always at least one. */
  function Split(text: string): (words: seq<string>)
    ensures |words| >= 1
  {
    if text == "" then [""]
    else if text[0] == '.' then [""] + Split(text[1..])
    else
      var rest := Split(text[1..]);
      [[text[0]] + rest[0]] + rest[1..]
  }

  function Join(words: seq<string>): string
    requires |words| >= 1
  {
    if |words| == 1 then words[0] else words[0] + "." + Join(words[1..])
  }

  /** Splitting loses nothing. */
  lemma {:induction false} SplitJoin(text: string)
    ensures Join(Split(text)) == text
  {
    if text != "" {
      var rest := Split(text[1..]);
      var words := Split(text);
      SplitJoin(text[1..]);
      if text[0] == '.' {
        assert words[1..] == rest;
        assert Join(words) == "" + "." + text[1..];
      } else {
        assert words[1..] == rest[1..];
        JoinFirst(text[0], rest);
      }
      assert text == [text[0]] + text[1..];
    }
  }

  lemma {:induction false} JoinFirst(c: char, words: seq<string>)
    requires |words| >= 1
    ensures Join([[c] + words[0]] + words[1..]) == [c] + Join(words)
  {
    var longer := [[c] + words[0]] + words[1..];
    assert longer[1..] == words[1..] && longer[0] == [c] + words[0];
    if |words| > 1 {
      Reassociate([c], words[0], ".", Join(words[1..]));
    }
  }

  lemma Reassociate(a: string, b: string, c: string, d: string)
    ensures a + b + c + d == a + (b + c + d)
  {
  }

  /** A word list without dots is the only one that joins to its text. */
  lemma {:induction false} JoinSplit(words: seq<string>)
    requires |words| >= 1
    requires forall i :: 0 <= i < |words| ==> '.' !in words[i]
    ensures Split(Join(words)) == words
    decreases |words|, |words[0]|
  {
    var text := Join(words);
    if words[0] == "" {
      if |words| > 1 {
        JoinSplit(words[1..]);
        assert text == "." + Join(words[1..]);
        assert text[1..] == Join(words[1..]);
      }
    } else {
      var shorter := [words[0][1..]] + words[1..];
      assert shorter[1..] == words[1..];
      assert text[1..] == Join(shorter);
      JoinSplit(shorter);
      assert words[0] == [words[0][0]] + words[0][1..];
      assert text[0] == words[0][0];
    }
  }

  // ----- the topic matcher -----

  predicate WordsMatch(pattern: seq<string>, words: seq<string>)
    decreases |pattern| + |words|
  {
    if |pattern| == 0 then |words| == 0
    else if pattern[0] == ANY_WORDS then
      WordsMatch(pattern[1..], words) || (|words| > 0 && WordsMatch(pattern, words[1..]))
    else if |words| == 0 then false
    else (pattern[0] == ONE_WORD || pattern[0] == words[0]) && WordsMatch(pattern[1..], words[1..])
  }

  predicate TopicMatches(pattern: string, routingKey: string) {
    WordsMatch(Split(pattern), Split(routingKey))
  }

  /** What one pattern word may stand for. */
  predicate Stands(word: string, part: seq<string>) {
    word == ANY_WORDS || (|part| == 1 && (word == ONE_WORD || word == part[0]))
  }

  function Concat(parts: seq<seq<string>>): seq<string> {
    if parts == [] then [] else parts[0] + Concat(parts[1..])
  }

  /** A way of cutting the key into one part per pattern word. */
  ghost predicate Cuts(parts: seq<seq<string>>, pattern: seq<string>, words: seq<string>) {
    && |parts| == |pattern|
    && Concat(parts) == words
    && forall i :: 0 <= i < |pattern| ==> Stands(pattern[i], parts[i])
  }

  /** The matcher accepts exactly the keys that can be cut up to fit the pattern. */
  lemma WordsMatchExact(pattern: seq<string>, words: seq<string>)
    ensures WordsMatch(pattern, words) <==> exists parts :: Cuts(parts, pattern, words)
  {
    if WordsMatch(pattern, words) {
      var parts := CutFor(pattern, words);
    }
    if exists parts :: Cuts(parts, pattern, words) {
      var parts :| Cuts(parts, pattern, words);
      CutMatches(parts, pattern, words);
    }
  }

  lemma {:induction false} CutFor(pattern: seq<string>, words: seq<string>)
    returns (parts: seq<seq<string>>)
    requires WordsMatch(pattern, words)
    ensures Cuts(parts, pattern, words)
    decreases |pattern| + |words|
  {
    if |pattern| == 0 {
      parts := [];
    } else if pattern[0] == ANY_WORDS {
      if WordsMatch(pattern[1..], words) {
        var rest := CutFor(pattern[1..], words);
        parts := [[]] + rest;
        assert parts[1..] == rest;
      } else {
        var rest := CutFor(pattern, words[1..]);
        parts := [[words[0]] + rest[0]] + rest[1..];
        assert parts[1..] == rest[1..];
        assert Concat(parts) == [words[0]] + Concat(rest);
      }
    } else {
      var rest := CutFor(pattern[1..], words[1..]);
      parts := [[words[0]]] + rest;
      assert parts[1..] == rest;
    }
  }

  lemma {:induction false} CutMatches(parts: seq<seq<string>>, pattern: seq<string>, words: seq<string>)
    requires Cuts(parts, pattern, words)
    ensures WordsMatch(pattern, words)
    decreases |pattern| + |words|
  {
    if |pattern| > 0 {
      assert words == parts[0] + Concat(parts[1..]);
      assert Stands(pattern[0], parts[0]);
      assert forall i :: 0 <= i < |pattern[1..]| ==> Stands(pattern[1..][i], parts[1..][i]);
      if pattern[0] == ANY_WORDS && parts[0] != [] {
        var shorter := [parts[0][1..]] + parts[1..];
        assert shorter[1..] == parts[1..];
        assert Concat(shorter) == words[1..];
        assert Cuts(shorter, pattern, words[1..]);
        CutMatches(shorter, pattern, words[1..]);
      } else if pattern[0] == ANY_WORDS {
        assert Concat(parts[1..]) == words;
        CutMatches(parts[1..], pattern[1..], words);
      } else {
        assert Concat(parts[1..]) == words[1..];
        CutMatches(parts[1..], pattern[1..], words[1..]);
      }
    }
  }

  // ----- destinations -----

  predicate Reaches(kind: Kind, pattern: string, routingKey: string) {
    match kind
    case Fanout => true
    case Topic => TopicMatches(pattern, routingKey)
    case Direct => pattern == routingKey
  }

  /** The binding walk, keeping the first mention of each queue. */
  function Reached(kind: Kind, bindings: seq<Binding>, routingKey: string): (reached: seq<nat>)
    ensures forall q :: q in reached <==> exists b :: b in bindings && b.target == q && Reaches(kind, b.key, routingKey)
    ensures forall i, j :: 0 <= i < j < |reached| ==> reached[i] != reached[j]
  {
    if bindings == [] then []
    else
      var before := Reached(kind, bindings[..|bindings| - 1], routingKey);
      var last := bindings[|bindings| - 1];
      assert bindings == bindings[..|bindings| - 1] + [last];
      if Reaches(kind, last.key, routingKey) && last.target !in before then before + [last.target] else before
  }

  function UnbindAll(bindings: seq<Binding>, target: nat): (kept: seq<Binding>)
    ensures forall b :: b in kept <==> b in bindings && b.target != target
  {
    if bindings == [] then []
    else if bindings[0].target == target then UnbindAll(bindings[1..], target)
    else [bindings[0]] + UnbindAll(bindings[1..], target)
  }

  /** Unbinding a queue takes it, and only it, out of every route. */
  lemma UnboundIsUnreached(kind: Kind, bindings: seq<Binding>, target: nat, routingKey: string, q: nat)
    ensures q in Reached(kind, UnbindAll(bindings, target), routingKey)
            <==> q in Reached(kind, bindings, routingKey) && q != target
  {
    var kept := UnbindAll(bindings, target);
    if q in Reached(kind, bindings, routingKey) && q != target {
      var b :| b in bindings && b.target == q && Reaches(kind, b.key, routingKey);
      assert b in kept;
    }
  }
}
