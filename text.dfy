/** Python's `"\n".join(parts)` and `s.split("\n")` on strings, and how they undo each other. */
module Text {

  const Newline: char := '\n'

  predicate NewlineFree(s: string) {
    Newline !in s
  }

  /** `"\n".join(parts)`: the parts in order, one newline between neighbours. */
  function Join(parts: seq<string>): string
    decreases |parts|
  {
    if |parts| == 0 then ""
    else if |parts| == 1 then parts[0]
    else parts[0] + [Newline] + Join(parts[1..])
  }

  /** Each body followed by its own newline: the text of `len(bodies)` terminated lines. */
  function Lines(bodies: seq<string>): string
    decreases |bodies|
  {
    if bodies == [] then "" else bodies[0] + [Newline] + Lines(bodies[1..])
  }

  /** The position of the first newline in `s` (`s.find("\n")`), or `|s|` when there is none. */
  function FindNewline(s: string): (i: nat)
    ensures i <= |s|
    ensures i < |s| ==> s[i] == Newline
    ensures NewlineFree(s[..i])
    decreases |s|
  {
    if s == [] then 0
    else if s[0] == Newline then 0
    else
      var i := 1 + FindNewline(s[1..]);
      assert s[..i] == [s[0]] + s[1..][..i - 1];
      i
  }

  /** `s.split("\n")`: the maximal newline-free pieces between newlines; never empty. */
  function Split(s: string): (pieces: seq<string>)
    ensures |pieces| >= 1
    decreases |s|
  {
    var i := FindNewline(s);
    if i == |s| then [s] else [s[..i]] + Split(s[i + 1..])
  }

  /** Split loses nothing: joining the pieces gives the string back. */
  lemma {:induction false} SplitJoin(s: string)
    ensures Join(Split(s)) == s
    decreases |s|
  {
    var i := FindNewline(s);
    if i < |s| {
      var head, tail := s[..i], s[i + 1..];
      SplitJoin(tail);
      SplitFirst(s);
      JoinCons(head, Split(tail));
      AroundNewline(s, i);
    }
  }

  /** Where there is a newline, the first piece is what precedes it and the rest is split further. */
  lemma SplitFirst(s: string)
    requires FindNewline(s) < |s|
    ensures Split(s) == [s[..FindNewline(s)]] + Split(s[FindNewline(s) + 1..])
  {
  }

  /** A string is what precedes a newline in it, the newline, and what follows. */
  lemma AroundNewline(s: string, i: nat)
    requires i < |s| && s[i] == Newline
    ensures s == s[..i] + [Newline] + s[i + 1..]
  {
    assert s == s[..i] + [s[i]] + s[i + 1..];
  }

  /** Joining a part in front of at least one more part puts one newline between them. */
  lemma JoinCons(p: string, ps: seq<string>)
    requires |ps| >= 1
    ensures Join([p] + ps) == p + [Newline] + Join(ps)
  {
    assert ([p] + ps)[1..] == ps;
  }

  /** Every piece is newline-free, and there is one piece more than there are newlines. */
  lemma {:induction false} SplitPieces(s: string)
    ensures forall k :: 0 <= k < |Split(s)| ==> NewlineFree(Split(s)[k])
    ensures |Split(s)| == multiset(s)[Newline] + 1
    decreases |s|
  {
    var i := FindNewline(s);
    if i < |s| {
      var tail := s[i + 1..];
      SplitPieces(tail);
      assert Split(s) == [s[..i]] + Split(tail);
      calc {
        multiset(s)[Newline];
        { assert s == s[..i] + [Newline] + tail; }
        multiset(s[..i] + [Newline] + tail)[Newline];
        multiset(s[..i])[Newline] + 1 + multiset(tail)[Newline];
        1 + multiset(tail)[Newline];
      }
    } else {
      assert s[..i] == s;
    }
  }

  /** A newline-free string is a single piece. */
  lemma NewlineFreeSplit(s: string)
    requires NewlineFree(s)
    ensures Split(s) == [s]
  {
  }

  /** A newline-free prefix followed by a newline is exactly the first piece. */
  lemma SplitAfterNewline(p: string, t: string)
    requires NewlineFree(p)
    ensures Split(p + [Newline] + t) == [p] + Split(t)
  {
    var s := p + [Newline] + t;
    assert s[|p|] == Newline;
    assert s[..|p|] == p && s[|p| + 1..] == t;
  }

  /** The round trip the other way: a non-empty list of newline-free parts survives join then split. */
  lemma {:induction false} JoinSplit(parts: seq<string>)
    requires |parts| >= 1
    requires forall k :: 0 <= k < |parts| ==> NewlineFree(parts[k])
    ensures Split(Join(parts)) == parts
    decreases |parts|
  {
    if |parts| == 1 {
      NewlineFreeSplit(parts[0]);
    } else {
      JoinSplit(parts[1..]);
      SplitAfterNewline(parts[0], Join(parts[1..]));
    }
  }

  /** Terminated newline-free lines split back into themselves, followed by what comes after. */
  lemma {:induction false} SplitLines(bodies: seq<string>, t: string)
    requires forall k :: 0 <= k < |bodies| ==> NewlineFree(bodies[k])
    ensures Split(Lines(bodies) + t) == bodies + Split(t)
    decreases |bodies|
  {
    if bodies == [] {
      LinesCons(bodies, t);
    } else {
      var rest := bodies[1..];
      var u := Lines(rest) + t;
      SplitLines(rest, t);
      LinesCons(bodies, t);
      SplitAfterNewline(bodies[0], u);
      ConsAppend(bodies[0], rest, Split(t));
    }
  }

  /** Regrouping a first element, the rest, and what follows. */
  lemma ConsAppend<T>(x: T, xs: seq<T>, ys: seq<T>)
    ensures [x] + (xs + ys) == ([x] + xs) + ys
  {
  }

  /** How the text of some lines followed by more text starts. */
  lemma LinesCons(bodies: seq<string>, t: string)
    ensures bodies == [] ==> Lines(bodies) + t == t
    ensures bodies != [] ==>
      Lines(bodies) + t == bodies[0] + [Newline] + (Lines(bodies[1..]) + t) &&
      bodies == [bodies[0]] + bodies[1..]
  {
  }

  /** Appending one more terminated line to the text of some lines. */
  lemma {:induction false} LinesSnoc(bodies: seq<string>, b: string)
    ensures Lines(bodies + [b]) == Lines(bodies) + b + [Newline]
    decreases |bodies|
  {
    if bodies == [] {
      assert bodies + [b] == [b];
    } else {
      assert (bodies + [b])[1..] == bodies[1..] + [b];
      LinesSnoc(bodies[1..], b);
    }
  }

  /** Splitting is compatible with concatenation at a newline: the pieces of the two sides, in order. */
  lemma {:induction false} SplitAtNewline(s: string, t: string)
    ensures Split(s + [Newline] + t) == Split(s) + Split(t)
    decreases |s|
  {
    var i := FindNewline(s);
    if i == |s| {
      SplitAfterNewline(s, t);
    } else {
      var head, tail := s[..i], s[i + 1..];
      calc {
        Split(s + [Newline] + t);
        { assert s + [Newline] + t == head + [Newline] + (tail + [Newline] + t); }
        Split(head + [Newline] + (tail + [Newline] + t));
        { SplitAfterNewline(head, tail + [Newline] + t); }
        [head] + Split(tail + [Newline] + t);
        { SplitAtNewline(tail, t); }
        [head] + (Split(tail) + Split(t));
        ([head] + Split(tail)) + Split(t);
      }
    }
  }
}
