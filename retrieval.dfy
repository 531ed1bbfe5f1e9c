/** Turning the search hits into the context text (app.py:21-24): each id returned by the index
    selects a chunk with Python list indexing, and the chunks are joined by newlines. */
module Retrieval {
  import opened Wrappers
  import opened Errors
  import opened Text

  /** How many neighbours the handler asks the index for. */
  const K: nat := 5

  /** Python accepts an index into a list of length `n` when it lies in `[-n, n)`. */
  predicate InRange(n: nat, i: int) {
    -(n as int) <= i < n
  }

  /** The position a Python index denotes: a negative one counts back from the end. */
  function Slot(n: nat, i: int): (p: int)
    ensures InRange(n, i) ==> 0 <= p < n
    ensures 0 <= i ==> p == i
    ensures i < 0 ==> p == n + i
  {
    if i < 0 then n + i else i
  }

  /** `chunks[i]` on a Python list: the element at the denoted position, or IndexError. */
  function PyIndex(cs: seq<string>, i: int): (r: Result<string, Exception>)
    ensures r.Ok? <==> InRange(|cs|, i)
    ensures r.Err? ==> r.error == IndexError
    ensures r.Ok? ==> r.value == cs[Slot(|cs|, i)]
  {
    if InRange(|cs|, i) then Ok(cs[Slot(|cs|, i)]) else Err(IndexError)
  }

  /** `[chunks[i] for i in ids]`: evaluated left to right, the first bad id raises IndexError. */
  function Lookup(cs: seq<string>, ids: seq<int>): (r: Result<seq<string>, Exception>)
    ensures r.Ok? <==> forall k :: 0 <= k < |ids| ==> InRange(|cs|, ids[k])
    ensures r.Err? ==> r.error == IndexError
    ensures r.Ok? ==> |r.value| == |ids|
    ensures r.Ok? ==> forall k :: 0 <= k < |ids| ==> r.value[k] == cs[Slot(|cs|, ids[k])]
    decreases |ids|
  {
    if ids == [] then Ok([])
    else
      match PyIndex(cs, ids[0])
      case Err(x) => Err(x)
      case Ok(c) =>
        match Lookup(cs, ids[1..])
        case Err(x) => Err(x)
        case Ok(rest) => Ok([c] + rest)
  }

  /** The same comprehension when `chunks` may still be None: with no ids nothing is subscripted,
      otherwise None cannot be. */
  function Gather(chunks: Option<seq<string>>, ids: seq<int>): (r: Result<seq<string>, Exception>)
    ensures ids == [] ==> r == Ok([])
    ensures ids != [] && chunks.None? ==> r == Err(NotSubscriptable)
    ensures ids != [] && chunks.Some? ==> r == Lookup(chunks.value, ids)
  {
    if ids == [] then Ok([])
    else
      match chunks
      case None => Err(NotSubscriptable)
      case Some(cs) => Lookup(cs, ids)
  }

  /** `"\n".join(...)` of the gathered chunks. */
  function ContextOf(chunks: Option<seq<string>>, ids: seq<int>): Result<string, Exception> {
    match Gather(chunks, ids)
    case Err(x) => Err(x)
    case Ok(picked) => Ok(Join(picked))
  }

  /** An id of -1, which the index returns when it holds fewer than K vectors, is not rejected:
      it selects the last chunk. */
  lemma MissingHitIsLastChunk(cs: seq<string>, ids: seq<int>, k: nat)
    requires |cs| > 0 && k < |ids| && ids[k] == -1
    requires Lookup(cs, ids).Ok?
    ensures Lookup(cs, ids).value[k] == cs[|cs| - 1]
  {
    assert Slot(|cs|, ids[k]) == |cs| - 1;
  }

  /** Negative ids count back from the end: `-j` and `|cs| - j` pick the same chunk. */
  lemma NegativeIdWraps(cs: seq<string>, j: nat)
    requires 1 <= j <= |cs|
    ensures PyIndex(cs, -(j as int)) == PyIndex(cs, |cs| - j)
    ensures PyIndex(cs, -(j as int)).Ok?
  {
  }

  /** Ids are not deduplicated: the same id twice gives the same chunk twice. */
  lemma RepeatedIdRepeatsChunk(cs: seq<string>, ids: seq<int>, a: nat, b: nat)
    requires a < |ids| && b < |ids| && ids[a] == ids[b]
    requires Lookup(cs, ids).Ok?
    ensures Lookup(cs, ids).value[a] == Lookup(cs, ids).value[b]
  {
  }

  /** With newline-free chunks and at least one id, splitting the context at newlines gives back
      exactly the selected chunks, one per id, in the order of the ids. */
  lemma ContextLines(cs: seq<string>, ids: seq<int>)
    requires ids != [] && Lookup(cs, ids).Ok?
    requires forall c :: c in cs ==> NewlineFree(c)
    ensures ContextOf(Some(cs), ids).Ok?
    ensures Split(ContextOf(Some(cs), ids).value) == Lookup(cs, ids).value
    ensures |Split(ContextOf(Some(cs), ids).value)| == |ids|
  {
    var picked := Lookup(cs, ids).value;
    forall k | 0 <= k < |picked|
      ensures NewlineFree(picked[k])
    {
      assert picked[k] in cs;
    }
    JoinSplit(picked);
  }
}
