/** Rendering the training-log entries of a request into the retrieval query (app.py:11-13). */
module Query {
  import opened Wrappers
  import opened Errors
  import opened Text

  /** One entry of the request's `logs` list: the JSON object's values, already rendered as text,
      under the keys the handler reads (any other key of the object is never looked at). */
  type Entry = map<LogKey, string>

  /** The keys the query line reads, in the order the format string evaluates them. */
  const RequiredKeys: seq<LogKey> := [Date, Activity, Duration, DistanceKm, I1, I2, I3, I4, I5, Note]

  /** An entry that has every key the query line reads. */
  datatype LogRecord = LogRecord(
    date: string, activity: string, duration: string, distanceKm: string,
    i1: string, i2: string, i3: string, i4: string, i5: string, note: string)

  predicate HasAllKeys(e: Entry) {
    forall k :: 0 <= k < |RequiredKeys| ==> RequiredKeys[k] in e
  }

  /** `k` is the key whose lookup raises first: it is missing and every key read before it is present. */
  predicate FirstMissing(e: Entry, k: nat) {
    k < |RequiredKeys| && RequiredKeys[k] !in e &&
    forall j :: 0 <= j < k ==> RequiredKeys[j] in e
  }

  /** The position of the first key of `RequiredKeys[from..]` that `e` lacks, or `|RequiredKeys|`. */
  function FindMissing(e: Entry, from: nat): (k: nat)
    requires from <= |RequiredKeys|
    ensures from <= k <= |RequiredKeys|
    ensures forall j :: from <= j < k ==> RequiredKeys[j] in e
    ensures k < |RequiredKeys| ==> RequiredKeys[k] !in e
    decreases |RequiredKeys| - from
  {
    if from == |RequiredKeys| then from
    else if RequiredKeys[from] !in e then from
    else FindMissing(e, from + 1)
  }

  /** Reads the fields of one entry as the format string does: the first absent key raises KeyError. */
  function ReadEntry(e: Entry): (r: Result<LogRecord, Exception>)
    ensures r.Ok? <==> HasAllKeys(e)
    ensures r.Ok? ==> forall k :: 0 <= k < |RequiredKeys| ==> Fields(r.value)[k] == e[RequiredKeys[k]]
  {
    var k := FindMissing(e, 0);
    if k < |RequiredKeys| then
      Err(KeyError(RequiredKeys[k]))
    else
      Ok(LogRecord(e[Date], e[Activity], e[Duration], e[DistanceKm],
                   e[I1], e[I2], e[I3], e[I4], e[I5], e[Note]))
  }

  /** An entry that cannot be read fails on the first key, in reading order, that it lacks. */
  lemma ReadEntryError(e: Entry)
    requires ReadEntry(e).Err?
    ensures exists k: nat :: FirstMissing(e, k) && ReadEntry(e).error == KeyError(RequiredKeys[k])
  {
    assert FirstMissing(e, FindMissing(e, 0));
  }

  /** The literal text the format string writes before each field, in field order. */
  const Labels: seq<string> := LabelsFrom(0)

  /** The label written before field `k`. */
  function Label(k: nat): string
    requires k < |RequiredKeys|
  {
    match k
    case 0 => ""
    case 1 => ": "
    case 2 => " "
    case 3 => "min "
    case 4 => "km i1:"
    case 5 => " i2:"
    case 6 => " i3:"
    case 7 => " i4:"
    case 8 => " i5:"
    case _ => " poznámka: "
  }

  /** The labels from field `k` on. */
  function LabelsFrom(k: nat): (ls: seq<string>)
    ensures |ls| == if k < |RequiredKeys| then |RequiredKeys| - k else 0
    decreases |RequiredKeys| - k
  {
    if k < |RequiredKeys| then [Label(k)] + LabelsFrom(k + 1) else []
  }

  /** The field values of a record, in the order the format string writes them. */
  function Fields(r: LogRecord): (vs: seq<string>)
    ensures |vs| == |Labels|
  {
    [r.date, r.activity, r.duration, r.distanceKm, r.i1, r.i2, r.i3, r.i4, r.i5, r.note]
  }

  /** Each label followed by its value, in order. */
  function Weave(labels: seq<string>, values: seq<string>): string
    requires |labels| == |values|
    decreases |labels|
  {
    if labels == [] then "" else labels[0] + (values[0] + Weave(labels[1..], values[1..]))
  }

  /** The text of one query line, without its terminating newline. */
  function LineBody(r: LogRecord): string {
    Weave(Labels, Fields(r))
  }

  /** The line written for a record spelled out: every field verbatim, after its fixed label. */
  lemma LineShape(r: LogRecord)
    ensures LineBody(r) ==
      r.date + (": " + (r.activity + (" " + (r.duration + ("min " + (r.distanceKm + ("km i1:" + (r.i1
      + (" i2:" + (r.i2 + (" i3:" + (r.i3 + (" i4:" + (r.i4 + (" i5:" + (r.i5
      + (" poznámka: " + r.note)))))))))))))))))
  {
    LabelsSpelled();
    WeaveTen(Labels, Fields(r));
  }

  /** The labels one by one. */
  lemma LabelsSpelled()
    ensures Labels[0] == "" && Labels[1] == ": " && Labels[2] == " " && Labels[3] == "min "
    ensures Labels[4] == "km i1:" && Labels[5] == " i2:" && Labels[6] == " i3:"
    ensures Labels[7] == " i4:" && Labels[8] == " i5:" && Labels[9] == " poznámka: "
  {
  }

  /** Weaving ten labels with ten values, unrolled. */
  lemma WeaveTen(ls: seq<string>, vs: seq<string>)
    requires |ls| == |vs| == 10 && ls[0] == ""
    ensures Weave(ls, vs) ==
      vs[0] + (ls[1] + (vs[1] + (ls[2] + (vs[2] + (ls[3] + (vs[3] + (ls[4] + (vs[4]
      + (ls[5] + (vs[5] + (ls[6] + (vs[6] + (ls[7] + (vs[7] + (ls[8] + (vs[8] + (ls[9]
      + vs[9])))))))))))))))))
  {
    assert Weave(ls[10..], vs[10..]) == "";
    assert Weave(ls[9..], vs[9..]) == ls[9] + vs[9] by {
      assert vs[9] + "" == vs[9];
    }
    assert Weave(ls[8..], vs[8..]) == ls[8] + (vs[8] + Weave(ls[9..], vs[9..]));
    assert Weave(ls[7..], vs[7..]) == ls[7] + (vs[7] + Weave(ls[8..], vs[8..]));
    assert Weave(ls[6..], vs[6..]) == ls[6] + (vs[6] + Weave(ls[7..], vs[7..]));
    assert Weave(ls[5..], vs[5..]) == ls[5] + (vs[5] + Weave(ls[6..], vs[6..]));
    assert Weave(ls[4..], vs[4..]) == ls[4] + (vs[4] + Weave(ls[5..], vs[5..]));
    assert Weave(ls[3..], vs[3..]) == ls[3] + (vs[3] + Weave(ls[4..], vs[4..]));
    assert Weave(ls[2..], vs[2..]) == ls[2] + (vs[2] + Weave(ls[3..], vs[3..]));
    assert Weave(ls[1..], vs[1..]) == ls[1] + (vs[1] + Weave(ls[2..], vs[2..]));
    var rest := Weave(ls[1..], vs[1..]);
    assert Weave(ls, vs) == "" + (vs[0] + rest);
    assert "" + (vs[0] + rest) == vs[0] + rest;
  }

  /** No field of the record contains a newline. */
  predicate FieldsNewlineFree(r: LogRecord) {
    forall k :: 0 <= k < |Fields(r)| ==> NewlineFree(Fields(r)[k])
  }

  /** The query line of one entry, newline included, or the KeyError its rendering raises. */
  function RenderLine(e: Entry): Result<string, Exception> {
    match ReadEntry(e)
    case Err(x) => Err(x)
    case Ok(r) => Ok(LineBody(r) + [Newline])
  }

  /** What each entry renders to, in input order. */
  function Rendered(logs: seq<Entry>): (rs: seq<Result<string, Exception>>)
    ensures |rs| == |logs|
  {
    seq(|logs|, i requires 0 <= i < |logs| => RenderLine(logs[i]))
  }

  /** The accumulator after appending the rendered lines one by one: the first failure stops it. */
  function Append(rs: seq<Result<string, Exception>>): Result<string, Exception>
    decreases |rs|
  {
    if rs == [] then Ok("")
    else
      match Append(rs[..|rs| - 1])
      case Err(x) => Err(x)
      case Ok(q) =>
        match rs[|rs| - 1]
        case Err(x) => Err(x)
        case Ok(line) => Ok(q + line)
  }

  /** The query the loop builds for `logs`, or the KeyError that aborts it. */
  function QueryOf(logs: seq<Entry>): Result<string, Exception> {
    Append(Rendered(logs))
  }

  /** The `for log in logs: query += ...` loop. */
  method BuildQuery(logs: seq<Entry>) returns (r: Result<string, Exception>)
    ensures r == QueryOf(logs)
  {
    ghost var rs := Rendered(logs);
    var query := "";
    for i := 0 to |logs|
      invariant Append(rs[..i]) == Ok(query)
    {
      var line := RenderLine(logs[i]);
      assert rs[i] == line;
      AppendStep(rs, i);
      if line.Err? {
        AppendStopsAtError(rs, i + 1);
        return Err(line.error);
      }
      query := query + line.value;
    }
    assert rs[..|logs|] == rs;
    return Ok(query);
  }

  /** Accumulating one more rendering after a prefix that succeeded. */
  lemma AppendStep(rs: seq<Result<string, Exception>>, i: nat)
    requires i < |rs| && Append(rs[..i]).Ok?
    ensures Append(rs[..i + 1]) ==
      if rs[i].Err? then Err(rs[i].error) else Ok(Append(rs[..i]).value + rs[i].value)
  {
    assert rs[..i + 1][..i] == rs[..i];
  }

  /** Once a prefix of the lines fails, the whole accumulation fails with the same exception. */
  lemma {:induction false} AppendStopsAtError(rs: seq<Result<string, Exception>>, n: nat)
    requires n <= |rs| && Append(rs[..n]).Err?
    ensures Append(rs) == Append(rs[..n])
    decreases |rs| - n
  {
    if n < |rs| {
      assert rs[..n + 1][..n] == rs[..n];
      AppendStopsAtError(rs, n + 1);
    } else {
      assert rs[..n] == rs;
    }
  }

  /** The position of the first failed rendering, or `|rs|` when every one succeeded. */
  function FirstError(rs: seq<Result<string, Exception>>): (k: nat)
    ensures k <= |rs|
    ensures forall j :: 0 <= j < k ==> rs[j].Ok?
    ensures k < |rs| ==> rs[k].Err?
    decreases |rs|
  {
    if rs == [] then 0
    else
      var n := |rs| - 1;
      var k := FirstError(rs[..n]);
      assert forall j :: 0 <= j < k ==> rs[..n][j] == rs[j];
      if k < n then k else if rs[n].Err? then n else |rs|
  }

  /** The accumulation fails exactly when some line fails, and then with the first failure. */
  lemma {:induction false} AppendFailure(rs: seq<Result<string, Exception>>)
    ensures Append(rs).Err? <==> FirstError(rs) < |rs|
    ensures Append(rs).Err? ==> Append(rs).error == rs[FirstError(rs)].error
    decreases |rs|
  {
    if rs != [] {
      var init := rs[..|rs| - 1];
      AppendFailure(init);
      if FirstError(init) < |init| {
        assert init[FirstError(init)] == rs[FirstError(init)];
      }
    }
  }

  /** Lines that all render, each terminated, accumulate to the text of their bodies. */
  lemma {:induction false} AppendLines(rs: seq<Result<string, Exception>>, bodies: seq<string>)
    requires |bodies| == |rs|
    requires forall i :: 0 <= i < |rs| ==> rs[i] == Ok(bodies[i] + [Newline])
    ensures Append(rs) == Ok(Lines(bodies))
    decreases |rs|
  {
    if rs != [] {
      var n := |rs| - 1;
      var initBodies := bodies[..n];
      AppendLines(rs[..n], initBodies);
      calc {
        Append(rs);
        Ok(Lines(initBodies) + (bodies[n] + [Newline]));
        { assert Lines(initBodies) + (bodies[n] + [Newline]) == Lines(initBodies) + bodies[n] + [Newline]; }
        Ok(Lines(initBodies) + bodies[n] + [Newline]);
        { LinesSnoc(initBodies, bodies[n]); }
        Ok(Lines(initBodies + [bodies[n]]));
        { assert initBodies + [bodies[n]] == bodies; }
        Ok(Lines(bodies));
      }
    }
  }

  /** The query fails exactly when some entry lacks a key. */
  lemma QueryFailsIff(logs: seq<Entry>)
    ensures QueryOf(logs).Err? <==> exists i :: 0 <= i < |logs| && !HasAllKeys(logs[i])
  {
    RenderedErrors(logs);
    AppendFailure(Rendered(logs));
  }

  /** A failing query fails with the KeyError of the first missing key of the first entry that
      lacks one; every entry before it is complete. */
  lemma QueryFirstError(logs: seq<Entry>)
    requires QueryOf(logs).Err?
    ensures exists i: nat, k: nat :: (i < |logs| && (forall j :: 0 <= j < i ==> HasAllKeys(logs[j])) &&
      FirstMissing(logs[i], k) && QueryOf(logs).error == KeyError(RequiredKeys[k]))
  {
    RenderedErrors(logs);
    FirstErrorOf(logs, Rendered(logs));
  }

  /** The same, for any renderings that fail exactly where reading the entry does. */
  lemma FirstErrorOf(logs: seq<Entry>, rs: seq<Result<string, Exception>>)
    requires |rs| == |logs| && Append(rs).Err?
    requires forall i :: 0 <= i < |logs| ==> (rs[i].Err? <==> !HasAllKeys(logs[i]))
    requires forall i :: 0 <= i < |logs| && rs[i].Err? ==> rs[i].error == ReadEntry(logs[i]).error
    ensures exists i: nat, k: nat :: (i < |logs| && (forall j :: 0 <= j < i ==> HasAllKeys(logs[j])) &&
      FirstMissing(logs[i], k) && Append(rs).error == KeyError(RequiredKeys[k]))
  {
    AppendFailure(rs);
    var i := FirstError(rs);
    assert rs[i].Err? && !HasAllKeys(logs[i]);
    EntryError(logs[i]);
    var k := FindMissing(logs[i], 0);
    assert Append(rs).error == KeyError(RequiredKeys[k]);
    forall j | 0 <= j < i
      ensures HasAllKeys(logs[j])
    {
      assert rs[j].Ok?;
    }
  }

  /** The error reading an incomplete entry raises names its first missing key. */
  lemma EntryError(e: Entry)
    requires !HasAllKeys(e)
    ensures FirstMissing(e, FindMissing(e, 0))
    ensures ReadEntry(e) == Err(KeyError(RequiredKeys[FindMissing(e, 0)]))
  {
  }

  /** An entry's rendering fails exactly when it lacks a key, and with the error reading it raises. */
  lemma RenderedErrors(logs: seq<Entry>)
    ensures forall i :: 0 <= i < |logs| ==> (Rendered(logs)[i].Err? <==> !HasAllKeys(logs[i]))
    ensures forall i :: 0 <= i < |logs| && Rendered(logs)[i].Err? ==>
      Rendered(logs)[i].error == ReadEntry(logs[i]).error
  {
  }

  /** The query is one terminated line per entry, in input order: split at newlines it gives back
      the entries' line bodies (LineBodiesAt says which) and one empty last piece, and it holds
      exactly one newline per entry. */
  lemma QueryLines(logs: seq<Entry>)
    requires QueryOf(logs).Ok?
    requires forall i :: 0 <= i < |logs| ==> ReadEntry(logs[i]).Ok? ==> FieldsNewlineFree(ReadEntry(logs[i]).value)
    ensures forall i :: 0 <= i < |logs| ==> ReadEntry(logs[i]).Ok?
    ensures Split(QueryOf(logs).value) == LineBodies(logs) + [""]
    ensures multiset(QueryOf(logs).value)[Newline] == |logs|
  {
    QueryOkReadsAll(logs);
    QueryIsBodies(logs);
    BodiesNewlineFree(logs);
    LinesSplit(LineBodies(logs));
  }

  /** A query of complete entries is the text of their line bodies, each followed by a newline,
      in input order, whatever the fields hold. */
  lemma QueryIsBodies(logs: seq<Entry>)
    requires forall i :: 0 <= i < |logs| ==> ReadEntry(logs[i]).Ok?
    ensures QueryOf(logs) == Ok(Lines(LineBodies(logs)))
  {
    RenderedLines(logs);
    AppendLines(Rendered(logs), LineBodies(logs));
  }

  /** A successful query read every entry completely. */
  lemma QueryOkReadsAll(logs: seq<Entry>)
    requires QueryOf(logs).Ok?
    ensures forall i :: 0 <= i < |logs| ==> ReadEntry(logs[i]).Ok?
  {
    var rs := Rendered(logs);
    AppendFailure(rs);
    forall i | 0 <= i < |logs| ensures ReadEntry(logs[i]).Ok? {
      assert rs[i].Ok?;
    }
  }

  /** The line bodies of entries that all have every key. */
  function LineBodies(logs: seq<Entry>): (bodies: seq<string>)
    requires forall i :: 0 <= i < |logs| ==> ReadEntry(logs[i]).Ok?
    ensures |bodies| == |logs|
  {
    seq(|logs|, i requires 0 <= i < |logs| => LineBody(ReadEntry(logs[i]).value))
  }

  /** The `i`-th line body is the line of the `i`-th entry. */
  lemma LineBodiesAt(logs: seq<Entry>, i: nat)
    requires forall i :: 0 <= i < |logs| ==> ReadEntry(logs[i]).Ok?
    requires i < |logs|
    ensures LineBodies(logs)[i] == LineBody(ReadEntry(logs[i]).value)
  {
  }

  /** Complete entries render to their terminated line bodies. */
  lemma RenderedLines(logs: seq<Entry>)
    requires forall i :: 0 <= i < |logs| ==> ReadEntry(logs[i]).Ok?
    ensures forall i :: 0 <= i < |logs| ==> Rendered(logs)[i] == Ok(LineBodies(logs)[i] + [Newline])
  {
  }

  /** Entries whose fields hold no newline have newline-free line bodies. */
  lemma BodiesNewlineFree(logs: seq<Entry>)
    requires forall i :: 0 <= i < |logs| ==> ReadEntry(logs[i]).Ok?
    requires forall i :: 0 <= i < |logs| ==> FieldsNewlineFree(ReadEntry(logs[i]).value)
    ensures forall i :: 0 <= i < |logs| ==> NewlineFree(LineBodies(logs)[i])
  {
    forall i | 0 <= i < |logs|
      ensures NewlineFree(LineBodies(logs)[i])
    {
      BodyNewlineFree(ReadEntry(logs[i]).value);
    }
  }

  /** The text of newline-free bodies, each terminated, splits back into them and one empty piece. */
  lemma LinesSplit(bodies: seq<string>)
    requires forall i :: 0 <= i < |bodies| ==> NewlineFree(bodies[i])
    ensures Split(Lines(bodies)) == bodies + [""]
    ensures multiset(Lines(bodies))[Newline] == |bodies|
  {
    SplitLines(bodies, "");
    assert Lines(bodies) + "" == Lines(bodies);
    SplitPieces(Lines(bodies));
  }

  /** A line body has no newline when the record's fields have none: the labels have none. */
  lemma BodyNewlineFree(r: LogRecord)
    requires FieldsNewlineFree(r)
    ensures NewlineFree(LineBody(r))
  {
    LabelsSpelled();
    assert forall k :: 0 <= k < |Labels| ==> NewlineFree(Labels[k]);
    WeaveNewlineFree(Labels, Fields(r));
  }

  lemma {:induction false} WeaveNewlineFree(labels: seq<string>, values: seq<string>)
    requires |labels| == |values|
    requires forall k :: 0 <= k < |labels| ==> NewlineFree(labels[k]) && NewlineFree(values[k])
    ensures NewlineFree(Weave(labels, values))
    decreases |labels|
  {
    if labels != [] {
      WeaveNewlineFree(labels[1..], values[1..]);
    }
  }
}
