/** The `/ask` request handler (app.py:1-61): validate the logs, build the query, load the index and
    the chunks on first use, retrieve the context, and ask the generator for a recommendation. */
module Handler {
  import opened Wrappers
  import opened Errors
  import opened Text
  import opened Query
  import opened Retrieval
  import opened Prompt

  /** A FAISS index that has been read from disk; the model never looks inside it. */
  datatype IndexHandle = IndexHandle(id: nat)

  /** What `generate_content` does: returns a response with text, or raises with a message. */
  datatype GenOutcome = Generated(text: string) | GenerationFailed(message: string)

  /** The answers of the outside world during one request: reading `faiss.index` and
      `chunks.json` (None when the read raises), embedding plus nearest-neighbour search for a
      query with a given `k` (None when either raises), and the generator, which is handed the
      text of a filled-in template (`Prompt.TextOf`, which determines it). */
  datatype Env = Env(
    readIndex: Option<IndexHandle>,
    readChunks: Option<seq<string>>,
    search: (IndexHandle, string, nat) -> Option<seq<int>>,
    generate: Filled -> GenOutcome)

  /** A POST to `/ask`: the `logs` member of the JSON body, if present, and the world it meets. */
  datatype Request = Request(logs: Option<seq<Entry>>, env: Env)

  /** The handler's module-level globals. */
  datatype State = State(index: Option<IndexHandle>, chunks: Option<seq<string>>)

  /** What the handler asks of the outside world, in order. */
  datatype Effect =
    | ReadIndex(ok: bool)
    | ReadChunks(ok: bool)
    | Search(query: string, k: nat)
    | Generate(prompt: Filled)

  /** A JSON answer, or an exception escaping the handler. */
  datatype Outcome = Replied(reply: Reply) | Raised(error: Exception)

  /** The globals after a request, what the request produced, and what it did on the way. */
  datatype Step = Step(state: State, outcome: Outcome, effects: seq<Effect>)

  /** `data.get("logs", [])`: an absent member reads as the empty list. */
  function LogsOf(req: Request): seq<Entry> {
    if req.logs.Some? then req.logs.value else []
  }

  /** The answer to a request without logs. */
  const NoLogsReply: Reply := Reply(400, ErrorPrefix + "žádné logy nepřišly.")

  /** What an error answer starts with. */
  const ErrorPrefix: string := "Chyba: "

  /** The answer built from the generator: its text, or the exception's message after the error
      prefix, both with the default status 200. */
  function Recommend(g: GenOutcome): (r: Reply)
    ensures r.status == 200
    ensures g.Generated? ==> r.recommendation == g.text
    ensures g.GenerationFailed? ==>
      (ErrorPrefix <= r.recommendation && r.recommendation[|ErrorPrefix|..] == g.message)
  {
    match g
    case Generated(text) => Reply(200, text)
    case GenerationFailed(message) => Reply(200, ErrorPrefix + message)
  }

  /** The lazy load: nothing when the index is already there; otherwise read the index, store it,
      then read the chunks. A failed chunks read leaves the index stored and the chunks unset. */
  function Load(s: State, env: Env): (r: (State, Option<Exception>, seq<Effect>))
    ensures s.index.Some? ==> r == (s, None, [])
    ensures r.1.None? ==> r.0.index.Some?
    ensures r.1.None? && s.index.None? ==> r.0.chunks.Some?
    ensures s.index.None? && env.readIndex.Some? ==> r.0.index == env.readIndex
    ensures s.index.None? && env.readIndex.None? ==> r == (s, Some(IndexFileError), [ReadIndex(false)])
    ensures s.index.None? && env.readIndex.Some? ==>
      r.0.chunks == (if env.readChunks.Some? then env.readChunks else s.chunks) &&
      r.1 == (if env.readChunks.Some? then None else Some(ChunksFileError))
  {
    if s.index.Some? then (s, None, [])
    else
      match env.readIndex
      case None => (s, Some(IndexFileError), [ReadIndex(false)])
      case Some(h) =>
        match env.readChunks
        case None => (State(Some(h), s.chunks), Some(ChunksFileError), [ReadIndex(true), ReadChunks(false)])
        case Some(cs) => (State(Some(h), Some(cs)), None, [ReadIndex(true), ReadChunks(true)])
  }

  /** Everything after the load: search, gather the context, prompt the generator. */
  function Answer(s: State, q: string, env: Env): (Outcome, seq<Effect>)
    requires s.index.Some?
  {
    match env.search(s.index.value, q, K)
    case None => (Raised(SearchError), [Search(q, K)])
    case Some(ids) =>
      match ContextOf(s.chunks, ids)
      case Err(x) => (Raised(x), [Search(q, K)])
      case Ok(context) =>
        var prompt := Filled(context);
        (Replied(Recommend(env.generate(prompt))), [Search(q, K), Generate(prompt)])
  }

  /** One request, from the globals before it. */
  function Handle(s: State, req: Request): Step {
    var logs := LogsOf(req);
    if logs == [] then Step(s, Replied(NoLogsReply), [])
    else
      match QueryOf(logs)
      case Err(x) => Step(s, Raised(x), [])
      case Ok(q) =>
        var (s', failure, loading) := Load(s, req.env);
        if failure.Some? then Step(s', Raised(failure.value), loading)
        else
          var (outcome, rest) := Answer(s', q, req.env);
          Step(s', outcome, loading + rest)
  }

  /** A sequence of requests served one after another by the same process. */
  datatype Session = Session(state: State, outcomes: seq<Outcome>, effects: seq<Effect>)

  function Run(s: State, reqs: seq<Request>): (r: Session)
    ensures |r.outcomes| == |reqs|
    ensures reqs != [] ==> r.outcomes[0] == Handle(s, reqs[0]).outcome
    decreases |reqs|
  {
    if reqs == [] then Session(s, [], [])
    else
      var first := Handle(s, reqs[0]);
      var rest := Run(first.state, reqs[1..]);
      Session(rest.state, [first.outcome] + rest.outcomes, first.effects + rest.effects)
  }

  /** Serving two batches one after the other leaves the globals that serving them as one
      session leaves. */
  lemma {:induction false} RunConcatState(s: State, a: seq<Request>, b: seq<Request>)
    ensures Run(s, a + b).state == Run(Run(s, a).state, b).state
    decreases |a|
  {
    if a == [] {
      assert a + b == b;
    } else {
      assert (a + b)[0] == a[0] && (a + b)[1..] == a[1..] + b;
      RunFirst(s, a);
      RunFirst(s, a + b);
      RunConcatState(Handle(s, a[0]).state, a[1..], b);
    }
  }

  /** ... and gives the outcomes of the two batches, in order. */
  lemma {:induction false} RunConcatOutcomes(s: State, a: seq<Request>, b: seq<Request>)
    ensures Run(s, a + b).outcomes == Run(s, a).outcomes + Run(Run(s, a).state, b).outcomes
    decreases |a|
  {
    if a == [] {
      assert a + b == b;
    } else {
      var first := Handle(s, a[0]);
      assert (a + b)[0] == a[0] && (a + b)[1..] == a[1..] + b;
      RunFirst(s, a);
      RunFirst(s, a + b);
      RunConcatOutcomes(first.state, a[1..], b);
      var rest := Run(first.state, a[1..]);
      ConsAppend(first.outcome, rest.outcomes, Run(rest.state, b).outcomes);
    }
  }

  /** A non-empty session is its first request followed by the session of the rest. */
  lemma RunFirst(s: State, reqs: seq<Request>)
    requires reqs != []
    ensures Run(s, reqs) == Session(Run(Handle(s, reqs[0]).state, reqs[1..]).state,
      [Handle(s, reqs[0]).outcome] + Run(Handle(s, reqs[0]).state, reqs[1..]).outcomes,
      Handle(s, reqs[0]).effects + Run(Handle(s, reqs[0]).state, reqs[1..]).effects)
  {
  }

  /** How many times the index was read successfully. */
  function IndexLoads(effects: seq<Effect>): nat
    decreases |effects|
  {
    if effects == [] then 0
    else (if effects[0] == ReadIndex(true) then 1 else 0) + IndexLoads(effects[1..])
  }

  /** The handler as the process runs it: the globals are fields updated in place. */
  class AskHandler {
    var index: Option<IndexHandle>
    var chunks: Option<seq<string>>
    /** Successful index reads so far. */
    ghost var loads: nat

    ghost predicate Valid()
      reads this
    {
      loads <= 1 && (index.None? <==> loads == 0)
    }

    function Globals(): State
      reads this
    {
      State(index, chunks)
    }

    /** The globals before the first request: nothing loaded. */
    constructor ()
      ensures Valid() && index.None? && chunks.None? && loads == 0
    {
      index, chunks := None, None;
      loads := 0;
    }

    /** Serves one request; the globals and the answer are those of `Handle`. */
    method Ask(req: Request) returns (outcome: Outcome, effects: seq<Effect>)
      requires Valid()
      modifies this
      ensures Valid()
      ensures Step(Globals(), outcome, effects) == Handle(old(Globals()), req)
      ensures loads == old(loads) + IndexLoads(effects)
    {
      ghost var before := Globals();
      var logs := LogsOf(req);
      if logs == [] {
        return Replied(NoLogsReply), [];
      }
      var built := BuildQuery(logs);
      if built.Err? {
        return Raised(built.error), [];
      }
      var query := built.value;
      var failure, loading := LoadOnce(req.env);
      if failure.Some? {
        HandleLoadFails(before, req, query);
        return Raised(failure.value), loading;
      }
      HandleAfterLoad(before, req, query);
      var rest;
      outcome, rest := Respond(query, req.env);
      LoadsAppend(loading, rest);
      effects := loading + rest;
    }

    /** The lazy load on the fields: the index is stored as soon as it is read, before the chunks
        are read. */
    method LoadOnce(env: Env) returns (failure: Option<Exception>, effects: seq<Effect>)
      requires Valid()
      modifies this
      ensures Valid()
      ensures (Globals(), failure, effects) == Load(old(Globals()), env)
      ensures loads == old(loads) + IndexLoads(effects)
    {
      LoadCount(Globals(), env);
      if index.Some? {
        return None, [];
      }
      var read := env.readIndex;
      if read.None? {
        return Some(IndexFileError), [ReadIndex(false)];
      }
      index := read;
      loads := loads + 1;
      var json := env.readChunks;
      if json.None? {
        return Some(ChunksFileError), [ReadIndex(true), ReadChunks(false)];
      }
      chunks := json;
      return None, [ReadIndex(true), ReadChunks(true)];
    }

    /** Search, gather and generate from the loaded fields, which it leaves alone. */
    method Respond(q: string, env: Env) returns (outcome: Outcome, effects: seq<Effect>)
      requires index.Some?
      ensures (outcome, effects) == Answer(Globals(), q, env)
      ensures IndexLoads(effects) == 0 && ReadsNoFiles(effects)
    {
      AnswerCount(Globals(), q, env);
      var hits := env.search(index.value, q, K);
      if hits.None? {
        return Raised(SearchError), [Search(q, K)];
      }
      var context := ContextOf(chunks, hits.value);
      if context.Err? {
        return Raised(context.error), [Search(q, K)];
      }
      var prompt := Filled(context.value);
      outcome := Replied(Recommend(env.generate(prompt)));
      effects := [Search(q, K), Generate(prompt)];
    }
  }

  /** When the lazy load fails, the request raises its exception with the globals it left. */
  lemma HandleLoadFails(s: State, req: Request, q: string)
    requires LogsOf(req) != [] && QueryOf(LogsOf(req)) == Ok(q) && Load(s, req.env).1.Some?
    ensures Handle(s, req) == Step(Load(s, req.env).0, Raised(Load(s, req.env).1.value), Load(s, req.env).2)
  {
  }

  /** After a successful load, the request is answered from the loaded globals. */
  lemma HandleAfterLoad(s: State, req: Request, q: string)
    requires LogsOf(req) != [] && QueryOf(LogsOf(req)) == Ok(q) && Load(s, req.env).1.None?
    ensures Load(s, req.env).0.index.Some?
    ensures Handle(s, req) == Step(Load(s, req.env).0, Answer(Load(s, req.env).0, q, req.env).0,
      Load(s, req.env).2 + Answer(Load(s, req.env).0, q, req.env).1)
  {
  }

  /** The load reads the index successfully exactly when it was absent and the read works. */
  lemma LoadCount(s: State, env: Env)
    ensures IndexLoads(Load(s, env).2) == if s.index.None? && env.readIndex.Some? then 1 else 0
  {
  }

  /** Answering never reads the index. */
  lemma AnswerCount(s: State, q: string, env: Env)
    requires s.index.Some?
    ensures IndexLoads(Answer(s, q, env).1) == 0
    ensures ReadsNoFiles(Answer(s, q, env).1)
  {
    var effects := Answer(s, q, env).1;
    match env.search(s.index.value, q, K)
    case None =>
      assert effects == [Search(q, K)];
    case Some(ids) =>
      match ContextOf(s.chunks, ids)
      case Err(_) =>
        assert effects == [Search(q, K)];
      case Ok(context) =>
        assert effects == [Search(q, K), Generate(Filled(context))];
    NoIndexReads(effects);
  }

  /** Effects without an index read count no loads. */
  lemma {:induction false} NoIndexReads(effects: seq<Effect>)
    requires forall k :: 0 <= k < |effects| ==> !effects[k].ReadIndex?
    ensures IndexLoads(effects) == 0
    decreases |effects|
  {
    if effects != [] {
      NoIndexReads(effects[1..]);
    }
  }

  /** Successful index reads add up over concatenated effects. */
  lemma {:induction false} LoadsAppend(a: seq<Effect>, b: seq<Effect>)
    ensures IndexLoads(a + b) == IndexLoads(a) + IndexLoads(b)
    decreases |a|
  {
    if a != [] {
      assert (a + b)[0] == a[0] && (a + b)[1..] == a[1..] + b;
      LoadsAppend(a[1..], b);
    } else {
      assert a + b == b;
    }
  }

  /** A request whose logs are missing or empty is answered 400 before anything else happens. */
  lemma NoLogsAnswered(s: State, req: Request)
    requires LogsOf(req) == []
    ensures Handle(s, req).state == s && Handle(s, req).effects == []
    ensures Handle(s, req).outcome == Replied(NoLogsReply) && NoLogsReply.status == 400
  {
  }

  /** An entry lacking one of the ten keys makes the request raise a KeyError for the first missing
      key of the first such entry, before the index is touched. */
  lemma MalformedEntryRaisesFirst(s: State, req: Request, i: nat)
    requires i < |LogsOf(req)| && !HasAllKeys(LogsOf(req)[i])
    ensures Handle(s, req).state == s && Handle(s, req).effects == []
    ensures Handle(s, req).outcome.Raised?
    ensures exists n: nat, k: nat :: (n <= i && (forall j :: 0 <= j < n ==> HasAllKeys(LogsOf(req)[j])) &&
      FirstMissing(LogsOf(req)[n], k) && Handle(s, req).outcome.error == KeyError(RequiredKeys[k]))
  {
    var logs := LogsOf(req);
    QueryFailsIff(logs);
    QueryFirstError(logs);
    var n: nat, k: nat :| n < |logs| && (forall j :: 0 <= j < n ==> HasAllKeys(logs[j])) &&
      FirstMissing(logs[n], k) && QueryOf(logs).error == KeyError(RequiredKeys[k]);
    assert n <= i;
  }

  /** No effect in `effects` reads a file. */
  predicate ReadsNoFiles(effects: seq<Effect>) {
    forall k :: 0 <= k < |effects| ==> !effects[k].ReadIndex? && !effects[k].ReadChunks?
  }

  /** Once the index is loaded, nothing reads the files again and the globals stay as they are. */
  lemma LoadedStaysLoaded(s: State, req: Request)
    requires s.index.Some?
    ensures Handle(s, req).state == s
    ensures ReadsNoFiles(Handle(s, req).effects)
  {
    var logs := LogsOf(req);
    if logs != [] && QueryOf(logs).Ok? {
      var q := QueryOf(logs).value;
      HandleAfterLoad(s, req, q);
      var rest := Answer(s, q, req.env).1;
      assert Handle(s, req).effects == rest;
      AnswerShape(s, q, req.env);
      if Answer(s, q, req.env).0.Replied? {
        var p :| rest == [Search(q, K), Generate(p)];
      }
    }
  }

  /** What answering asks of the world: one search, then a generation exactly when it replies. */
  lemma AnswerShape(s: State, q: string, env: Env)
    requires s.index.Some?
    ensures Answer(s, q, env).0.Replied? ==>
      exists p :: Answer(s, q, env).1 == [Search(q, K), Generate(p)]
    ensures Answer(s, q, env).0.Raised? ==> Answer(s, q, env).1 == [Search(q, K)]
  {
  }

  /** A request reads the index successfully at most once, only when it was absent, and exactly
      when it leaves the index loaded. */
  lemma HandleLoads(s: State, req: Request)
    ensures IndexLoads(Handle(s, req).effects) <= 1
    ensures s.index.Some? ==> Handle(s, req).state.index.Some? && IndexLoads(Handle(s, req).effects) == 0
    ensures s.index.None? ==>
      (Handle(s, req).state.index.Some? <==> IndexLoads(Handle(s, req).effects) == 1)
  {
    var logs := LogsOf(req);
    if logs != [] && QueryOf(logs).Ok? {
      var q := QueryOf(logs).value;
      LoadCount(s, req.env);
      var loaded := Load(s, req.env);
      if loaded.1.Some? {
        HandleLoadFails(s, req, q);
      } else {
        HandleAfterLoad(s, req, q);
        AnswerCount(loaded.0, q, req.env);
        LoadsAppend(loaded.2, Answer(loaded.0, q, req.env).1);
      }
    }
  }

  /** Over any sequence of requests the index is read at most once, and never when it was
      already loaded at the start. */
  lemma {:induction false} AtMostOneIndexLoad(s: State, reqs: seq<Request>)
    ensures IndexLoads(Run(s, reqs).effects) <= if s.index.None? then 1 else 0
    ensures s.index.Some? ==> Run(s, reqs).state.index.Some?
    decreases |reqs|
  {
    if reqs != [] {
      var first := Handle(s, reqs[0]);
      HandleLoads(s, reqs[0]);
      AtMostOneIndexLoad(first.state, reqs[1..]);
      LoadsAppend(first.effects, Run(first.state, reqs[1..]).effects);
    }
  }

  /** When the chunks read failed after the index was stored, every later request that retrieves
      something raises: `None` cannot be subscripted, and the load is not retried. */
  lemma PartialLoadSticks(s: State, req: Request, ids: seq<int>)
    requires s.index.Some? && s.chunks.None?
    requires LogsOf(req) != [] && QueryOf(LogsOf(req)).Ok?
    requires req.env.search(s.index.value, QueryOf(LogsOf(req)).value, K) == Some(ids) && ids != []
    ensures Handle(s, req) == Step(s, Raised(NotSubscriptable), [Search(QueryOf(LogsOf(req)).value, K)])
  {
    HandleAfterLoad(s, req, QueryOf(LogsOf(req)).value);
  }

  /** The globals of a session that starts loaded never change. */
  lemma {:induction false} LoadedSessionKeepsGlobals(s: State, reqs: seq<Request>)
    requires s.index.Some?
    ensures Run(s, reqs).state == s
    ensures IndexLoads(Run(s, reqs).effects) == 0
    decreases |reqs|
  {
    if reqs != [] {
      LoadedStaysLoaded(s, reqs[0]);
      HandleLoads(s, reqs[0]);
      LoadedSessionKeepsGlobals(s, reqs[1..]);
      LoadsAppend(Handle(s, reqs[0]).effects, Run(s, reqs[1..]).effects);
    }
  }

  /** A request that gets through to the generator hands it the retrieved chunks joined by
      newlines, and answers with status 200. */
  lemma GeneratorSeesChunks(s: State, req: Request, cs: seq<string>, ids: seq<int>)
    requires s.index.Some? && s.chunks == Some(cs)
    requires LogsOf(req) != [] && QueryOf(LogsOf(req)).Ok?
    requires req.env.search(s.index.value, QueryOf(LogsOf(req)).value, K) == Some(ids)
    requires Lookup(cs, ids).Ok?
    ensures Handle(s, req).state == s
    ensures Handle(s, req).effects ==
      [Search(QueryOf(LogsOf(req)).value, K), Generate(Filled(Join(Lookup(cs, ids).value)))]
    ensures Handle(s, req).outcome == Replied(Recommend(req.env.generate(Filled(Join(Lookup(cs, ids).value)))))
    ensures Handle(s, req).outcome.reply.status == 200
  {
    HandleAfterLoad(s, req, QueryOf(LogsOf(req)).value);
  }

  /** A search id outside the Python bounds of the loaded chunk list makes the request raise
      IndexError after its one search, before the generator is called; the globals stay. */
  lemma BadIdRaises(s: State, req: Request, cs: seq<string>, ids: seq<int>, j: nat)
    requires s.index.Some? && s.chunks == Some(cs)
    requires LogsOf(req) != [] && QueryOf(LogsOf(req)).Ok?
    requires req.env.search(s.index.value, QueryOf(LogsOf(req)).value, K) == Some(ids)
    requires j < |ids| && !InRange(|cs|, ids[j])
    ensures Handle(s, req) == Step(s, Raised(IndexError), [Search(QueryOf(LogsOf(req)).value, K)])
  {
    HandleAfterLoad(s, req, QueryOf(LogsOf(req)).value);
  }

  /** A reply has status 400 exactly when the logs were missing or empty, and 200 otherwise. */
  lemma {:induction false} ReplyStatus(s: State, req: Request)
    requires Handle(s, req).outcome.Replied?
    ensures Handle(s, req).outcome.reply.status == 400 <==> LogsOf(req) == []
    ensures Handle(s, req).outcome.reply.status == 200 <==> LogsOf(req) != []
  {
    var logs := LogsOf(req);
    if logs != [] {
      var q := QueryOf(logs).value;
      var loaded := Load(s, req.env);
      HandleAfterLoad(s, req, q);
      var answered := Answer(loaded.0, q, req.env);
      assert answered.0.reply == Recommend(req.env.generate(answered.1[1].prompt));
    }
  }
}
