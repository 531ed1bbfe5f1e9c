# digga-vilda `/ask` handler, modelled in Dafny

The service recommends today's cross-country-ski training. A client POSTs the last few days of
training logs to `/ask`. The handler (`app.py`) then does the following, in order:

1. It rejects a request without logs with status 400.
2. It renders every log entry into one line of a text query.
3. While no index is loaded (the first request, and every request after a failed index read), it
   loads a FAISS index and then the list of text chunks the index was built from.
4. It searches the index for the 5 chunks nearest to the query.
5. It joins those chunks into a context and splices the context into a fixed coach-persona
   prompt.
6. It answers with whatever the language model writes, or with `Chyba: ` followed by the
   model's error message.

The model keeps that order. It is split into these modules:

- `Wrappers` and `Errors` (two files): `Option`/`Result`, the ten log keys, the Python
  exceptions the handler can raise, and the `(status, recommendation)` reply.
- `Text`: Python's `"\n".join` and `str.split("\n")`, and the round trips between them.
- `Query`: reading one entry and the line it renders to. `BuildQuery` is the accumulator loop,
  proved equal to the specification function `QueryOf`.
- `Retrieval`: Python list indexing, with negative ids wrapping. It also covers gathering the
  hit chunks and joining them.
- `Prompt`: the template, with the context spliced in after the `Kontext tréninků:` line.
- `Handler`: one request as a function `Handle` over the globals `index`/`chunks`, and
  sessions of requests (`Run`). The class `AskHandler` holds those globals as fields updated in
  place. Its method `Ask` is proved to do what `Handle` says. It also carries a ghost counter of
  index loads, with the invariant that the count never exceeds one.

The outside world of a request is a parameter `Env`. It gives the result of reading
`faiss.index` and `chunks.json`, the embedding-plus-search function and the generator. An
exception that escapes the handler is the outcome `Raised(e)`.

Facts about the code that the model keeps:
- The query line labels the note `poznámka:`.
- An entry has ten keys: date, activity, duration, distance_km, i1 to i5 and note.
- A generator failure answers `Chyba: ` followed by the exception's own message, with status 200.
- A search id `i` selects `chunks[i]` with Python list indexing. A negative id with
  `-len(chunks) <= i < 0` selects a chunk counted from the end. Any id below `-len(chunks)` or
  at least `len(chunks)` raises IndexError.

## Model

| member | source | states |
|---|---|---|
| Handler.AskHandler.Ask | app.py:1-61 | Serving a request updates the `index`/`chunks` fields and answers exactly as `Handle` says for the old fields. The load counter grows by the number of successful index reads, and stays at most one. |
| Handler.AskHandler.LoadOnce | app.py:15-19 | The lazy load on the fields agrees with `Load`. Nothing happens when the index is present. A stored index is kept even when reading the chunks then fails. |
| Handler.AskHandler.Respond | app.py:21-61 | Search, gather and generate leave the fields alone and agree with `Answer`. They read neither file. |
| Handler.AskHandler.constructor | app.py:3 | A fresh process has neither an index nor chunks, and has loaded nothing. |
| Handler.Recommend | app.py:57-61 | The reply status is always 200. A generated text is the recommendation as is. A failure gives `Chyba: ` followed by the failure message. |
| Handler.Load | app.py:15-19 | With the index present: no effect and no change. A failed index read raises with nothing stored. A successful index read stores that index. The chunks then become the chunks read; if that read fails, it raises ChunksFileError and leaves the chunks as they were. |
| Handler.Run | app.py:1-61 | A session answers each request exactly once. The first outcome is that of the first request on the starting globals. |
| Handler.RunFirst | app.py:1-61 | A non-empty session is its first request, followed by the session of the rest on the globals the first request left. |
| Handler.RunConcatState | app.py:3 | Serving two batches one after the other leaves the same globals as serving them as one session. |
| Handler.RunConcatOutcomes | app.py:3 | Serving two batches as one session gives the outcomes of the first batch, then those of the second batch on the globals the first left. |
| Handler.NoLogsAnswered | app.py:6-9 | Missing or empty logs give the 400 reply, with no effect at all and the globals unchanged. |
| Handler.MalformedEntryRaisesFirst | app.py:12-15 | If some entry lacks a key, the request raises a KeyError before any load, search or generation, with the globals unchanged. The key is the first missing key of the first incomplete entry. |
| Handler.LoadedStaysLoaded | app.py:15 | Once the index is loaded, a request reads neither file again and leaves the globals as they are. |
| Handler.AnswerShape | app.py:21-61 | After loading, a request searches once. It calls the generator exactly when it replies. |
| Handler.HandleLoads | app.py:15-19 | A request reads the index at most once, and never when it was already loaded. Starting unloaded, it leaves the index loaded exactly when it read it. |
| Handler.AtMostOneIndexLoad | app.py:15-19 | Over any sequence of requests, the index is read successfully at most once, and not at all when it was loaded at the start. A loaded index stays loaded. |
| Handler.LoadedSessionKeepsGlobals | app.py:15-19 | A session that starts loaded never changes the globals and never reads the index. |
| Handler.PartialLoadSticks | app.py:15-23 | Suppose the index was stored but the chunks read failed. Then every later request whose search returns ids raises at once, because `None` cannot be subscripted, and nothing is reloaded. |
| Handler.GeneratorSeesChunks | app.py:21-59 | When retrieval succeeds, the generator receives the hit chunks joined by newlines, after exactly one search. The reply is the generated text, or `Chyba: ` followed by the failure message, with status 200. |
| Handler.BadIdRaises | app.py:22-23 | If the loaded chunks are a list and some search id lies outside `[-len, len)`, the request raises IndexError after its one search. The generator is not called and the globals stay. |
| Handler.ReplyStatus | app.py:8-9 | A reply has status 400 exactly when the logs were missing or empty, and 200 otherwise. |
| Handler.LoadCount | app.py:15-17 | The load reads the index successfully exactly when the index was absent and the read works. |
| Handler.AnswerCount | app.py:21-61 | Answering reads neither the index file nor the chunks file, and so adds no index loads. |
| Handler.LoadsAppend | app.py:15-19 | Successful index reads add up over consecutive effects. |
| Handler.HandleLoadFails | app.py:15-19 | A failed load ends the request with its exception, keeping the globals the load left. |
| Handler.HandleAfterLoad | app.py:15-24 | After a successful load, the request is answered from the loaded globals. |
| Query.ReadEntry | app.py:13 | Reading an entry succeeds exactly when it has all ten keys. On success, the record's k-th field is the entry's value for the k-th key. |
| Query.FindMissing | app.py:13 | Finds the first key, in the order the line reads them, that an entry lacks. |
| Query.ReadEntryError | app.py:13 | A failed read raises KeyError for the first missing key. |
| Query.EntryError | app.py:13 | The error of an incomplete entry names its first missing key. |
| Query.LineShape | app.py:13 | The line body is `date: activity durationmin distance_kmkm i1:… i5:… poznámka: note`, with every field verbatim. |
| Query.LabelsSpelled | app.py:13 | The ten fixed labels of the line, in order. |
| Query.BuildQuery | app.py:11-13 | The `+=` loop builds `QueryOf(logs)`. It stops with the first entry's KeyError. |
| Query.AppendStep | app.py:12-13 | One loop step: a failing line stops the accumulator, otherwise its text is appended. |
| Query.AppendStopsAtError | app.py:12-13 | After a failure, later lines change nothing. |
| Query.FirstError | app.py:12-13 | Gives the position of the first failing line. Every line before it succeeds. |
| Query.AppendFailure | app.py:12-13 | The loop fails exactly when some line fails, and then with the first failing line's error. |
| Query.QueryFailsIff | app.py:11-13 | Building the query fails if and only if some entry lacks a key. |
| Query.QueryFirstError | app.py:11-13 | A failed query raises the KeyError of the first missing key of the first incomplete entry. Every earlier entry is complete. |
| Query.FirstErrorOf | app.py:11-13 | The same, for any line results that fail exactly where reading the entry does. |
| Query.RenderedErrors | app.py:13 | An entry's line fails exactly when the entry lacks a key, with the entry's own KeyError. |
| Query.QueryLines | app.py:11-13 | With newline-free fields, the query splits into the entries' line bodies, in input order, plus one empty last piece. It holds exactly `len(logs)` newlines. |
| Query.QueryIsBodies | app.py:11-13 | The query of complete entries is their line bodies in input order, each ending in a newline, whatever the fields hold. |
| Query.QueryOkReadsAll | app.py:11-13 | A successful query read every entry completely. |
| Query.LineBodies | app.py:11-13 | There is one line body per entry. |
| Query.LineBodiesAt | app.py:13 | The i-th line body is the line of the i-th entry. |
| Query.RenderedLines | app.py:13 | A complete entry renders to its line body followed by one newline. |
| Query.BodiesNewlineFree | app.py:13 | Entries whose fields hold no newline have newline-free line bodies. |
| Query.LinesSplit | app.py:11-13 | Terminated newline-free lines split back into themselves. Their text holds one newline per line. |
| Query.BodyNewlineFree | app.py:13 | A line body has no newline when the fields have none. |
| Query.WeaveNewlineFree | app.py:13 | Interleaving newline-free labels and values gives a newline-free text. |
| Query.WeaveTen | app.py:13 | Ten labels interleaved with ten values, spelled out. |
| Query.LabelsFrom | app.py:13 | There are ten labels, one per key. |
| Query.Fields | app.py:13 | There is one field per label. |
| Query.Rendered | app.py:12-13 | There is one rendered line per entry. |
| Retrieval.Slot | app.py:23 | A Python index in range denotes a valid position. A negative index counts back from the end. |
| Retrieval.PyIndex | app.py:23 | `chunks[i]` succeeds exactly when `-len <= i < len`, and then gives the chunk at the position `i` denotes (counted from the end when negative). Otherwise it raises IndexError. |
| Retrieval.Lookup | app.py:23 | The comprehension succeeds exactly when every id is in range, and otherwise raises IndexError. On success it yields one chunk per id, in id order, without dedup. |
| Retrieval.Gather | app.py:23 | No ids give no chunks, even without loaded chunks. With ids and unloaded chunks, the request raises because `None` is not subscriptable. With ids and a loaded list, it is the comprehension `Lookup` over that list. |
| Retrieval.MissingHitIsLastChunk | app.py:22-23 | A padding id of -1 silently selects the last chunk. |
| Retrieval.NegativeIdWraps | app.py:23 | `chunks[-j]` is `chunks[len - j]`. |
| Retrieval.RepeatedIdRepeatsChunk | app.py:23 | The same id twice gives the same chunk twice. |
| Retrieval.ContextLines | app.py:23-24 | With newline-free chunks, the context splits back into exactly the selected chunks, one per id, in order. |
| Prompt.Unfill | app.py:26-55 | A context read back is as long as the prompt minus the template around it. |
| Prompt.UnfillFill | app.py:26-55 | Splicing a context after any prefix is undone by reading it back. |
| Prompt.FillUnfill | app.py:26-55 | Reading back succeeds only on a spliced text, and then gives exactly that text back when spliced again. |
| Prompt.ContextRoundTrip | app.py:53-55 | The context is in the system prompt verbatim and is read back exactly. |
| Prompt.TextDeterminesPrompt | app.py:26-58 | Different contexts give different prompt texts. |
| Prompt.FilledLines | app.py:26-55 | For any persona text, a filled template splits into these lines: an empty line, the persona, an empty line, the heading, the context's own lines, and a final empty piece. |
| Prompt.PromptLines | app.py:26-55 | The system prompt's lines: the context starts on the line right after `Kontext tréninků:` and runs, unchanged, up to the final newline. |
| Prompt.TailLines | app.py:52-55 | The end of the template splits into an empty line, the heading, then the context's lines. |
| Prompt.Regroup | app.py:26-55 | The template's text regrouped newline by newline. |
| Text.FindNewline | app.py:24 | Gives the first newline's position, or the length. Everything before it is newline-free. |
| Text.Split | app.py:24 | `str.split("\n")` never yields an empty list. |
| Text.SplitJoin | app.py:24 | Joining the pieces of a split gives the string back. |
| Text.JoinSplit | app.py:24 | A non-empty list of newline-free parts survives join then split. |
| Text.SplitPieces | app.py:24 | Every piece is newline-free, and there is one more piece than newlines. |
| Text.SplitAtNewline | app.py:24 | Splitting at a newline splits each side separately. |
| Text.SplitLines | app.py:11-13 | Terminated newline-free lines split back into themselves, followed by what comes after. |
| Text.LinesSnoc | app.py:12-13 | Appending one more terminated line to the text of some lines. |
| Text.LinesCons | app.py:12-13 | The text of some lines, followed by more text, starts with the first line. |
| Text.SplitFirst | app.py:24 | Where there is a newline, the first piece is what precedes it. |
| Text.SplitAfterNewline | app.py:24 | A newline-free prefix followed by a newline is exactly the first piece. |
| Text.NewlineFreeSplit | app.py:24 | A newline-free string is a single piece. |
| Text.JoinCons | app.py:24 | Joining a part in front of more parts puts one newline between them. |
| Text.AroundNewline | app.py:24 | A string is what precedes a newline in it, the newline, and what follows. |
| Handler.NoIndexReads | app.py:21-61 | Effects without an index read count no loads. |

## Left out

- Flask routing, `request.get_json` and `jsonify`. A request is the optional `logs` member and
  the `Env` it meets; a reply is a `(status, recommendation)` pair. A body that is not a JSON
  object, or whose `logs` is not a list of objects, is not modelled.
- An exception that escapes the handler is the outcome `Raised(e)`. The HTTP 500 page Flask
  would render for it is not modelled.
- `faiss.read_index`, `open`/`json.load` of `chunks.json`, `get_embedding`, `index.search` and
  `generate_content` are foreign code or I/O. They become the fields of `Env`: an optional index
  handle, optional chunks (None when the read raises), a search function from index, query and
  `k` to an optional id row, and a generator outcome. The contents of `chunks.json` are assumed
  to be a list of strings.
- The embedding vectors, distances and how FAISS ranks or pads results are not modelled. The
  search is an arbitrary function, so every property holds whatever ids it returns.
- The generator is handed the filled template as a value (`Filled`), not as its text.
  `Prompt.TextDeterminesPrompt` shows the two carry the same information.
- Python's `str()` formatting of non-string JSON values inside the f-string is left out. Entry
  values are taken as already-rendered strings, and keys other than the ten are ignored.
- The race between concurrent first requests on the globals is left out. Requests are served
  one after another.
- The module-level start values of `index` and `chunks` are not part of this model. A fresh
  process is taken to have both unset (None).
- The chunks are `Option<seq<string>>` rather than a plain list. The handler stores the index
  before it reads `chunks.json`, so a failed chunks read leaves the chunks unset while the index
  is set (`Handler.PartialLoadSticks`).
- Prompt.PromptLines: the persona's lines are given as `Split(Join(PersonaLines))` and are not
  proved to be the 25 template lines one for one. The context part of the statement is exact.
