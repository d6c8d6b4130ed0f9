/** `run_rag_chat`: the chat generator's event protocol. Every call to the
  * outside (the database client, ingestion, readiness polling, embedding,
  * vector search, the language model, id minting) is an input: a `World`
  * holds what each call answers. The generator's output is the sequence of
  * `sse(...)` calls it makes (`Event`s, each turned into the arguments of
  * its call by `Payload`) and the sequence of message writes it attempts
  * (`Write`s). */
module RagChat {
  import opened Wrappers
  import opened Text
  import opened Sse
  import opened Context
  import ChatRouter
  import opened Utf8

  datatype ChatRole = User | Assistant | System

  datatype ChatMessage = ChatMessage(role: ChatRole, content: string)

  datatype ChatRequest = ChatRequest(threadId: string, messages: seq<ChatMessage>, attachmentIds: Option<seq<string>>)

  /** The position of the last user message, if there is one. */
  function LastUserAt(msgs: seq<ChatMessage>): (r: Option<nat>)
    ensures r.None? <==> forall i :: 0 <= i < |msgs| ==> msgs[i].role != User
    ensures r.Some? ==> r.value < |msgs| && msgs[r.value].role == User
    ensures r.Some? ==> forall j :: r.value < j < |msgs| ==> msgs[j].role != User
  {
    if msgs == [] then None
    else
      var n := |msgs| - 1;
      if msgs[n].role == User then Some(n)
      else
        var r := LastUserAt(msgs[..n]);
        assert forall j :: 0 <= j < n ==> msgs[..n][j] == msgs[j];
        r
  }

  /** The content of the last user message, if there is one. */
  function LastUser(msgs: seq<ChatMessage>): (r: Option<string>)
    ensures r.None? <==> forall i :: 0 <= i < |msgs| ==> msgs[i].role != User
    ensures r.Some? ==> LastUserAt(msgs).Some? && r.value == msgs[LastUserAt(msgs).value].content
  {
    match LastUserAt(msgs)
    case None => None
    case Some(i) => Some(msgs[i].content)
  }

  datatype WriteMode = DraftMode | MidMode | FinalMode

  /** A message write the generator attempts: an upsert of the assistant
    * message under an id (with the token count at that moment), or a post
    * of a new assistant message. Every write goes to the request's thread
    * with role "assistant". */
  datatype Write = Upsert(mode: WriteMode, id: string, content: string, atToken: nat) | Post(content: string)

  datatype ThreadLookup = ThreadRow(projectId: Json) | NoThread | LookupFailed(e: Exc)
  datatype Ingested = Inserted(count: nat) | IngestFailed(e: Exc)
  /** The readiness poll, abstracted: the document counts each round saw,
    * then a ready document, the deadline, or an exception. */
  datatype PollEnd = Ready | TimedOut | PollThrew(e: Exc)
  datatype Poll = Poll(docCounts: seq<nat>, end: PollEnd)
  datatype DocsLookup = DocsListed(ids: seq<string>) | DocsFailed(e: Exc)
  datatype Search = Hits(hits: Option<seq<Hit>>) | SearchFailed(e: Exc)
  /** The final insert's reply: the id of the first returned row (`JNull`
    * when none came back), or an exception. */
  datatype Created = CreatedRow(id: Json) | CreateFailed(e: Exc)

  /** What each outside call answers. `draftIds(k)`, `draftResult(k)` and
    * `midResult(k)` belong to the k-th token. */
  datatype World = World(
    clientInit: Option<Exc>, thread: ThreadLookup, ingest: seq<Ingested>, poll: Poll,
    docs: DocsLookup, embed: Option<Exc>, search: Search,
    deltas: seq<string>, streamError: Option<Exc>,
    draftIds: nat -> string, draftResult: nat -> Option<Exc>, midResult: nat -> Option<Exc>,
    fallbackResult: Option<Exc>, finalUpsert: Option<Exc>, finalPost: Created,
    debugTrace: bool, trace: string)

  // ---- The events -------------------------------------------------------

  /** One `sse(...)` call of the generator, by what it reports. */
  datatype Event =
    | Start                                   // {"type": "start"}
    | Debug(stage: string, kwargs: seq<Field>) // sse_debug(stage, **kwargs)
    | Error(e: Exc, where: string)            // sse(sse_error_payload(e, where))
    | Chunk(delta: string)                    // {"type": "chunk", "delta": delta}
    | Saved(mode: string, id: Option<Json>)   // {"type": "saved", "who": "assistant", "mode": mode[, "id": id]}
    | NoTokens                                // the error frame of a run without tokens
    | IngestTimeout(ids: seq<string>)         // the error frame of the readiness deadline
    | End                                     // {"type": "end"}
    | DoneSignal                              // sse("done", event="done")

  /** The arguments of an `sse` call: the payload and the event name. */
  datatype Frame = Frame(data: Json, event: Option<string>)

  const IngestTimeoutMessage: string := "no ingested documents for given attachments"

  function Strings(xs: seq<string>): (r: Json)
    ensures r.JArr? && |r.items| == |xs|
  {
    JArr(seq(|xs|, i requires 0 <= i < |xs| => JStr(xs[i])))
  }

  function Typed(t: string, rest: seq<Field>): Json
  {
    JObj([Field("type", JStr(t))] + rest)
  }

  /** The payload each call passes to `sse`. Only `DoneSignal` passes a string
    * (and so, as `sse` is written, yields nothing). */
  function Payload(ev: Event, w: World): (f: Frame)
    ensures f.data.JStr? <==> ev.DoneSignal?
    ensures f.event.Some? <==> ev.DoneSignal?
  {
    match ev
    case Start => Frame(Typed("start", []), None)
    case Debug(stage, kwargs) => Frame(DebugPayload(stage, kwargs), None)
    case Error(e, where) => Frame(ErrorPayload(e, where, w.debugTrace, w.trace), None)
    case Chunk(delta) => Frame(Typed("chunk", [Field("delta", JStr(delta))]), None)
    case Saved(mode, id) =>
      Frame(Typed("saved", [Field("who", JStr("assistant")), Field("mode", JStr(mode))]
                           + (if id.Some? then [Field("id", id.value)] else [])), None)
    case NoTokens =>
      Frame(Typed("error", [Field("where", JStr("openai_stream")), Field("message", JStr("no_tokens_emitted"))]), None)
    case IngestTimeout(ids) =>
      Frame(Typed("error", [Field("where", JStr("ingest_wait")), Field("message", JStr(IngestTimeoutMessage)),
                            Field("attachmentIds", Strings(ids))]), None)
    case End => Frame(Typed("end", []), None)
    case DoneSignal => Frame(JStr("done"), Some("done"))
  }

  /** A payload a client reads as a token: type "chunk" with a string delta. */
  predicate IsChunkPayload(data: Json)
  {
    data.JObj? && Get(data.fields, "type") == Some(JStr("chunk"))
    && Get(data.fields, "delta").Some? && Get(data.fields, "delta").value.JStr?
  }

  /** `sse_debug` is never given a `type` keyword here. */
  predicate Plain(ev: Event)
  {
    ev.Debug? ==> forall k :: 0 <= k < |ev.kwargs| ==> ev.kwargs[k].key != "type"
  }

  /** The chunk events are exactly the calls whose payload a client reads
    * as a token, and the delta it reads is the event's. */
  lemma PayloadChunk(ev: Event, w: World)
    requires Plain(ev)
    ensures IsChunkPayload(Payload(ev, w).data) <==> ev.Chunk?
    ensures ev.Chunk? ==> Get(Payload(ev, w).data.fields, "delta") == Some(JStr(ev.delta))
  {
    var d := Payload(ev, w).data;
    match ev {
      case Debug(stage, kwargs) =>
        assert Get(d.fields, "type") == Some(JStr("debug"));
      case Error(e, where) =>
      case Chunk(delta) =>
        assert d.fields == [Field("type", JStr("chunk")), Field("delta", JStr(delta))];
        assert d.fields[1..] == [Field("delta", JStr(delta))];
        assert Get(d.fields, "type") == Some(JStr("chunk"));
        assert Get(d.fields[1..], "delta") == Some(JStr(delta));
        assert Get(d.fields, "delta") == Some(JStr(delta));
      case DoneSignal =>
      case _ =>
        assert Get(d.fields, "type") == Some(d.fields[0].value);
        assert d.fields[0].value != JStr("chunk");
    }
  }

  /** The deltas of the chunk events, in order. */
  function Chunks(events: seq<Event>): (r: seq<string>)
    ensures |r| <= |events|
  {
    if events == [] then []
    else (if events[0].Chunk? then [events[0].delta] else []) + Chunks(events[1..])
  }

  lemma {:induction false} ChunksConcat(a: seq<Event>, b: seq<Event>)
    ensures Chunks(a + b) == Chunks(a) + Chunks(b)
  {
    if a == [] {
      assert a + b == b;
    } else {
      assert (a + b)[0] == a[0];
      assert (a + b)[1..] == a[1..] + b;
      ChunksConcat(a[1..], b);
    }
  }

  predicate NoChunk(events: seq<Event>)
  {
    forall i :: 0 <= i < |events| ==> !events[i].Chunk?
  }

  lemma NoChunkConcat(a: seq<Event>, b: seq<Event>)
    requires NoChunk(a) && NoChunk(b)
    ensures NoChunk(a + b)
  {
    forall i | 0 <= i < |a + b|
      ensures !(a + b)[i].Chunk?
    {
      if i < |a| {
        assert (a + b)[i] == a[i];
      } else {
        assert (a + b)[i] == b[i - |a|];
      }
    }
  }

  lemma {:induction false} NoChunks(events: seq<Event>)
    requires NoChunk(events)
    ensures Chunks(events) == []
  {
    if events != [] {
      NoChunks(events[1..]);
    }
  }

  /** The three last calls of every run that is not cancelled. */
  const EndEvents: seq<Event> := [Debug("end", []), End, DoneSignal]

  /** The calls end with the debug `end`, `end` and `done`. */
  predicate Closed(events: seq<Event>)
  {
    |events| >= 3 && events[|events| - 3..] == EndEvents
  }

  /** The event of one attachment's ingestion. */
  function IngestEvent(id: string, o: Ingested): (ev: Event)
    ensures ev.Debug? <==> o.Inserted?
    ensures ev.Error? <==> o.IngestFailed?
  {
    match o
    case Inserted(n) => Debug("ingest_one", [Field("attachment_id", JStr(id)), Field("inserted", JInt(n))])
    case IngestFailed(e) => Error(e, "ingest_one")
  }

  // ---- Steps 0 to 5: before the language model ----------------------------

  /** The ids of the ready documents that are truthy. */
  function TruthyIds(ids: seq<string>): (r: seq<string>)
    ensures |r| <= |ids| && forall i :: 0 <= i < |r| ==> r[i] != ""
    ensures r == [] <==> forall i :: 0 <= i < |ids| ==> ids[i] == ""
  {
    if ids == [] then [] else (if ids[0] != "" then [ids[0]] else []) + TruthyIds(ids[1..])
  }

  /** The steps after ingestion succeed: with attachments a document
    * became ready and has a truthy id; embedding and search succeed. */
  predicate Retrieves(ids: seq<string>, w: World)
  {
    && (ids != [] ==> w.poll.end.Ready? && w.docs.DocsListed? && TruthyIds(w.docs.ids) != [])
    && w.embed.None? && w.search.Hits?
  }

  /** Every step before the language model succeeds: the client is made,
    * the thread is found, and the steps after ingestion succeed. */
  predicate Reaches(req: ChatRequest, w: World)
  {
    w.clientInit.None? && w.thread.ThreadRow? && Retrieves(req.attachmentIds.GetOr([]), w)
  }

  /** A step that ends the generator early reports it: its last call is an
    * error frame. */
  predicate EndsWithError(events: seq<Event>)
  {
    |events| >= 1 && (events[|events| - 1].Error? || events[|events| - 1].IngestTimeout?)
  }

  /** One event per attachment, in order, whatever became of the others:
    * an error exactly for the attachments whose ingestion failed. */
  function IngestEvents(ids: seq<string>, w: World): (r: seq<Event>)
    requires |w.ingest| == |ids|
    ensures |r| == |ids| && NoChunk(r)
    ensures forall k :: 0 <= k < |ids| ==> (r[k].Error? <==> w.ingest[k].IngestFailed?)
  {
    seq(|ids|, k requires 0 <= k < |ids| => IngestEvent(ids[k], w.ingest[k]))
  }

  /** Step 3: each attachment is ingested in turn; a failure is reported
    * and the next one is still ingested. */
  method IngestAll(ids: seq<string>, w: World) returns (events: seq<Event>)
    requires |w.ingest| == |ids|
    ensures events == IngestEvents(ids, w)
  {
    events := [];
    var k := 0;
    while k < |ids|
      invariant 0 <= k <= |ids|
      invariant |events| == k
      invariant forall j :: 0 <= j < k ==> events[j] == IngestEvent(ids[j], w.ingest[j])
    {
      events := events + [IngestEvent(ids[k], w.ingest[k])];
      k := k + 1;
    }
    assert events == IngestEvents(ids, w);
  }

  /** Step 3.1: the readiness poll, one report per round; a timeout is
    * reported as an error frame, an exception goes to the top-level
    * handler. */
  method AwaitReady(ids: seq<string>, w: World) returns (events: seq<Event>, ready: bool)
    ensures ready <==> w.poll.end.Ready?
    ensures !ready ==> EndsWithError(events)
    ensures NoChunk(events)
    ensures |events| >= |w.poll.docCounts|
  {
    events := [];
    var counts := w.poll.docCounts;
    var p := 0;
    while p < |counts|
      invariant 0 <= p <= |counts|
      invariant |events| == p && NoChunk(events)
    {
      events := events + [Debug("ingest_poll", [Field("docs", JInt(counts[p]))])];
      p := p + 1;
    }
    ready := w.poll.end.Ready?;
    match w.poll.end {
      case Ready =>
      case TimedOut =>
        events := events + [Debug("ingest_timeout", [Field("attachmentIds", Strings(ids))]), IngestTimeout(ids)];
      case PollThrew(e) =>
        events := events + [Error(e, "top_level")];
    }
  }

  /** Step 3.5: the ids of the attachments' ready documents; none is a
    * 400, reported as an error frame. */
  method ResolveDocIds(w: World) returns (events: seq<Event>, docIds: seq<string>, found: bool)
    ensures found <==> w.docs.DocsListed? && TruthyIds(w.docs.ids) != []
    ensures found ==> docIds == TruthyIds(w.docs.ids) && events == [Debug("doc_ids", [Field("doc_ids", Strings(docIds))])]
    ensures !found ==> EndsWithError(events)
    ensures NoChunk(events)
  {
    match w.docs {
      case DocsFailed(e) =>
        return [Error(e, "resolve_doc_ids")], [], false;
      case DocsListed(l) =>
        docIds := TruthyIds(l);
    }
    if docIds == [] {
      return [Debug("doc_ids", [Field("doc_ids", Strings([]))]),
              Error(HttpExc(400, JStr(IngestTimeoutMessage)), "resolve_doc_ids")], [], false;
    }
    return [Debug("doc_ids", [Field("doc_ids", Strings(docIds))])], docIds, true;
  }

  /** Steps 3.1 to 5 up to `llm_begin`: with attachments, the readiness
    * poll and the ready documents' ids; then embedding, vector search
    * (scoped to the thread and project when there are no document ids)
    * and the context. `go` is false when one of them returned early (or,
    * for the poll, raised into the top-level handler). */
  method Retrieve(ids: seq<string>, w: World) returns (events: seq<Event>, go: bool, context: string)
    ensures go <==> Retrieves(ids, w)
    ensures go ==> context == FormatHits(w.search.hits) && |events| >= 1 && events[|events| - 1] == Debug("llm_begin", [])
    ensures !go ==> EndsWithError(events)
    ensures NoChunk(events)
  {
    var docIds, ok;
    events, docIds, ok := AwaitDocs(ids, w);
    if !ok {
      return events, false, "";
    }
    var more;
    more, go, context := EmbedAndSearch(docIds, w);
    assert |more| >= 1 by { assert go || EndsWithError(more); }
    Extend(events, more);
    events := events + more;
  }

  /** Events appended to others: still no chunk, and the last event is
    * the appended one's last. */
  lemma Extend(a: seq<Event>, b: seq<Event>)
    requires NoChunk(a) && NoChunk(b) && |b| >= 1
    ensures NoChunk(a + b) && (a + b)[|a + b| - 1] == b[|b| - 1]
    ensures EndsWithError(b) ==> EndsWithError(a + b)
  {
    NoChunkConcat(a, b);
  }

  /** Steps 3.1 and 3.5, with attachments only: the readiness poll, then
    * the ready documents' truthy ids. */
  method AwaitDocs(ids: seq<string>, w: World) returns (events: seq<Event>, docIds: seq<string>, ok: bool)
    ensures ok <==> (ids != [] ==> w.poll.end.Ready? && w.docs.DocsListed? && TruthyIds(w.docs.ids) != [])
    ensures ok ==> docIds == (if ids == [] then [] else TruthyIds(w.docs.ids))
    ensures !ok ==> EndsWithError(events)
    ensures NoChunk(events)
  {
    if ids == [] {
      return [], [], true;
    }
    var ready;
    events, ready := AwaitReady(ids, w);
    if !ready {
      return events, [], false;
    }
    var resolved;
    resolved, docIds, ok := ResolveDocIds(w);
    NoChunkConcat(events, resolved);
    if !ok {
      assert (events + resolved)[|events + resolved| - 1] == resolved[|resolved| - 1];
    }
    events := events + resolved;
  }

  /** Steps 4 and 5 up to `llm_begin`: the query's embedding, the vector
    * search (scoped to `docIds` when there are some), the context built
    * from its hits. */
  method EmbedAndSearch(docIds: seq<string>, w: World) returns (events: seq<Event>, go: bool, context: string)
    ensures go <==> w.embed.None? && w.search.Hits?
    ensures go ==> context == FormatHits(w.search.hits) && |events| >= 1 && events[|events| - 1] == Debug("llm_begin", [])
    ensures !go ==> EndsWithError(events)
    ensures NoChunk(events)
  {
    context := "";
    go := false;
    // 4) embedding and vector search
    if w.embed.Some? {
      return [Error(w.embed.value, "embed_text")], false, "";
    }
    events := [Debug("embed_text_ok", [])];
    match w.search {
      case SearchFailed(e) =>
        events := events + [Error(e, "vector_search")];
        return;
      case Hits(hits) =>
        var n := |hits.GetOr([])|;
        context := FormatHits(hits);
        events := events + [Debug("vector_search", [Field("hits", JInt(n)), Field("scoped", JBool(docIds == []))]),
                            Debug("context_ready", [Field("context_chars", JInt(|context|))])];
    }
    // 5) the language model
    events := events + [Debug("llm_begin", [])];
    go := true;
  }

  /** Steps 0 and 1: the database client, then the thread's project; a
    * missing thread is a 404. */
  method Connect(w: World) returns (events: seq<Event>, ok: bool)
    ensures ok <==> w.clientInit.None? && w.thread.ThreadRow?
    ensures ok ==> |events| == 2
    ensures !ok ==> EndsWithError(events)
    ensures NoChunk(events)
    ensures |events| >= 1 && events[0] == Debug("client_init", [Field("ok", JBool(w.clientInit.None?))])
  {
    // 0) the database client
    if w.clientInit.Some? {
      return [Debug("client_init", [Field("ok", JBool(false))]), Error(w.clientInit.value, "client_init")], false;
    }
    events := [Debug("client_init", [Field("ok", JBool(true))])];
    // 1) the thread's project
    match w.thread {
      case LookupFailed(e) =>
        events := events + [Error(e, "resolve_thread_project")];
        ok := false;
      case NoThread =>
        events := events + [Error(HttpExc(404, JStr("thread not found")), "resolve_thread_project")];
        ok := false;
      case ThreadRow(pid) =>
        events := events + [Debug("resolve_thread_project", [Field("project_id", pid)])];
        ok := true;
    }
  }

  /** Steps 0 to 5 of the generator, up to `llm_begin`: `Connect`, the
    * ingestion of the attachments, then `Retrieve`. */
  method Prepare(req: ChatRequest, w: World) returns (events: seq<Event>, go: bool)
    requires |w.ingest| == |req.attachmentIds.GetOr([])|
    ensures go <==> Reaches(req, w)
    ensures go ==> |events| >= 1 && events[|events| - 1] == Debug("llm_begin", [])
    ensures !go ==> EndsWithError(events)
    ensures NoChunk(events)
    ensures |events| >= 1 && events[0] == Debug("client_init", [Field("ok", JBool(w.clientInit.None?))])
  {
    var head, ok := Connect(w);
    if !ok {
      return head, false;
    }
    var ids := req.attachmentIds.GetOr([]);
    var ingested := IngestAll(ids, w);
    var rest, context;
    rest, go, context := Retrieve(ids, w);
    events := head + ingested + rest;
    NoChunkConcat(head, ingested);
    NoChunkConcat(head + ingested, rest);
    assert |rest| >= 1 by { assert go || EndsWithError(rest); }
    assert events[|events| - 1] == rest[|rest| - 1];
    assert events[0] == head[0];
  }

  // ---- The token loop ---------------------------------------------------

  /** The generator's locals during the token loop: `assistant_parts`,
    * `assistant_msg_id` and `token_counter` (`got_token` is a positive
    * counter). */
  datatype LoopState = LoopState(parts: seq<string>, draftId: Option<string>, counter: nat)

  datatype LoopOut = LoopOut(state: LoopState, frames: seq<Event>, writes: seq<Write>)

  /** What a save inside the loop leaves: the draft id, the frames, the writes. */
  datatype Save = Save(id: Option<string>, frames: seq<Event>, writes: seq<Write>)

  /** The draft save at token `k` when there is no draft id yet: a minted
    * id, kept when the upsert succeeds and dropped when it fails. */
  function DraftSave(k: nat, text: string, w: World): (r: Save)
    ensures r.writes == [Upsert(DraftMode, w.draftIds(k), text, k)]
    ensures r.id.Some? <==> w.draftResult(k).None?
    ensures r.id.Some? ==> r.id.value == w.draftIds(k)
  {
    var minted := w.draftIds(k);
    match w.draftResult(k)
    case None => Save(Some(minted), [Debug("draft_saved", [Field("id", JStr(minted))]), Saved("draft", Some(JStr(minted)))],
                       [Upsert(DraftMode, minted, text, k)])
    case Some(e) => Save(None, [Error(e, "draft_upsert")], [Upsert(DraftMode, minted, text, k)])
  }

  /** The periodic overwrite at token `k`: only with a truthy id and a
    * token count that is a multiple of 30. */
  function MidSave(id: Option<string>, k: nat, text: string, w: World): (r: Save)
    ensures r.id == id
    ensures Truthy(id) && k % 30 == 0 ==> r.writes == [Upsert(MidMode, id.value, text, k)]
    ensures !(Truthy(id) && k % 30 == 0) ==> r.frames == [] && r.writes == []
  {
    if Truthy(id) && k % 30 == 0 then
      match w.midResult(k)
      case None => Save(id, [Debug("mid_update", [Field("id", JStr(id.value)), Field("tokens", JInt(k))])], [Upsert(MidMode, id.value, text, k)])
      case Some(e) => Save(id, [Error(e, "mid_update")], [Upsert(MidMode, id.value, text, k)])
    else Save(id, [], [])
  }

  /** The work the loop does for one delta: its chunk frame, the draft save
    * while there is no draft id, then the periodic overwrite. */
  function Step(st: LoopState, delta: string, w: World): (r: LoopOut)
  {
    var k := st.counter + 1;
    var parts := st.parts + [delta];
    var text := Join(parts, "");
    var draft := if st.draftId.Some? then Save(st.draftId, [], []) else DraftSave(k, text, w);
    var mid := MidSave(draft.id, k, text, w);
    LoopOut(LoopState(parts, draft.id, k), [Chunk(delta)] + draft.frames + mid.frames, draft.writes + mid.writes)
  }

  /** The loop over the first deltas. */
  function RunTokens(deltas: seq<string>, w: World): (r: LoopOut)
    ensures r.state.parts == deltas && r.state.counter == |deltas|
  {
    if deltas == [] then LoopOut(LoopState([], None, 0), [], [])
    else
      var n := |deltas| - 1;
      var prev := RunTokens(deltas[..n], w);
      var s := Step(prev.state, deltas[n], w);
      assert deltas == deltas[..n] + [deltas[n]];
      LoopOut(s.state, prev.frames + s.frames, prev.writes + s.writes)
  }

  lemma RunTokensSnoc(deltas: seq<string>, delta: string, w: World)
    ensures var prev := RunTokens(deltas, w);
      var s := Step(prev.state, delta, w);
      RunTokens(deltas + [delta], w) == LoopOut(s.state, prev.frames + s.frames, prev.writes + s.writes)
  {
    assert (deltas + [delta])[..|deltas|] == deltas;
  }

  /** The body of the token loop for one delta: it keeps the delta, sends
    * its chunk, saves a draft while there is no draft id, and overwrites
    * the draft every 30 tokens. */
  method OnToken(st: LoopState, delta: string, w: World) returns (next: LoopState, frames: seq<Event>, writes: seq<Write>)
    ensures LoopOut(next, frames, writes) == Step(st, delta, w)
  {
    var parts := st.parts + [delta];
    var counter := st.counter + 1;
    var draftId := st.draftId;
    frames := [Chunk(delta)];
    writes := [];
    if draftId.None? {
      var minted := w.draftIds(counter);
      draftId := Some(minted);
      writes := writes + [Upsert(DraftMode, minted, Join(parts, ""), counter)];
      match w.draftResult(counter) {
        case None =>
          frames := frames + [Debug("draft_saved", [Field("id", JStr(minted))]), Saved("draft", Some(JStr(minted)))];
        case Some(e) =>
          frames := frames + [Error(e, "draft_upsert")];
          draftId := None;
      }
    }
    ghost var draftFrames := frames[1..];
    ghost var draftWrites := writes;
    assert frames == [Chunk(delta)] + draftFrames;
    if Truthy(draftId) && counter % 30 == 0 {
      writes := writes + [Upsert(MidMode, draftId.value, Join(parts, ""), counter)];
      match w.midResult(counter) {
        case None =>
          frames := frames + [Debug("mid_update", [Field("id", JStr(draftId.value)), Field("tokens", JInt(counter))])];
        case Some(e) =>
          frames := frames + [Error(e, "mid_update")];
      }
    }
    next := LoopState(parts, draftId, counter);
  }

  /** The token loop of step 5 over the language model's deltas. */
  method StreamTokens(w: World) returns (st: LoopState, frames: seq<Event>, writes: seq<Write>)
    ensures LoopOut(st, frames, writes) == RunTokens(w.deltas, w)
  {
    st := LoopState([], None, 0);
    frames, writes := [], [];
    var i := 0;
    while i < |w.deltas|
      invariant 0 <= i <= |w.deltas|
      invariant RunTokens(w.deltas[..i], w) == LoopOut(st, frames, writes)
    {
      var delta := w.deltas[i];
      assert w.deltas[..i + 1] == w.deltas[..i] + [delta];
      RunTokensSnoc(w.deltas[..i], delta, w);
      var stepFrames, stepWrites;
      st, stepFrames, stepWrites := OnToken(st, delta, w);
      frames := frames + stepFrames;
      writes := writes + stepWrites;
      i := i + 1;
    }
    assert w.deltas[..i] == w.deltas;
  }

  /** Each delta gives exactly one chunk frame, in order. */
  lemma {:induction false} RunTokensChunks(deltas: seq<string>, w: World)
    ensures Chunks(RunTokens(deltas, w).frames) == deltas
  {
    if deltas != [] {
      var n := |deltas| - 1;
      var prev := RunTokens(deltas[..n], w);
      var s := Step(prev.state, deltas[n], w);
      RunTokensChunks(deltas[..n], w);
      StepChunks(prev.state, deltas[n], w);
      ChunksConcat(prev.frames, s.frames);
      assert deltas == deltas[..n] + [deltas[n]];
    }
  }

  lemma StepChunks(st: LoopState, delta: string, w: World)
    ensures Chunks(Step(st, delta, w).frames) == [delta]
  {
    var fs := Step(st, delta, w).frames;
    NoChunks(fs[1..]);
    assert fs == [fs[0]] + fs[1..];
  }

  /** The first of the tokens 1..n whose draft upsert succeeds. */
  function FirstSaved(n: nat, w: World): (r: Option<nat>)
    ensures r.None? <==> forall k :: 1 <= k <= n ==> w.draftResult(k).Some?
    ensures r.Some? ==> 1 <= r.value <= n && w.draftResult(r.value).None?
                        && forall k :: 1 <= k < r.value ==> w.draftResult(k).Some?
  {
    if n == 0 then None
    else
      var before := FirstSaved(n - 1, w);
      if before.Some? then before else if w.draftResult(n).None? then Some(n) else None
  }

  lemma StepDraftId(st: LoopState, delta: string, w: World)
    ensures Step(st, delta, w).state.draftId ==
      if st.draftId.Some? then st.draftId
      else if w.draftResult(st.counter + 1).None? then Some(w.draftIds(st.counter + 1)) else None
  {
  }

  /** The draft id after the loop: the id minted at the first token whose
    * draft upsert succeeded, or none when every attempt failed. */
  lemma {:induction false} RunTokensDraft(deltas: seq<string>, w: World)
    ensures var first := FirstSaved(|deltas|, w);
      RunTokens(deltas, w).state.draftId == if first.Some? then Some(w.draftIds(first.value)) else None
  {
    if deltas != [] {
      var n := |deltas| - 1;
      RunTokensDraft(deltas[..n], w);
      StepDraftId(RunTokens(deltas[..n], w).state, deltas[n], w);
    }
  }

  /** Every upsert of the loop stores the text streamed so far, at a token
    * that was received. A draft upsert happens only while no earlier
    * draft upsert succeeded; an overwrite only with a truthy id and a token
    * count that is a multiple of 30, under the id a draft upsert kept. */
  predicate LoopWrite(x: Write, deltas: seq<string>, w: World)
  {
    && x.Upsert? && x.mode != FinalMode
    && 1 <= x.atToken <= |deltas| && x.content == Join(deltas[..x.atToken], "")
    && (x.mode == DraftMode ==> x.id == w.draftIds(x.atToken) && FirstSaved(x.atToken - 1, w).None?)
    && (x.mode == MidMode ==>
          && x.atToken % 30 == 0 && x.id != ""
          && FirstSaved(x.atToken, w).Some? && x.id == w.draftIds(FirstSaved(x.atToken, w).value))
  }

  lemma StepWrites(st: LoopState, delta: string, w: World)
    ensures var k := st.counter + 1;
      var text := Join(st.parts + [delta], "");
      var id := Step(st, delta, w).state.draftId;
      Step(st, delta, w).writes ==
        (if st.draftId.None? then [Upsert(DraftMode, w.draftIds(k), text, k)] else [])
        + (if Truthy(id) && k % 30 == 0 then [Upsert(MidMode, id.value, text, k)] else [])
  {
  }

  lemma LoopWriteExtend(x: Write, deltas: seq<string>, n: nat, w: World)
    requires n <= |deltas| && LoopWrite(x, deltas[..n], w)
    ensures LoopWrite(x, deltas, w)
  {
    assert deltas[..n][..x.atToken] == deltas[..x.atToken];
  }

  /** The last token's draft write, when it makes one, is a loop write. */
  lemma LastDraftWrite(deltas: seq<string>, w: World)
    requires deltas != []
    ensures var n := |deltas| - 1;
      var prev := RunTokens(deltas[..n], w).state;
      prev.draftId.None? ==> LoopWrite(Upsert(DraftMode, w.draftIds(n + 1), Join(prev.parts + [deltas[n]], ""), n + 1), deltas, w)
  {
    var n := |deltas| - 1;
    var prev := RunTokens(deltas[..n], w).state;
    assert prev.parts + [deltas[n]] == deltas[..n + 1];
    RunTokensDraft(deltas[..n], w);
  }

  /** The last token's periodic write, when it makes one, is a loop write. */
  lemma LastMidWrite(deltas: seq<string>, w: World)
    requires deltas != []
    ensures var n := |deltas| - 1;
      var prev := RunTokens(deltas[..n], w).state;
      var id := Step(prev, deltas[n], w).state.draftId;
      Truthy(id) && (n + 1) % 30 == 0 ==>
        LoopWrite(Upsert(MidMode, id.value, Join(prev.parts + [deltas[n]], ""), n + 1), deltas, w)
  {
    var n := |deltas| - 1;
    var prev := RunTokens(deltas[..n], w).state;
    assert prev.parts + [deltas[n]] == deltas[..n + 1];
    assert deltas[..n + 1] == deltas;
    RunTokensSnoc(deltas[..n], deltas[n], w);
    RunTokensDraft(deltas, w);
  }

  /** The writes of the last token's step are loop writes. */
  lemma LastStepWrites(deltas: seq<string>, w: World)
    requires deltas != []
    ensures var n := |deltas| - 1;
      forall x :: x in Step(RunTokens(deltas[..n], w).state, deltas[n], w).writes ==> LoopWrite(x, deltas, w)
  {
    var n := |deltas| - 1;
    StepWrites(RunTokens(deltas[..n], w).state, deltas[n], w);
    LastDraftWrite(deltas, w);
    LastMidWrite(deltas, w);
  }

  lemma {:induction false} RunTokensWrites(deltas: seq<string>, w: World)
    ensures forall x :: x in RunTokens(deltas, w).writes ==> LoopWrite(x, deltas, w)
  {
    if deltas != [] {
      var n := |deltas| - 1;
      RunTokensWrites(deltas[..n], w);
      var prev := RunTokens(deltas[..n], w);
      forall x | x in prev.writes
        ensures LoopWrite(x, deltas, w)
      {
        LoopWriteExtend(x, deltas, n, w);
      }
      LastStepWrites(deltas, w);
    }
  }

  // ---- The `finally` block ------------------------------------------------

  const FallbackText: string := "[assistant empty response]"

  /** The text the `finally` block saves: the streamed text, stripped. */
  function FinalText(parts: seq<string>): string
  {
    PyStrip(Join(parts, ""))
  }

  /** The fallback post of a run without tokens; it needs the client. */
  function FallbackWrites(clientOk: bool, st: LoopState): seq<Write>
  {
    if clientOk && st.counter == 0 then [Post(FallbackText)] else []
  }

  /** The final save of the stripped text when it is not empty (it needs
    * the client): an upsert under a truthy draft id, else a new message. */
  function FinalWrites(clientOk: bool, st: LoopState, finalText: string): seq<Write>
  {
    if !clientOk || finalText == "" then []
    else if Truthy(st.draftId) then [Upsert(FinalMode, st.draftId.value, finalText, st.counter)]
    else [Post(finalText)]
  }

  /** The writes of the `finally` block. */
  function SaveWrites(clientOk: bool, st: LoopState, finalText: string): (r: seq<Write>)
    ensures !clientOk ==> r == []
    ensures |r| <= 2 && forall i :: 0 <= i < |r| ==> r[i].content != ""
  {
    FallbackWrites(clientOk, st) + FinalWrites(clientOk, st, finalText)
  }

  /** The `finally` block's writes, case by case: nothing without a
    * client; the fallback text alone when no token came; otherwise one
    * save of the stripped text when it is not empty, as an upsert under
    * a truthy draft id or else as a new message. */
  lemma SaveWritesCases(clientOk: bool, st: LoopState)
    requires st.counter == |st.parts|
    ensures var r := SaveWrites(clientOk, st, FinalText(st.parts));
      && (!clientOk ==> r == [])
      && (clientOk && st.counter == 0 ==> r == [Post(FallbackText)])
      && (clientOk && st.counter > 0 && FinalText(st.parts) == "" ==> r == [])
      && (clientOk && st.counter > 0 && FinalText(st.parts) != "" ==>
            r == [if Truthy(st.draftId) then Upsert(FinalMode, st.draftId.value, FinalText(st.parts), st.counter)
                  else Post(FinalText(st.parts))])
  {
    if st.counter == 0 {
      assert Join(st.parts, "") == "";
      assert FinalText(st.parts) == "";
    }
  }

  /** The saved text is the streamed text less its surrounding white
    * space: it neither starts nor ends with white space. */
  lemma FinalTextStripped(parts: seq<string>)
    ensures var t := FinalText(parts);
      && Contains(Join(parts, ""), t)
      && (t == "" || (!IsPySpace(t[0]) && !IsPySpace(t[|t| - 1])))
  {
  }

  /** The first part of the `finally` block: without a token, the
    * no-token error, then the fallback post (reported when it succeeds). */
  method SaveFallback(clientOk: bool, st: LoopState, w: World) returns (frames: seq<Event>, writes: seq<Write>)
    ensures writes == FallbackWrites(clientOk, st)
    ensures st.counter == 0 <==> |frames| >= 1 && frames[0] == NoTokens
    ensures NoChunk(frames)
    ensures Saved("fallback", None) in frames <==> clientOk && st.counter == 0 && w.fallbackResult.None?
  {
    frames, writes := [], [];
    if st.counter == 0 {
      frames := [NoTokens];
      if clientOk {
        writes := [Post(FallbackText)];
        if w.fallbackResult.None? {
          frames := frames + [Saved("fallback", None)];
        }
      }
    }
  }

  /** The final save of the `finally` block, reported as saved or as an
    * error. */
  method SaveFinal(clientOk: bool, st: LoopState, w: World) returns (frames: seq<Event>, writes: seq<Write>)
    ensures writes == FinalWrites(clientOk, st, FinalText(st.parts))
    ensures NoChunk(frames) && NoTokens !in frames
    ensures writes != [] <==> |frames| >= 1
    ensures writes != [] && Truthy(st.draftId) ==>
      (w.finalUpsert.None? <==> Saved("final", Some(JStr(st.draftId.value))) in frames)
    ensures writes != [] && !Truthy(st.draftId) ==>
      (w.finalPost.CreatedRow? <==> exists id :: Saved("final", Some(id)) in frames)
  {
    frames, writes := [], [];
    if clientOk {
      var finalText := FinalText(st.parts);
      if finalText != "" {
        if Truthy(st.draftId) {
          var id := st.draftId.value;
          writes := [Upsert(FinalMode, id, finalText, st.counter)];
          match w.finalUpsert {
            case None =>
              frames := [Debug("final_saved", [Field("id", JStr(id)), Field("chars", JInt(|finalText|))]),
                         Saved("final", Some(JStr(id)))];
            case Some(e) =>
              frames := [Error(e, "final_upsert")];
          }
        } else {
          writes := [Post(finalText)];
          match w.finalPost {
            case CreatedRow(id) =>
              frames := [Debug("final_inserted", [Field("id", id), Field("chars", JInt(|finalText|))]),
                         Saved("final", Some(id))];
            case CreateFailed(e) =>
              frames := [Error(e, "final_insert")];
          }
        }
      }
    }
  }

  /** The `finally` block: the fallback, the final save, then the end
    * frames. */
  method Finish(clientOk: bool, st: LoopState, w: World) returns (frames: seq<Event>, writes: seq<Write>)
    ensures writes == SaveWrites(clientOk, st, FinalText(st.parts))
    ensures Closed(frames)
    ensures st.counter == 0 ==> |frames| >= 1 && frames[0] == NoTokens
    ensures NoChunk(frames)
  {
    var fallbackFrames, fallbackWrites := SaveFallback(clientOk, st, w);
    var finalFrames, finalWrites := SaveFinal(clientOk, st, w);
    Closing(fallbackFrames, finalFrames);
    frames := fallbackFrames + finalFrames + EndEvents;
    writes := fallbackWrites + finalWrites;
  }

  /** The `finally` block's frames followed by the end frames. */
  lemma Closing(a: seq<Event>, b: seq<Event>)
    requires NoChunk(a) && NoChunk(b)
    ensures var all := a + b + EndEvents;
      && Closed(all) && NoChunk(all)
      && (|a| >= 1 ==> all[0] == a[0])
  {
    var all := a + b + EndEvents;
    assert all[|all| - 3..] == EndEvents;
    NoChunkConcat(a, b);
    NoChunkConcat(a + b, EndEvents);
  }

  // ---- The whole generator ------------------------------------------------

  datatype Output = Output(frames: seq<Event>, writes: seq<Write>)

  const NoUserMessage: HttpError := HttpError(400, "no user message found")

  /** The loop's outcome when every preparatory step succeeded (`go`),
    * the empty loop otherwise. */
  function LoopOf(go: bool, w: World): (r: LoopOut)
    ensures r.state.counter == |r.state.parts|
  {
    if go then RunTokens(w.deltas, w) else LoopOut(LoopState([], None, 0), [], [])
  }

  /** A run put together: `start`, the preparatory calls, then the rest;
    * the first calls stay first, the end stays last, and the chunks are
    * those of the rest. */
  lemma Assemble(pre: seq<Event>, rest: seq<Event>)
    requires |pre| >= 1 && NoChunk(pre) && Closed(rest)
    ensures var all := [Start] + pre + rest;
      && |all| >= 5 && all[0] == Start && all[1] == pre[0]
      && Closed(all) && Chunks(all) == Chunks(rest)
  {
    var all := [Start] + pre + rest;
    assert all[|all| - 3..] == rest[|rest| - 3..];
    NoChunkConcat([Start], pre);
    NoChunks([Start] + pre);
    ChunksConcat([Start] + pre, rest);
  }

  /** Step 5 when it is reached: the token loop, then the stream's failure
    * when it raised; one chunk per delta. */
  method Answer(go: bool, w: World) returns (st: LoopState, body: seq<Event>, writes: seq<Write>)
    ensures st == LoopOf(go, w).state && writes == LoopOf(go, w).writes
    ensures Chunks(body) == (if go then w.deltas else [])
  {
    st := LoopState([], None, 0);
    body, writes := [], [];
    if go {
      st, body, writes := StreamTokens(w);
      RunTokensChunks(w.deltas, w);
      // a failure of the stream ends the loop and is reported
      if w.streamError.Some? {
        var failed := [Error(w.streamError.value, "openai_stream")];
        ChunksConcat(body, failed);
        NoChunks(failed);
        body := body + failed;
      }
    }
  }

  /** What follows the preparatory steps: the token loop when they all
    * succeeded (`go`), then the `finally` block. */
  method Conclude(go: bool, clientOk: bool, w: World) returns (frames: seq<Event>, writes: seq<Write>)
    ensures Closed(frames)
    ensures Chunks(frames) == (if go then w.deltas else [])
    ensures var loop := LoopOf(go, w);
      writes == loop.writes + SaveWrites(clientOk, loop.state, FinalText(loop.state.parts))
  {
    var st, body, loopWrites := Answer(go, w);
    var tail, saves := Finish(clientOk, st, w);
    ClosedTail(body, tail);
    frames := body + tail;
    writes := loopWrites + saves;
  }

  /** Frames without chunks after a body: the end stays last and the
    * chunks are the body's. */
  lemma ClosedTail(body: seq<Event>, tail: seq<Event>)
    requires Closed(tail) && NoChunk(tail)
    ensures Closed(body + tail) && Chunks(body + tail) == Chunks(body)
  {
    assert (body + tail)[|body + tail| - 3..] == tail[|tail| - 3..];
    NoChunks(tail);
    ChunksConcat(body, tail);
  }

  /** The inner `generator()`: `start`, the preparatory steps, the token
    * loop when they all succeed, then the `finally` block. */
  method Generate(req: ChatRequest, w: World) returns (out: Output)
    requires |w.ingest| == |req.attachmentIds.GetOr([])|
    ensures |out.frames| >= 5 && out.frames[0] == Start && Closed(out.frames)
    ensures out.frames[1] == Debug("client_init", [Field("ok", JBool(w.clientInit.None?))])
    ensures Chunks(out.frames) == (if Reaches(req, w) then w.deltas else [])
    ensures var loop := LoopOf(Reaches(req, w), w);
      out.writes == loop.writes + SaveWrites(w.clientInit.None?, loop.state, FinalText(loop.state.parts))
  {
    var pre, go := Prepare(req, w);
    var rest, writes := Conclude(go, w.clientInit.None?, w);
    Assemble(pre, rest);
    out := Output([Start] + pre + rest, writes);
  }

  /** What `run_rag_chat` gives the `/chatbot` response. It is an async
    * generator, so even its check of the last user message runs only when
    * `StreamingResponse` pulls the first item, after the 200 status and the
    * event-stream headers have gone out: the `HTTPException` then aborts
    * the started stream before any frame (`Aborted`), and no 400 reaches
    * the client. Otherwise the stream carries the inner generator's output. */
  datatype Run = Aborted(error: HttpError) | Streamed(out: Output)

  /** `run_rag_chat(req, token)`. */
  method RunRagChat(req: ChatRequest, w: World) returns (r: Run)
    requires |w.ingest| == |req.attachmentIds.GetOr([])|
    ensures r.Aborted? <==> !Truthy(LastUser(req.messages))
    ensures r.Aborted? ==> r.error == NoUserMessage
    ensures r.Streamed? ==>
      && |r.out.frames| >= 5 && r.out.frames[0] == Start
      && Chunks(r.out.frames) == (if Reaches(req, w) then w.deltas else [])
      && Closed(r.out.frames)
  {
    var lastUser := LastUser(req.messages);
    if !Truthy(lastUser) {
      return Aborted(NoUserMessage);
    }
    var out := Generate(req, w);
    return Streamed(out);
  }

  // ---- What reaches the client ----

  /** The generator's items: every event's payload passed through `sse`. */
  function Items(events: seq<Event>, w: World): (r: seq<ChatRouter.Item>)
    ensures |r| == |events|
    ensures forall i :: 0 <= i < |events| ==>
      r[i] == ChatRouter.ItemOf(Sse.Sse(Payload(events[i], w).data, Payload(events[i], w).event))
  {
    seq(|events|, i requires 0 <= i < |events| =>
      ChatRouter.ItemOf(Sse.Sse(Payload(events[i], w).data, Payload(events[i], w).event)))
  }

  /** The generator's items as `see.py` frames them, each JSON text cut at
    * every `str.splitlines` break (see `Sse.SseAsWritten`). */
  function ItemsAsWritten(events: seq<Event>, w: World): (r: seq<ChatRouter.Item>)
    ensures |r| == |events|
    ensures forall i :: 0 <= i < |events| ==>
      r[i] == ChatRouter.ItemOf(Sse.SseAsWritten(Payload(events[i], w).data, Payload(events[i], w).event))
  {
    seq(|events|, i requires 0 <= i < |events| =>
      ChatRouter.ItemOf(Sse.SseAsWritten(Payload(events[i], w).data, Payload(events[i], w).event)))
  }

  /** When no payload's JSON text holds a character at which Python's
    * `splitlines` breaks (after `json.dumps` only U+0085, U+2028 and U+2029
    * can), the items as written are the items `Items` describes, so the
    * body `Wire` describes is the body sent. */
  lemma {:induction false} ItemsAsWrittenAgree(events: seq<Event>, w: World)
    requires forall i :: 0 <= i < |events| ==> Sse.NoBreaks(Sse.Dumps(Payload(events[i], w).data))
    ensures ItemsAsWritten(events, w) == Items(events, w)
    ensures ChatRouter.SafeStream(ItemsAsWritten(events, w)) == Wire(events, w)
  {
    forall i | 0 <= i < |events|
      ensures ItemsAsWritten(events, w)[i] == Items(events, w)[i]
    {
      Sse.AsWrittenAgrees(Payload(events[i], w).data, Payload(events[i], w).event);
    }
  }

  /** The response body: the items through `_safe_stream`. */
  function Wire(events: seq<Event>, w: World): seq<seq<byte>>
  {
    ChatRouter.SafeStream(Items(events, w))
  }

  lemma ItemsConcat(a: seq<Event>, b: seq<Event>, w: World)
    ensures Items(a + b, w) == Items(a, w) + Items(b, w)
  {
    var l := Items(a + b, w);
    var r := Items(a, w) + Items(b, w);
    assert |l| == |r|;
    forall i | 0 <= i < |l|
      ensures l[i] == r[i]
    {
      if i < |a| {
        assert (a + b)[i] == a[i];
      } else {
        assert (a + b)[i] == b[i - |a|];
      }
    }
  }

  /** The body is built call by call. */
  lemma WireConcat(a: seq<Event>, b: seq<Event>, w: World)
    ensures Wire(a + b, w) == Wire(a, w) + Wire(b, w)
  {
    ItemsConcat(a, b, w);
    ChatRouter.SafeStreamConcat(Items(a, w), Items(b, w));
  }

  /** The bytes of the `end` frame: `data: {"type": "end"}` and the blank
    * line. */
  function EndFrame(w: World): seq<byte>
  {
    Sse.Sse(Payload(End, w).data, None).value
  }

  /** The `end` call yields its frame ... */
  lemma EndWire(w: World)
    ensures Wire([End], w) == [EndFrame(w)]
  {
    var x := Items([End], w)[0];
    assert Items([End], w) == [x];
    ChatRouter.SafeStreamSingle(x);
  }

  /** ... and the `done` call nothing. */
  lemma DoneWire(w: World)
    ensures Wire([DoneSignal], w) == []
  {
    var x := Items([DoneSignal], w)[0];
    assert Payload(DoneSignal, w).data.JStr?;
    assert Items([DoneSignal], w) == [x];
    ChatRouter.SafeStreamSingle(x);
  }

  /** Every closed run sends the same body with or without its last call,
    * `sse("done", event="done")`, since that call yields `None`; so the
    * last bytes a client receives are the `{"type": "end"}` frame, and no
    * `done` event ever reaches it. */
  lemma WireOfClosed(events: seq<Event>, w: World)
    requires Closed(events)
    ensures Wire(events, w) == Wire(events[..|events| - 1], w)
    ensures var body := Wire(events, w);
      |body| >= 1 && body[|body| - 1] == EndFrame(w)
  {
    var n := |events|;
    var init := events[..n - 2];
    assert events[..n - 1] == init + [End] by {
      assert events[n - 3..] == EndEvents;
    }
    assert events == (init + [End]) + [DoneSignal] by {
      assert events[n - 3..] == EndEvents;
    }
    WireConcat(init + [End], [DoneSignal], w);
    WireConcat(init, [End], w);
    EndWire(w);
    DoneWire(w);
  }
}
