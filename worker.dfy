/** The worker's request handling: PDF ingestion, the query handler, the
    dispatch table and the message listener. The pure functions say what one
    call posts and what the store becomes; the class `RagWorker` performs the
    same steps on its mutable store and outbound event log. */
module Worker {
  import opened Wrappers
  import opened Protocol
  import opened Oracles
  import opened RagGraph

  const CHUNKING := SplitterConfig(500, 50)
  const INGESTED := ChatMessage(Assistant, Some("Dokumentet har blitt behandlet vellykket! Du kan nå stille spørsmål om innholdet."))
  /** The fixed conversation answered while the store is empty. */
  const GREETING: Prompt := [
    Turn(System, Some("Du er Norsk og en erfaren forsker og hjelpsom AI-assistent fra ThuHuynh.no")),
    Turn(User, Some("Hei!"))]
  const NO_RESPONSE := "No response generated"
  const REQUEST_FAILED := "An error occurred while processing your request"
  /** The message of the TypeError raised by calling a string; its exact
      wording belongs to the JavaScript engine. */
  const NOT_A_FUNCTION := "eventFunc is not a function"

  /** How a handler call ended: it returned, or it threw. */
  datatype Completion = Returned | Threw(thrown: Thrown)

  /** What one handler call did: the events it posted, the store afterwards,
      and how it ended. */
  datatype Effect = Effect(posted: seq<OutEvent>, store: seq<Document>, ended: Completion)

  // ---------------------------------------------------------------------------
  // Ingestion
  // ---------------------------------------------------------------------------

  /** Load, split with chunk size 500 and overlap 50, log the chunks, insert
      them, then post the fixed confirmation. Any throw escapes to the caller;
      the store only ever grows by the whole chunk list. */
  function EmbedEffect(env: Env, store: seq<Document>, pdf: Option<Blob>): (e: Effect)
    ensures e.ended.Threw? ==> e.store == store
    ensures e.ended.Threw? ==> forall i :: 0 <= i < |e.posted| ==> !e.posted[i].Complete?
    ensures e.ended.Returned? ==>
      && env.loadPdf(pdf).Ok?
      && env.split(CHUNKING, env.loadPdf(pdf).value).Ok?
      && var chunks := env.split(CHUNKING, env.loadPdf(pdf).value).value;
      && e.posted == [Log(Chunks(chunks)), Complete(INGESTED)]
      && e.store == store + chunks
  {
    match env.loadPdf(pdf)
    case Fail(t) => Effect([], store, Threw(t))
    case Ok(docs) =>
      match env.split(CHUNKING, docs)
      case Fail(t) => Effect([], store, Threw(t))
      case Ok(chunks) =>
        match env.embed(chunks)
        case Fail(t) => Effect([Log(Chunks(chunks))], store, Threw(t))
        case Ok(_) => Effect([Log(Chunks(chunks)), Complete(INGESTED)], store + chunks, Returned)
  }

  // ---------------------------------------------------------------------------
  // Queries
  // ---------------------------------------------------------------------------

  /** `error?.message || "An error occurred ..."`. */
  function QueryErrorText(message: string): (text: string)
    ensures text != ""
    ensures message != "" ==> text == message
  {
    if message == "" then REQUEST_FAILED else message
  }

  /** The `try` block of the query handler: the answer text, or what was thrown
      (including the error raised for a falsy answer). */
  function QueryAttempt(env: Env, store: seq<Document>, messages: seq<ChatMessage>): (r: Outcome<string>)
    ensures r.Ok? ==> r.value != ""
    ensures r.Ok? ==> GenerateRagResponse(messages, env, store) == Ok(Some(r.value))
  {
    match GenerateRagResponse(messages, env, store)
    case Fail(t) => Fail(t)
    case Ok(response) =>
      if response.None? || response.value == "" then Fail(ErrorValue(NO_RESPONSE))
      else Ok(response.value)
  }

  /** An empty store answers the greeting conversation, outside the `try`, so a
      throw there escapes; otherwise the pipeline runs and its outcome is posted
      as `complete` or `error`, except that a thrown non-`Error` is swallowed. */
  function QueryEffect(env: Env, store: seq<Document>, messages: seq<ChatMessage>): (e: Effect)
    ensures e.store == store
    ensures |e.posted| <= 1
    ensures e.ended.Threw? ==> |store| == 0 && e.posted == []
    ensures |store| > 0 ==> e.ended == Returned
  {
    if |store| == 0 then
      match env.llm(GREETING)
      case Fail(t) => Effect([], store, Threw(t))
      case Ok(reply) => Effect([Complete(ChatMessage(Assistant, ContentOf(reply)))], store, Returned)
    else
      match QueryAttempt(env, store, messages)
      case Ok(text) => Effect([Complete(ChatMessage(Assistant, Some(text)))], store, Returned)
      case Fail(ErrorValue(m)) => Effect([Error(QueryErrorText(m))], store, Returned)
      case Fail(OtherValue(_)) => Effect([], store, Returned)
  }

  // ---------------------------------------------------------------------------
  // Dispatch
  // ---------------------------------------------------------------------------

  /** `events?.[type] || "init"`. */
  function Lookup(kind: string): (h: Handler)
    ensures h == EmbedPdfFn <==> kind == "embed"
    ensures h == QueryEventFn <==> kind == "query"
  {
    if kind == "embed" then EmbedPdfFn
    else if kind == "query" then QueryEventFn
    else InitString
  }

  /** What the page always sends: a query carries its conversation. */
  predicate WellFormed(req: Request) {
    req.kind == "query" ==> req.messages.Some?
  }

  /** Calling the resolved handler; calling the string "init" throws a TypeError. */
  function Invoke(handler: Handler, env: Env, store: seq<Document>, req: Request): (e: Effect)
    requires handler == Lookup(req.kind) && WellFormed(req)
    ensures handler == InitString ==> e == Effect([], store, Threw(ErrorValue(NOT_A_FUNCTION)))
    ensures handler == QueryEventFn ==> e.store == store
    ensures e.ended.Threw? ==> e.store == store
    ensures e.ended.Threw? ==> forall i :: 0 <= i < |e.posted| ==> !e.posted[i].Complete?
  {
    match handler
    case EmbedPdfFn => EmbedEffect(env, store, req.pdf)
    case QueryEventFn => QueryEffect(env, store, req.messages.value)
    case InitString => Effect([], store, Threw(ErrorValue(NOT_A_FUNCTION)))
  }

  /** `error instanceof Error ? error.message : String(error)`. */
  function ThrownText(t: Thrown): (text: string)
    ensures t.ErrorValue? ==> text == t.message
    ensures t.OtherValue? ==> text == t.text
  {
    match t
    case ErrorValue(m) => m
    case OtherValue(s) => s
  }

  /** The message listener: post a log naming the handler, call it, and turn
      anything it throws into one `error` event. */
  function ListenerEffect(env: Env, store: seq<Document>, req: Request): (e: Effect)
    requires WellFormed(req)
    ensures e.ended == Returned
    ensures |e.posted| > 0 && e.posted[0] == Log(ReceivedNotice(Lookup(req.kind)))
    ensures e.store == Invoke(Lookup(req.kind), env, store, req).store
    ensures Lookup(req.kind) != EmbedPdfFn ==> e.store == store
    ensures Invoke(Lookup(req.kind), env, store, req).ended.Threw? ==>
      && e.store == store
      && e.posted == [Log(ReceivedNotice(Lookup(req.kind)))] + Invoke(Lookup(req.kind), env, store, req).posted
                     + [Error(ThrownText(Invoke(Lookup(req.kind), env, store, req).ended.thrown))]
  {
    var handler := Lookup(req.kind);
    var inner := Invoke(handler, env, store, req);
    var posted := [Log(ReceivedNotice(handler))] + inner.posted;
    match inner.ended
    case Returned => Effect(posted, inner.store, Returned)
    case Threw(t) => Effect(posted + [Error(ThrownText(t))], inner.store, Returned)
  }

  /** A failed ingestion is reported to the page as one `error` event after the
      events posted before the throw, no confirmation is posted, and the index
      is left as it was. */
  lemma EmbedFailureYieldsOneError(env: Env, store: seq<Document>, pdf: Option<Blob>)
    requires EmbedEffect(env, store, pdf).ended.Threw?
    ensures var inner := EmbedEffect(env, store, pdf);
      var e := ListenerEffect(env, store, Request("embed", None, pdf));
      && e.store == store
      && e.posted == [Log(ReceivedNotice(EmbedPdfFn))] + inner.posted + [Error(ThrownText(inner.ended.thrown))]
      && forall i :: 0 <= i < |e.posted| - 1 ==> !e.posted[i].Complete? && !e.posted[i].Error?
  {
  }

  // ---------------------------------------------------------------------------
  // Terminal events
  // ---------------------------------------------------------------------------

  predicate IsTerminal(e: OutEvent) {
    e.Complete? || e.Error?
  }

  function Terminals(events: seq<OutEvent>): nat {
    if events == [] then 0
    else (if IsTerminal(events[0]) then 1 else 0) + Terminals(events[1..])
  }

  lemma {:induction false} TerminalsAppend(a: seq<OutEvent>, b: seq<OutEvent>)
    ensures Terminals(a + b) == Terminals(a) + Terminals(b)
  {
    if a == [] {
      assert a + b == b;
    } else {
      assert (a + b)[1..] == a[1..] + b;
      TerminalsAppend(a[1..], b);
    }
  }

  /** The one request whose handling ends without a terminal event: a query on
      a non-empty store whose pipeline throws something that is not an `Error`. */
  predicate SwallowsThrow(env: Env, store: seq<Document>, req: Request)
    requires WellFormed(req)
  {
    && req.kind == "query"
    && |store| > 0
    && QueryAttempt(env, store, req.messages.value).Fail?
    && QueryAttempt(env, store, req.messages.value).thrown.OtherValue?
  }

  /** Every request ends with exactly one terminal event, posted last, except a
      swallowed non-`Error` throw, which posts none. */
  lemma OneTerminalPerRequest(env: Env, store: seq<Document>, req: Request)
    requires WellFormed(req)
    ensures var e := ListenerEffect(env, store, req);
      && Terminals(e.posted) == (if SwallowsThrow(env, store, req) then 0 else 1)
      && (!SwallowsThrow(env, store, req) ==> IsTerminal(e.posted[|e.posted| - 1]))
  {
    var handler := Lookup(req.kind);
    var inner := Invoke(handler, env, store, req);
    var notice := [Log(ReceivedNotice(handler))];
    assert Terminals(notice) == 0 by {
      assert notice[1..] == [];
    }
    TerminalsAppend(notice, inner.posted);
    if inner.ended.Threw? {
      TerminalsAppend(notice + inner.posted, [Error(ThrownText(inner.ended.thrown))]);
      assert Terminals([Error(ThrownText(inner.ended.thrown))]) == 1 by {
        assert [Error(ThrownText(inner.ended.thrown))][1..] == [];
      }
      assert Terminals(inner.posted) == 0 by {
        if handler == EmbedPdfFn {
          var pdf := req.pdf;
          if env.loadPdf(pdf).Ok? && env.split(CHUNKING, env.loadPdf(pdf).value).Ok? {
            assert inner.posted == [Log(Chunks(env.split(CHUNKING, env.loadPdf(pdf).value).value))];
            assert inner.posted[1..] == [];
          }
        }
      }
    } else {
      match handler
      case EmbedPdfFn =>
        var chunks := env.split(CHUNKING, env.loadPdf(req.pdf).value).value;
        assert inner.posted == [Log(Chunks(chunks)), Complete(INGESTED)];
        assert inner.posted[1..][1..] == [];
      case QueryEventFn =>
        if |inner.posted| == 1 {
          assert inner.posted[1..] == [];
        }
      case InitString =>
    }
  }

  // ---------------------------------------------------------------------------
  // Properties of the handlers
  // ---------------------------------------------------------------------------

  /** An unknown type is not ignored: the listener logs "init" and reports the
      TypeError of calling it as one `error` event. */
  lemma UnknownTypeYieldsOneError(env: Env, store: seq<Document>, req: Request)
    requires req.kind != "embed" && req.kind != "query"
    ensures ListenerEffect(env, store, req) ==
      Effect([Log(ReceivedNotice(InitString)), Error(NOT_A_FUNCTION)], store, Returned)
  {
  }

  /** While the store is empty the user's conversation is not read at all. */
  lemma EmptyStoreIgnoresConversation(env: Env, m1: seq<ChatMessage>, m2: seq<ChatMessage>)
    ensures QueryEffect(env, [], m1) == QueryEffect(env, [], m2)
  {
  }

  /** With an empty store a query is answered by one greeting call: one
      `complete` with the reply's content, or, if the call throws, one `error`
      from the listener. */
  lemma EmptyStoreAnswersGreeting(env: Env, messages: seq<ChatMessage>)
    ensures var e := ListenerEffect(env, [], Request("query", Some(messages), None));
      var notice := Log(ReceivedNotice(QueryEventFn));
      && (env.llm(GREETING).Ok? ==>
            e.posted == [notice, Complete(ChatMessage(Assistant, ContentOf(env.llm(GREETING).value)))])
      && (env.llm(GREETING).Fail? ==>
            e.posted == [notice, Error(ThrownText(env.llm(GREETING).thrown))])
  {
  }

  /** A pipeline that throws an `Error` yields one `error` event and no
      `complete`; an empty message is replaced by the fixed text. */
  lemma PipelineErrorBecomesOneError(env: Env, store: seq<Document>, messages: seq<ChatMessage>, m: string)
    requires |store| > 0
    requires GenerateRagResponse(messages, env, store) == Fail(ErrorValue(m))
    ensures QueryEffect(env, store, messages).posted == [Error(if m == "" then REQUEST_FAILED else m)]
  {
  }

  /** An empty answer is not completed: it becomes the "No response generated" error. */
  lemma EmptyAnswerBecomesError(env: Env, store: seq<Document>, messages: seq<ChatMessage>)
    requires |store| > 0
    requires GenerateRagResponse(messages, env, store) == Ok(Some(""))
    ensures QueryEffect(env, store, messages).posted == [Error(NO_RESPONSE)]
  {
  }

  /** A thrown non-`Error` inside the pipeline leaves only the listener's log. */
  lemma NonErrorThrowIsSilent(env: Env, store: seq<Document>, messages: seq<ChatMessage>, text: string)
    requires |store| > 0
    requires GenerateRagResponse(messages, env, store) == Fail(OtherValue(text))
    ensures ListenerEffect(env, store, Request("query", Some(messages), None)).posted ==
      [Log(ReceivedNotice(QueryEventFn))]
  {
  }

  /** A successful ingestion posts the log, the chunk log and the confirmation,
      in that order, and appends the chunks to the store. */
  lemma EmbedPostsInOrder(env: Env, store: seq<Document>, req: Request, docs: seq<Document>, chunks: seq<Document>)
    requires req.kind == "embed"
    requires env.loadPdf(req.pdf) == Ok(docs)
    requires env.split(CHUNKING, docs) == Ok(chunks)
    requires env.embed(chunks).Ok?
    ensures ListenerEffect(env, store, req) ==
      Effect([Log(ReceivedNotice(EmbedPdfFn)), Log(Chunks(chunks)), Complete(INGESTED)], store + chunks, Returned)
  {
  }

  /** No deduplication: ingesting the same PDF twice stores its chunks twice. */
  lemma ReingestDuplicatesChunks(env: Env, store: seq<Document>, pdf: Option<Blob>)
    requires EmbedEffect(env, store, pdf).ended.Returned?
    ensures var chunks := env.split(CHUNKING, env.loadPdf(pdf).value).value;
      var once := EmbedEffect(env, store, pdf);
      EmbedEffect(env, once.store, pdf).store == store + chunks + chunks
  {
  }

  // ---------------------------------------------------------------------------
  // The worker
  // ---------------------------------------------------------------------------

  /** The posts made while the model loads, one per progress report. */
  function LoadingEvents(reports: seq<ProgressReport>): (events: seq<OutEvent>)
    ensures |events| == |reports|
    ensures forall i :: 0 <= i < |reports| ==> events[i] == InitProgress(reports[i])
  {
    seq(|reports|, i requires 0 <= i < |reports| => InitProgress(reports[i]))
  }

  /** The worker's module state: the capabilities, the vector store's
      documents, and every event posted to the page so far. */
  class RagWorker {
    const env: Env
    var docstore: seq<Document>
    var outbox: seq<OutEvent>

    /** Module start-up: the store is empty and the model posts one
        `init_progress` event per loading report. */
    constructor (env: Env, loading: seq<ProgressReport>)
      ensures this.env == env
      ensures docstore == []
      ensures outbox == LoadingEvents(loading)
    {
      this.env := env;
      docstore := [];
      outbox := LoadingEvents(loading);
    }

    /** `self.postMessage`. */
    method PostMessage(e: OutEvent)
      modifies this
      ensures outbox == old(outbox) + [e]
      ensures docstore == old(docstore)
    {
      outbox := outbox + [e];
    }

    /** `vectorstore.addDocuments`: all chunks are stored, or none when
        embedding throws. */
    method AddDocuments(docs: seq<Document>) returns (r: Outcome<()>)
      modifies this
      ensures r == env.embed(docs)
      ensures docstore == if r.Ok? then old(docstore) + docs else old(docstore)
      ensures outbox == old(outbox)
    {
      r := env.embed(docs);
      if r.Ok? {
        docstore := docstore + docs;
      }
    }

    method EmbedPDF(pdf: Option<Blob>) returns (ended: Completion)
      modifies this
      ensures var e := EmbedEffect(env, old(docstore), pdf);
        outbox == old(outbox) + e.posted && docstore == e.store && ended == e.ended
    {
      var loaded := env.loadPdf(pdf);
      if loaded.Fail? {
        return Threw(loaded.thrown);
      }
      var split := env.split(CHUNKING, loaded.value);
      if split.Fail? {
        return Threw(split.thrown);
      }
      PostMessage(Log(Chunks(split.value)));
      var added := AddDocuments(split.value);
      if added.Fail? {
        return Threw(added.thrown);
      }
      PostMessage(Complete(INGESTED));
      return Returned;
    }

    method QueryEvent(messages: seq<ChatMessage>) returns (ended: Completion)
      modifies this
      ensures var e := QueryEffect(env, old(docstore), messages);
        outbox == old(outbox) + e.posted && docstore == e.store && ended == e.ended
    {
      if |docstore| == 0 {
        var result := env.llm(GREETING);
        if result.Fail? {
          return Threw(result.thrown);
        }
        PostMessage(Complete(ChatMessage(Assistant, ContentOf(result.value))));
        return Returned;
      }
      var attempt := QueryAttempt(env, docstore, messages);
      match attempt {
        case Ok(text) =>
          PostMessage(Complete(ChatMessage(Assistant, Some(text))));
        case Fail(ErrorValue(m)) =>
          PostMessage(Error(QueryErrorText(m)));
        case Fail(OtherValue(_)) =>
      }
      return Returned;
    }

    /** The message listener. */
    method OnMessage(req: Request)
      requires WellFormed(req)
      modifies this
      ensures var e := ListenerEffect(env, old(docstore), req);
        outbox == old(outbox) + e.posted && docstore == e.store
    {
      var handler := Lookup(req.kind);
      PostMessage(Log(ReceivedNotice(handler)));
      var ended: Completion;
      match handler {
        case EmbedPdfFn =>
          ended := EmbedPDF(req.pdf);
        case QueryEventFn =>
          ended := QueryEvent(req.messages.value);
        case InitString =>
          ended := Threw(ErrorValue(NOT_A_FUNCTION));
      }
      if ended.Threw? {
        PostMessage(Error(ThrownText(ended.thrown)));
      }
    }
  }
}
