/** The messages that cross the boundary between the page and the worker. */
module Protocol {
  import opened Wrappers

  /** The roles a chat turn can carry. */
  datatype Role = System | User | Assistant

  /** A chat message as the page and the worker exchange it. A `None` content
      is an `undefined` one: it arises when a model reply is a bare string and
      its `content` property is read. */
  datatype ChatMessage = ChatMessage(role: Role, content: Option<string>)

  /** A loaded or split document chunk; its metadata is not modelled. */
  datatype Document = Document(pageContent: string)

  /** The raw bytes of an uploaded PDF. */
  type Blob = seq<bv8>

  /** What the language model returns: a bare string, or a message object
      whose `content` is a string. */
  datatype Reply = TextReply(text: string) | MessageReply(content: string)

  /** The `content` property of a reply: a bare string has none. */
  function ContentOf(r: Reply): (c: Option<string>)
    ensures c.Some? <==> r.MessageReply?
    ensures r.MessageReply? ==> c == Some(r.content)
  {
    match r
    case TextReply(_) => None
    case MessageReply(c) => Some(c)
  }

  /** JavaScript's string conversion of a string-or-undefined value, as a
      template literal or a template variable produces it. */
  function JsText(v: Option<string>): string {
    match v
    case Some(s) => s
    case None => "undefined"
  }

  /** A load-progress report from the language-model runtime. */
  datatype ProgressReport = ProgressReport(progress: Option<real>, text: string)

  /** The handler the worker's dispatcher resolved: one of its two functions,
      or the fallback string "init". */
  datatype Handler = EmbedPdfFn | QueryEventFn | InitString

  /** Payloads of diagnostic `log` events. */
  datatype LogData = ReceivedNotice(handler: Handler) | Chunks(docs: seq<Document>)

  /** The events the worker posts back to the page. */
  datatype OutEvent =
    | InitProgress(report: ProgressReport)
    | Log(data: LogData)
    | Complete(message: ChatMessage)
    | Error(error: string)

  /** The fields of a worker event that the page's handlers read
      (`e.data.type`, `e.data.message`, `e.data.error`, `e.data.data.progress`). */
  datatype Envelope = Envelope(kind: string, message: Option<ChatMessage>, error: Option<string>, progress: Option<real>)

  /** How a worker event looks once it reaches the page. */
  function Encode(e: OutEvent): (env: Envelope)
    ensures e.Complete? <==> env.kind == "complete"
    ensures e.Complete? ==> env.message == Some(e.message)
    ensures e.Error? <==> env.kind == "error"
    ensures e.Error? ==> env.error == Some(e.error)
    ensures e.Log? <==> env.kind == "log"
    ensures e.InitProgress? <==> env.kind == "init_progress"
    ensures e.InitProgress? ==> env.progress == e.report.progress
  {
    match e
    case InitProgress(p) => Envelope("init_progress", None, None, p.progress)
    case Log(_) => Envelope("log", None, None, None)
    case Complete(m) => Envelope("complete", Some(m), None, None)
    case Error(s) => Envelope("error", None, Some(s), None)
  }

  /** A request the page posts to the worker: exactly `{type, messages, pdf}`. */
  datatype Request = Request(kind: string, messages: Option<seq<ChatMessage>>, pdf: Option<Blob>)
}

/** The foreign capabilities the worker drives, as oracles: each either returns
    a value or throws. */
module Oracles {
  import opened Wrappers
  import opened Protocol

  /** One turn of a prompt; a `None` content is an `undefined` template. */
  datatype Turn = Turn(role: Role, content: Option<string>)

  /** A structured prompt: ordered role/content turns. */
  type Prompt = seq<Turn>

  /** What a retriever is asked for: the query, the number of documents `k`,
      and the search keyword `lambda`. */
  datatype SearchRequest = SearchRequest(query: Option<string>, k: nat, lambda: real)

  /** The text splitter's configuration. */
  datatype SplitterConfig = SplitterConfig(chunkSize: nat, chunkOverlap: nat)

  /** The capabilities: the language model, the vector store's retriever (given
      the store's current documents), the PDF loader, the text splitter, and
      the embedding step of `addDocuments`. */
  datatype Env = Env(
    llm: Prompt -> Outcome<Reply>,
    retrieve: (seq<Document>, SearchRequest) -> Outcome<seq<Document>>,
    loadPdf: Option<Blob> -> Outcome<seq<Document>>,
    split: (SplitterConfig, seq<Document>) -> Outcome<seq<Document>>,
    embed: seq<Document> -> Outcome<()>)
}
