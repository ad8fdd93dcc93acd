/** The page-side hook: a reducer over the chat history, the loading flag and
    the model-loading toast, driven by the worker's events, plus the worker
    handle it creates once and the requests it forwards. The pure functions say
    what each handler does to the state; the class `LLMWorkerHook` holds the
    same state in fields that its methods update. */
module UiHook {
  import opened Wrappers
  import opened Protocol

  /** Identifiers handed out by the toast library. */
  type ToastId = nat

  /** Identifies a created worker. */
  type WorkerId = nat

  const LOADING_WEIGHTS := "Loading model weights... This may take a while"
  const EMPTY_RESPONSE := "Received empty response from AI"
  const MIN_PROGRESS: real := 0.01

  /** What the hook asks the toast library to show. */
  datatype ToastCall =
    | Opened(id: ToastId, text: string, progress: real)
    | Updated(id: ToastId, progress: real)
    | Notice(text: string)

  datatype HookState = HookState(
    messages: seq<ChatMessage>,
    isLoading: bool,
    initProgressToastId: Option<ToastId>,
    toasts: seq<ToastCall>)

  // ---------------------------------------------------------------------------
  // One handler per event type
  // ---------------------------------------------------------------------------

  /** `progress || 0.01`: a missing or zero progress is shown as 0.01. */
  function ShownProgress(progress: Option<real>): (shown: real)
    ensures progress.None? ==> shown == MIN_PROGRESS
    ensures progress.Some? && progress.value == 0.0 ==> shown == MIN_PROGRESS
    ensures progress.Some? && progress.value != 0.0 ==> shown == progress.value
  {
    if progress.Some? && progress.value != 0.0 then progress.value else MIN_PROGRESS
  }

  function OnLog(st: HookState, e: Envelope): HookState {
    st.(isLoading := false)
  }

  function OnError(st: HookState, e: Envelope): HookState {
    st.(isLoading := false, toasts := st.toasts + [Notice("Error: " + JsText(e.error))])
  }

  /** The first report opens the toast and keeps its id; later ones update it. */
  function OnInitProgress(st: HookState, e: Envelope, freshId: ToastId): HookState {
    match st.initProgressToastId
    case None =>
      st.(initProgressToastId := Some(freshId),
          toasts := st.toasts + [Opened(freshId, LOADING_WEIGHTS, ShownProgress(e.progress))])
    case Some(id) =>
      st.(toasts := st.toasts + [Updated(id, ShownProgress(e.progress))])
  }

  function OnComplete(st: HookState, e: Envelope): HookState {
    match e.message
    case Some(m) => st.(isLoading := false, messages := st.messages + [m])
    case None => st.(toasts := st.toasts + [Notice(EMPTY_RESPONSE)])
  }

  function OnUnknown(st: HookState, e: Envelope): HookState {
    st
  }

  // ---------------------------------------------------------------------------
  // Dispatch
  // ---------------------------------------------------------------------------

  datatype EventHandler = LogHandler | ErrorHandler | InitProgressHandler | CompleteHandler | UnknownHandler

  /** `eventMap[type] || eventMap["unknown"]`. */
  function HandlerFor(kind: string): (h: EventHandler)
    ensures h == LogHandler <==> kind == "log"
    ensures h == ErrorHandler <==> kind == "error"
    ensures h == InitProgressHandler <==> kind == "init_progress"
    ensures h == CompleteHandler <==> kind == "complete"
  {
    if kind == "log" then LogHandler
    else if kind == "error" then ErrorHandler
    else if kind == "init_progress" then InitProgressHandler
    else if kind == "complete" then CompleteHandler
    else UnknownHandler
  }

  predicate IsKnownKind(kind: string) {
    kind == "log" || kind == "error" || kind == "init_progress" || kind == "complete"
  }

  /** Exactly one handler runs. Only a `complete` carrying a message touches the
      history, and then only by appending it; `log`, `error` and such a
      `complete` clear the loading flag; any other type changes nothing. */
  function Dispatch(st: HookState, e: Envelope, freshId: ToastId): (r: HookState)
    ensures r.messages ==
      if e.kind == "complete" && e.message.Some? then st.messages + [e.message.value] else st.messages
    ensures r.isLoading ==
      if e.kind == "log" || e.kind == "error" || (e.kind == "complete" && e.message.Some?) then false
      else st.isLoading
    ensures e.kind != "init_progress" ==> r.initProgressToastId == st.initProgressToastId
    ensures e.kind == "init_progress" ==>
      r.initProgressToastId == if st.initProgressToastId.Some? then st.initProgressToastId else Some(freshId)
    ensures !IsKnownKind(e.kind) ==> r == st
  {
    match HandlerFor(e.kind)
    case LogHandler => OnLog(st, e)
    case ErrorHandler => OnError(st, e)
    case InitProgressHandler => OnInitProgress(st, e, freshId)
    case CompleteHandler => OnComplete(st, e)
    case UnknownHandler => OnUnknown(st, e)
  }

  // ---------------------------------------------------------------------------
  // Sequences of events
  // ---------------------------------------------------------------------------

  /** An event as delivered, with the id the toast library would hand out if
      the handler opened a toast. */
  datatype Delivery = Delivery(event: Envelope, toastId: ToastId)

  function HandleAll(st: HookState, ds: seq<Delivery>): HookState
    decreases |ds|
  {
    if ds == [] then st
    else HandleAll(Dispatch(st, ds[0].event, ds[0].toastId), ds[1..])
  }

  /** The messages carried by the `complete` events of `ds`, in order. */
  function CompletedMessages(ds: seq<Delivery>): seq<ChatMessage> {
    if ds == [] then []
    else
      var e := ds[0].event;
      (if e.kind == "complete" && e.message.Some? then [e.message.value] else []) + CompletedMessages(ds[1..])
  }

  /** The history is append-only: after any run of events it is the old history
      followed by exactly the completed messages, in delivery order. */
  lemma {:induction false} HistoryIsAppendOnly(st: HookState, ds: seq<Delivery>)
    ensures HandleAll(st, ds).messages == st.messages + CompletedMessages(ds)
    decreases |ds|
  {
    if ds != [] {
      var next := Dispatch(st, ds[0].event, ds[0].toastId);
      HistoryIsAppendOnly(next, ds[1..]);
    }
  }

  /** The id of the toast the first `init_progress` event would open. */
  function FirstProgressId(ds: seq<Delivery>): Option<ToastId> {
    if ds == [] then None
    else if ds[0].event.kind == "init_progress" then Some(ds[0].toastId)
    else FirstProgressId(ds[1..])
  }

  /** The progress toast id is set once, by the first `init_progress` event,
      and never changes afterwards. */
  lemma {:induction false} ToastIdAssignedOnce(st: HookState, ds: seq<Delivery>)
    ensures HandleAll(st, ds).initProgressToastId ==
      if st.initProgressToastId.Some? then st.initProgressToastId else FirstProgressId(ds)
    decreases |ds|
  {
    if ds != [] {
      var next := Dispatch(st, ds[0].event, ds[0].toastId);
      ToastIdAssignedOnce(next, ds[1..]);
    }
  }

  /** Later progress reports only update the open toast, at the shown progress. */
  lemma LaterProgressUpdatesSameToast(st: HookState, e: Envelope, freshId: ToastId)
    requires e.kind == "init_progress" && st.initProgressToastId.Some?
    ensures Dispatch(st, e, freshId) ==
      st.(toasts := st.toasts + [Updated(st.initProgressToastId.value, ShownProgress(e.progress))])
  {
  }

  // ---------------------------------------------------------------------------
  // The worker handle
  // ---------------------------------------------------------------------------

  /** The worker the hook created (if any), whether its message listener is
      attached, and the requests forwarded to it. */
  datatype Connection = Connection(worker: Option<WorkerId>, listening: bool, sent: seq<Request>)

  /** The mount effect: create a worker and attach the listener only when no
      worker exists yet. */
  function Mounted(c: Connection, created: WorkerId): (d: Connection)
    ensures d.worker.Some? && d.sent == c.sent
    ensures c.worker.Some? ==> d == c
    ensures c.worker.None? ==> d.worker == Some(created) && d.listening
  {
    if c.worker.None? then c.(worker := Some(created), listening := true) else c
  }

  /** The effect's cleanup: detach the listener, keep the worker. */
  function Unmounted(c: Connection): (d: Connection)
    ensures !d.listening
    ensures d.worker == c.worker && d.sent == c.sent
  {
    c.(listening := false)
  }

  /** `postMessage`: forward exactly `{type, messages, pdf}` when a worker
      exists, do nothing otherwise. */
  function Forwarded(c: Connection, kind: string, messages: Option<seq<ChatMessage>>, pdf: Option<Blob>): (d: Connection)
    ensures d.worker == c.worker && d.listening == c.listening
    ensures c.worker.None? ==> d.sent == c.sent
    ensures c.worker.Some? ==> d.sent == c.sent + [Request(kind, messages, pdf)]
  {
    if c.worker.Some? then c.(sent := c.sent + [Request(kind, messages, pdf)]) else c
  }

  /** Mounting again never creates a second worker. */
  lemma CreatedAtMostOnce(c: Connection, first: WorkerId, second: WorkerId)
    ensures Mounted(Mounted(c, first), second) == Mounted(c, first)
    ensures Mounted(Unmounted(Mounted(c, first)), second).worker == Mounted(c, first).worker
  {
  }

  /** Running the effect, its cleanup, and the effect again (as a remount does)
      keeps the first worker but leaves its listener detached. */
  lemma RemountLeavesListenerDetached(c: Connection, first: WorkerId, second: WorkerId)
    requires c.worker.None?
    ensures var d := Mounted(Unmounted(Mounted(c, first)), second);
      d.worker == Some(first) && !d.listening
  {
  }

  /** The hook's state: the React state and refs it keeps. */
  class LLMWorkerHook {
    var worker: Option<WorkerId>
    var listening: bool
    var sent: seq<Request>
    var messages: seq<ChatMessage>
    var isLoading: bool
    var initProgressToastId: Option<ToastId>
    var toasts: seq<ToastCall>

    function State(): HookState
      reads this
    {
      HookState(messages, isLoading, initProgressToastId, toasts)
    }

    function Link(): Connection
      reads this
    {
      Connection(worker, listening, sent)
    }

    constructor ()
      ensures State() == HookState([], false, None, [])
      ensures Link() == Connection(None, false, [])
    {
      worker := None;
      listening := false;
      sent := [];
      messages := [];
      isLoading := false;
      initProgressToastId := None;
      toasts := [];
    }

    method HandleLogMessage(e: Envelope)
      modifies this
      ensures State() == OnLog(old(State()), e) && Link() == old(Link())
    {
      isLoading := false;
    }

    method HandleErrorMessage(e: Envelope)
      modifies this
      ensures State() == OnError(old(State()), e) && Link() == old(Link())
    {
      isLoading := false;
      toasts := toasts + [Notice("Error: " + JsText(e.error))];
    }

    method HandleInitProgressMessage(e: Envelope, freshId: ToastId)
      modifies this
      ensures State() == OnInitProgress(old(State()), e, freshId) && Link() == old(Link())
    {
      if initProgressToastId.None? {
        initProgressToastId := Some(freshId);
        toasts := toasts + [Opened(freshId, LOADING_WEIGHTS, ShownProgress(e.progress))];
      } else {
        toasts := toasts + [Updated(initProgressToastId.value, ShownProgress(e.progress))];
      }
    }

    method HandleCompleteMessage(e: Envelope)
      modifies this
      ensures State() == OnComplete(old(State()), e) && Link() == old(Link())
    {
      if e.message.Some? {
        isLoading := false;
        messages := messages + [e.message.value];
      } else {
        toasts := toasts + [Notice(EMPTY_RESPONSE)];
      }
    }

    /** Only reports to the console: no state changes. */
    method UnknownEventType(e: Envelope)
      ensures State() == old(State())
    {
    }

    method HandleWorkerMessage(e: Envelope, freshId: ToastId)
      modifies this
      ensures State() == Dispatch(old(State()), e, freshId) && Link() == old(Link())
    {
      match HandlerFor(e.kind) {
        case LogHandler => HandleLogMessage(e);
        case ErrorHandler => HandleErrorMessage(e);
        case InitProgressHandler => HandleInitProgressMessage(e, freshId);
        case CompleteHandler => HandleCompleteMessage(e);
        case UnknownHandler => UnknownEventType(e);
      }
    }

    /** A worker event arriving: handled only while the listener is attached. */
    method Receive(e: Envelope, freshId: ToastId)
      modifies this
      ensures State() == if listening then Dispatch(old(State()), e, freshId) else old(State())
      ensures Link() == old(Link())
    {
      if listening {
        HandleWorkerMessage(e, freshId);
      }
    }

    method PostMessage(kind: string, messages: Option<seq<ChatMessage>>, pdf: Option<Blob>)
      modifies this
      ensures Link() == Forwarded(old(Link()), kind, messages, pdf) && State() == old(State())
    {
      if worker.Some? {
        sent := sent + [Request(kind, messages, pdf)];
      }
    }

    method Mount(created: WorkerId)
      modifies this
      ensures Link() == Mounted(old(Link()), created) && State() == old(State())
    {
      if worker.None? {
        worker := Some(created);
        listening := true;
      }
    }

    method Unmount()
      modifies this
      ensures Link() == Unmounted(old(Link())) && State() == old(State())
    {
      listening := false;
    }
  }
}
