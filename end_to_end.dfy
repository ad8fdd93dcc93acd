/** The two sides together: what the page's hook does with the events the
    worker posts for one request. Every event is delivered while the hook's
    listener is attached. */
module EndToEnd {
  import opened Wrappers
  import opened Protocol
  import opened RagGraph
  import opened Worker
  import opened UiHook

  /** The worker's events as the page receives them; `id` is the toast id the
      toast library would hand out if a progress toast were opened. */
  function AsDelivered(events: seq<OutEvent>, id: ToastId): (ds: seq<Delivery>)
    ensures |ds| == |events|
    ensures forall i :: 0 <= i < |events| ==> ds[i] == Delivery(Encode(events[i]), id)
  {
    seq(|events|, i requires 0 <= i < |events| => Delivery(Encode(events[i]), id))
  }

  /** The chat messages carried by the `complete` events, in order. */
  function CompletedOf(events: seq<OutEvent>): seq<ChatMessage> {
    if events == [] then []
    else (if events[0].Complete? then [events[0].message] else []) + CompletedOf(events[1..])
  }

  /** Encoding keeps exactly the completed messages. */
  lemma {:induction false} DeliveryKeepsCompletions(events: seq<OutEvent>, id: ToastId)
    ensures CompletedMessages(AsDelivered(events, id)) == CompletedOf(events)
    decreases |events|
  {
    if events != [] {
      var ds := AsDelivered(events, id);
      assert ds[1..] == AsDelivered(events[1..], id);
      DeliveryKeepsCompletions(events[1..], id);
    }
  }

  /** The page's history grows by exactly the messages the worker completed. */
  lemma PageHistoryGetsCompletedMessages(st: HookState, events: seq<OutEvent>, id: ToastId)
    ensures HandleAll(st, AsDelivered(events, id)).messages == st.messages + CompletedOf(events)
  {
    HistoryIsAppendOnly(st, AsDelivered(events, id));
    DeliveryKeepsCompletions(events, id);
  }

  /** No handler of the page ever sets the loading flag. */
  lemma {:induction false} NothingSetsLoading(st: HookState, ds: seq<Delivery>)
    requires !st.isLoading
    ensures !HandleAll(st, ds).isLoading
    decreases |ds|
  {
    if ds != [] {
      NothingSetsLoading(Dispatch(st, ds[0].event, ds[0].toastId), ds[1..]);
    }
  }

  /** Whatever the request, the page leaves its loading state once the worker
      has handled it: the worker's first event is always a `log`, and the
      page's `log` handler clears the flag (before any answer has arrived). */
  lemma HandledRequestClearsLoading(env: Oracles.Env, store: seq<Document>, req: Request, st: HookState, id: ToastId)
    requires WellFormed(req)
    ensures !HandleAll(st, AsDelivered(ListenerEffect(env, store, req).posted, id)).isLoading
  {
    var ds := AsDelivered(ListenerEffect(env, store, req).posted, id);
    assert ds[0].event.kind == "log";
    NothingSetsLoading(Dispatch(st, ds[0].event, ds[0].toastId), ds[1..]);
  }

  /** A non-empty answer from the pipeline reaches the page's history as one
      assistant message, and nothing else is appended. */
  lemma QueryAnswerReachesPage(env: Oracles.Env, store: seq<Document>, messages: seq<ChatMessage>,
                               text: string, st: HookState, id: ToastId)
    requires |store| > 0
    requires GenerateRagResponse(messages, env, store) == Ok(Some(text)) && text != ""
    ensures var posted := ListenerEffect(env, store, Request("query", Some(messages), None)).posted;
      HandleAll(st, AsDelivered(posted, id)).messages == st.messages + [ChatMessage(Assistant, Some(text))]
  {
    var posted := ListenerEffect(env, store, Request("query", Some(messages), None)).posted;
    assert posted == [Log(ReceivedNotice(QueryEventFn)), Complete(ChatMessage(Assistant, Some(text)))];
    PageHistoryGetsCompletedMessages(st, posted, id);
    assert CompletedOf(posted[1..][1..]) == [];
  }

  /** A failed query adds nothing to the page's history. */
  lemma FailedQueryLeavesHistory(env: Oracles.Env, store: seq<Document>, messages: seq<ChatMessage>,
                                 t: Thrown, st: HookState, id: ToastId)
    requires |store| > 0
    requires GenerateRagResponse(messages, env, store) == Fail(t)
    ensures var posted := ListenerEffect(env, store, Request("query", Some(messages), None)).posted;
      HandleAll(st, AsDelivered(posted, id)).messages == st.messages
  {
    var posted := ListenerEffect(env, store, Request("query", Some(messages), None)).posted;
    assert forall i :: 0 <= i < |posted| ==> !posted[i].Complete?;
    NoCompletionsNoMessages(posted);
    PageHistoryGetsCompletedMessages(st, posted, id);
  }

  lemma {:induction false} NoCompletionsNoMessages(events: seq<OutEvent>)
    requires forall i :: 0 <= i < |events| ==> !events[i].Complete?
    ensures CompletedOf(events) == []
    decreases |events|
  {
    if events != [] {
      assert !events[0].Complete?;
      NoCompletionsNoMessages(events[1..]);
    }
  }

  /** A successful upload ends with the fixed confirmation in the page's history. */
  lemma IngestionConfirmedOnPage(env: Oracles.Env, store: seq<Document>, pdf: Option<Blob>, st: HookState, id: ToastId)
    requires EmbedEffect(env, store, pdf).ended.Returned?
    ensures var posted := ListenerEffect(env, store, Request("embed", None, pdf)).posted;
      HandleAll(st, AsDelivered(posted, id)).messages == st.messages + [INGESTED]
  {
    var req := Request("embed", None, pdf);
    var inner := EmbedEffect(env, store, pdf);
    var chunks := env.split(CHUNKING, env.loadPdf(pdf).value).value;
    assert inner.posted == [Log(Chunks(chunks)), Complete(INGESTED)];
    var posted := ListenerEffect(env, store, req).posted;
    assert posted == [Log(ReceivedNotice(EmbedPdfFn))] + inner.posted;
    assert posted[1..][1..] == [Complete(INGESTED)];
    assert CompletedOf(posted[1..]) == [INGESTED] by {
      assert CompletedOf(posted[1..][1..]) == [INGESTED] + CompletedOf([]);
    }
    PageHistoryGetsCompletedMessages(st, posted, id);
  }
}
