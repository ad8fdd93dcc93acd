# A verified model of the in-browser RAG chat worker and its page hook

The system is a browser chat application that answers questions about an
uploaded PDF. A web worker (`src/worker.ts`) does the work:

- It ingests the PDF: load, split into 500/50 chunks, log the chunks, insert them into an in-memory vector store, confirm.
- It answers queries through a four-stage retrieval-augmented generation workflow: rephrase, retrieve, summarize, generate.
- It talks to the page only through posted events: `init_progress`, `log`, `complete` and `error`.

A React hook (`src/hooks/useLLMWorker.ts`) creates the worker once and forwards requests to it. It reduces the worker's events into the chat history, a loading flag and a model-loading toast.

The model is split into modules:

- `Wrappers` (wrappers.dfy): `Option` stands for JavaScript's `undefined`. `Thrown` is what a `throw` carries: an `Error` with its message, or any other value. `Outcome` is the result of a call that returns or throws.
- `Protocol` and `Oracles` (protocol.dfy):
  - the chat messages, the posted events and how they look on the page (`Encode`);
  - the requests the page posts;
  - the foreign capabilities as oracles that return a value or throw: the language model, the vector store's retriever and embedding step, the PDF loader and the text splitter.
- `RagGraph` (rag_graph.dfy): the workflow as an explicit finite-state machine. It has:
  - a stage enum, a routing function on the message count and the fixed edges;
  - the workflow state with its reducers: `messages` appends, every other channel keeps its last value;
  - one node function per stage, returning a partial update and the prompts it sent to the model;
  - a driver that runs the stages and records the path taken and every prompt.
- `Worker` (worker.dfy): the worker's handlers and the message listener. The pure functions `EmbedEffect`, `QueryEffect` and `ListenerEffect` say what one call posts, what the document store becomes and how the call ends. The class `RagWorker` holds the store and the outbound event log as fields. Its methods perform the same steps and are proved to agree with those functions.
- `UiHook` (ui_hook.dfy): the hook. Pure handlers and the dispatcher `Dispatch` act on a `HookState`. The worker handle is a `Connection`. The class `LLMWorkerHook` keeps the same state in fields, with one method per handler, each proved against its function.
- `EndToEnd` (end_to_end.dfy): what the hook does with the events the worker posts for one request.

The JavaScript details that decide behaviour are written out:

- `??` against `||` in the query choice;
- the truthiness of the context summary: a reply object is always truthy, while the empty string and `undefined` are falsy;
- `progress || 0.01`;
- an `undefined` value rendered into a template as the text "undefined";
- `error instanceof Error ? error.message : String(error)`;
- `error?.message || "…"`;
- calling the fallback string `"init"`, which throws a TypeError.

An inbound request of unknown type is not ignored: `events?.[type] || "init"` resolves it to the string `"init"`, calling that throws a TypeError, and the listener posts one `error` event (`Worker.UnknownTypeYieldsOneError`).

## Model

| member | source | states |
|---|---|---|
| `Protocol.ContentOf` | src/worker.ts:189 | the `content` of a model reply: present exactly for a message object, absent (undefined) for a bare string |
| `Protocol.Encode` | src/worker.ts:80-92 | each posted event reaches the page with its own `type`, and `complete` carries its message, `error` its text, `init_progress` its progress |
| `RagGraph.Route` | src/worker.ts:285-294 | the entry route goes to rephrase exactly when there is more than one message and to generate otherwise (one message or none); it never selects retrieve or summarize |
| `RagGraph.Next` | src/worker.ts:295-297 | the fixed edges rephrase → retrieve → summarize → generate; generate, and only generate, ends the graph; each edge moves one step closer to the end |
| `RagGraph.GraphPaths` | src/worker.ts:285-297 | the two paths through the graph: `[Rephrase, Retrieve, Summarize, Generate]` for more than one message, `[Generate]` otherwise |
| `RagGraph.PathVisitsEachStageOnce` | src/worker.ts:295-297 | along any path each stage is visited at most once and generate is the last stage |
| `RagGraph.PathRanks` | src/worker.ts:295-297 | every stage after a stage on a path is no farther from the end than that stage |
| `RagGraph.Apply` | src/worker.ts:265-270 | merging a node's update appends to `messages` and leaves it unchanged for any other update; `rephrasedQuestion`, `sourceDocuments` and `contextSummary` each take the value written to them and otherwise keep their previous value |
| `RagGraph.EffectiveQuery` | src/worker.ts:104-105 | the query is `rephrasedQuestion` whenever it is present, otherwise the content of the last message |
| `RagGraph.LastContent` | src/worker.ts:104-105 | the content of the last message, and undefined for an empty conversation |
| `RagGraph.EmptyRephrasingIsKept` | src/worker.ts:141-142 | an empty-string rephrasing is still used as the query (`??`), which differs from what a logical-or fallback would choose |
| `RagGraph.AsTurns` | src/worker.ts:175 | the conversation is spliced into the prompt turn by turn, with the same roles and contents |
| `RagGraph.RephrasePrompt` | src/worker.ts:170-185 | the rephrase system text, then the whole conversation turn by turn, then the latest content as a user turn |
| `RagGraph.RephraseQuestion` | src/worker.ts:162-190 | one model call with the system instruction, the conversation and the last message; the reply's `content` becomes `rephrasedQuestion`; a throw propagates unchanged |
| `RagGraph.RetrieveSourceDocuments` | src/worker.ts:98-117 | retrieval makes no model call and always writes `sourceDocuments`: the retriever's documents, or none when it throws |
| `RagGraph.RetrievesAtMostTen` | src/worker.ts:106-109 | with a retriever that honours `k`, at most 10 documents are retrieved |
| `RagGraph.JoinDocs` | src/worker.ts:144-146 | no documents join to the empty string |
| `RagGraph.JoinDocsConcat` | src/worker.ts:144-146 | the join of a concatenation is the joins of its parts separated by one blank line |
| `RagGraph.JoinDocsOrder` | src/worker.ts:144-146 | each document appears in the join wrapped in `<doc>` tags, in retrieval order, with text before it exactly when it is not first and text after it exactly when it is not last |
| `RagGraph.SummarizeContext` | src/worker.ts:120-159 | no documents: empty summary and no model call; otherwise exactly one model call on the summarize prompt, whose whole reply becomes the summary, and a throw propagates |
| `RagGraph.SummarizePrompt` | src/worker.ts:130-154 | two turns: the summarize system text, then one user turn that opens with the fixed head and the quoted query and ends with exactly the joined documents |
| `RagGraph.GeneratePrompt` | src/worker.ts:205-244 | a falsy summary gives the 2-turn general prompt with the general system text; a truthy one gives the 4-turn prompt: the persona system text, the context block around the summary, the assistant acknowledgement; the last turn is always the user query |
| `RagGraph.HasContext` | src/worker.ts:205 | JavaScript truthiness of the summary: undefined and the empty summary are falsy, a message reply is truthy, a bare-string reply is truthy exactly when it is non-empty |
| `RagGraph.GeneralPrompt` | src/worker.ts:207-214 | two turns: the general system text, then the query as a user turn |
| `RagGraph.RagPrompt` | src/worker.ts:223-243 | four turns: the persona system text, a user turn that is exactly the fixed head, the context and the fixed tail, the assistant acknowledgement, then the query as a user turn |
| `RagGraph.AsAssistantMessage` | src/worker.ts:250-254 | the reply becomes an assistant message: a bare-string reply with that string as its content, a message reply with the message's own content |
| `RagGraph.GenerateResponse` | src/worker.ts:193-255 | exactly one model call on the chosen prompt and exactly one appended assistant message; a throw propagates |
| `RagGraph.RunNode` | src/worker.ts:274-284 | only the generate node appends to the conversation; a node that throws rethrows what the model threw for some prompt |
| `RagGraph.RunFrom` | src/worker.ts:295-315 | a completed run follows the path of the graph from its start stage, makes at least one model call, and appends to the conversation exactly one message: the reply to its last call, as an assistant message |
| `RagGraph.FailedRunRethrowsModel` | src/worker.ts:98-330 | a failed run throws exactly the value the model threw for one of its prompts: retrieval swallows its own errors and no stage throws a value of its own |
| `RagGraph.Pipeline` | src/worker.ts:307-315 | the workflow is started at the stage the message count routes to, on the initial state; a completed run follows that path and appends one assistant message; a failure is a throw of the model |
| `RagGraph.GenerateRagResponse` | src/worker.ts:307-330 | the answer is present exactly when the workflow completes, and it is the content of the reply to the workflow's last model call; a stage's throw is rethrown unchanged, so a failure is always a throw of the model; the empty-result guard never fires |
| `RagGraph.ShortConversationOnlyGenerates` | src/worker.ts:285-294 | zero or one message: one model call with the general prompt, no retrieval, no rephrasing, one reply appended; when that call throws, the pipeline fails with the same value |
| `RagGraph.LongConversationRunsAllStages` | src/worker.ts:285-297 | more than one message: all four stages once each in order, the rephrase prompt first, and 3 model calls, or 2 when nothing was retrieved; the last call is the generate prompt of the state holding the summarize node's summary |
| `RagGraph.LongConversationFailures` | src/worker.ts:285-315 | more than one message: when the rephrase call, the summarize call or the generate call is the first to throw, the pipeline fails with exactly that thrown value |
| `RagGraph.NothingRetrievedMeansGeneralPrompt` | src/worker.ts:126-128 | with no documents, summarize leaves a falsy summary and generate uses the general prompt |
| `RagGraph.RetrievalFailureIsAbsorbed` | src/worker.ts:113-116 | a throwing retriever does not abort the run: it completes exactly when the general-prompt call succeeds |
| `RagGraph.HelloScenario` | src/worker.ts:285-289 | a single "Hello" is answered by one call with the general prompt |
| `Worker.EmbedEffect` | src/worker.ts:68-95 | on success it posts the chunk log and then the fixed confirmation, and the store grows by exactly the chunks; on a throw the store is unchanged and nothing is confirmed |
| `Worker.EmbedPostsInOrder` | src/worker.ts:73-92 | a successful upload posts the listener's log, the chunk log and the confirmation in that order and appends the chunks of the 500/50 split to the store |
| `Worker.ReingestDuplicatesChunks` | src/worker.ts:82 | ingesting the same PDF twice stores its chunks twice (no deduplication) |
| `Worker.QueryErrorText` | src/worker.ts:383-384 | the error text is the error's message, or the fixed text when that message is empty; it is never empty |
| `Worker.QueryAttempt` | src/worker.ts:356-377 | a successful attempt yields the pipeline's answer, which is non-empty |
| `Worker.QueryEffect` | src/worker.ts:333-388 | a query never changes the store and posts at most one event; it throws only when the store is empty; with a non-empty store it always returns |
| `Worker.EmptyStoreIgnoresConversation` | src/worker.ts:335-346 | with an empty store the user's conversation does not influence the result |
| `Worker.EmptyStoreAnswersGreeting` | src/worker.ts:335-355 | with an empty store the fixed greeting is answered by one `complete` with the reply's content, or, when the call throws, by one `error` from the listener |
| `Worker.PipelineErrorBecomesOneError` | src/worker.ts:378-386 | a pipeline that throws an `Error` posts one `error` event and no `complete` |
| `Worker.EmptyAnswerBecomesError` | src/worker.ts:368-370 | an empty answer posts the "No response generated" error instead of `complete` |
| `Worker.NonErrorThrowIsSilent` | src/worker.ts:379 | a thrown non-`Error` in the pipeline leaves only the listener's log |
| `Worker.Lookup` | src/worker.ts:390-398 | `embed` resolves to the ingestion handler, `query` to the query handler, anything else to the string "init" |
| `Worker.Invoke` | src/worker.ts:405 | calling the resolved handler: the string "init" throws a TypeError and posts nothing; a query leaves the store as it was; a handler that throws leaves the store unchanged and has posted no `complete` |
| `Worker.ThrownText` | src/worker.ts:410 | an Error is reported by its message, any other thrown value by its string form |
| `Worker.ListenerEffect` | src/worker.ts:396-413 | the listener always returns, and the first event of every request is the log naming the resolved handler; the store is the handler's, and only ingestion changes it; when the handler throws, the store is left as it was and the events are the log, the handler's own events, then one `error` with the thrown text |
| `Worker.EmbedFailureYieldsOneError` | src/worker.ts:68-95 | a failed ingestion leaves the index as it was and reaches the page as the log, the events posted before the throw, and one final `error`, with no confirmation and no other terminal event |
| `Worker.TerminalsAppend` | src/worker.ts:396-413 | the number of terminal events in a concatenation of event logs is the sum of the numbers in its parts |
| `Worker.OneTerminalPerRequest` | src/worker.ts:396-413 | every request ends with exactly one terminal event (`complete` or `error`), posted last, except a swallowed non-`Error` throw in a query, which posts none |
| `Worker.UnknownTypeYieldsOneError` | src/worker.ts:398-411 | an unknown type logs "init", posts one `error` with the TypeError's message and leaves the store unchanged |
| `Worker.LoadingEvents` | src/worker.ts:35-37 | model loading posts one `init_progress` event per progress report, in order |
| `Worker.RagWorker.constructor` | src/worker.ts:28-37 | the store starts empty and the outbox holds the loading events |
| `Worker.RagWorker.PostMessage` | src/worker.ts:80 | posting appends exactly the event to the outbox and leaves the store unchanged |
| `Worker.RagWorker.AddDocuments` | src/worker.ts:82 | all chunks are stored when embedding succeeds, none when it throws |
| `Worker.RagWorker.EmbedPDF` | src/worker.ts:68-95 | the outbox grows by, and the store becomes, what `EmbedEffect` says |
| `Worker.RagWorker.QueryEvent` | src/worker.ts:333-388 | the outbox grows by, and the store becomes, what `QueryEffect` says |
| `Worker.RagWorker.OnMessage` | src/worker.ts:396-413 | the outbox grows by, and the store becomes, what `ListenerEffect` says |
| `UiHook.ShownProgress` | src/hooks/useLLMWorker.ts:26 | a missing or zero progress is shown as 0.01, any other value as itself |
| `UiHook.HandlerFor` | src/hooks/useLLMWorker.ts:54-64 | `log`, `error`, `init_progress` and `complete` each select their own handler, and every other type selects the unknown handler |
| `UiHook.Dispatch` | src/hooks/useLLMWorker.ts:11-66 | only a `complete` with a message changes the history, by appending it; `log`, `error` and such a `complete` clear the loading flag; only `init_progress` sets the toast id, and only when none is set; any other type changes nothing |
| `UiHook.HistoryIsAppendOnly` | src/hooks/useLLMWorker.ts:38-42 | after any run of events the history is the old history followed by exactly the completed messages, in delivery order |
| `UiHook.ToastIdAssignedOnce` | src/hooks/useLLMWorker.ts:21-29 | the toast id is set once, by the first `init_progress` event, and never changes afterwards |
| `UiHook.LaterProgressUpdatesSameToast` | src/hooks/useLLMWorker.ts:30-35 | once the toast is open, a progress event only updates that toast with the shown progress |
| `UiHook.Mounted` | src/hooks/useLLMWorker.ts:73-80 | the mount effect creates a worker and attaches the listener only when none exists; otherwise it changes nothing |
| `UiHook.Unmounted` | src/hooks/useLLMWorker.ts:82-84 | the cleanup detaches the listener and keeps the worker and everything already sent |
| `UiHook.Forwarded` | src/hooks/useLLMWorker.ts:68-70 | exactly `{type, messages, pdf}` is forwarded when a worker exists, nothing otherwise |
| `UiHook.CreatedAtMostOnce` | src/hooks/useLLMWorker.ts:73-85 | mounting again, with or without a cleanup in between, never creates a second worker |
| `UiHook.RemountLeavesListenerDetached` | src/hooks/useLLMWorker.ts:73-85 | effect, cleanup and effect again keep the first worker but leave its listener detached |
| `UiHook.LLMWorkerHook.constructor` | src/hooks/useLLMWorker.ts:6-9 | no worker, empty history, not loading, no toast |
| `UiHook.LLMWorkerHook.HandleLogMessage` | src/hooks/useLLMWorker.ts:11-14 | the state becomes `OnLog` of the old state: the loading flag is cleared |
| `UiHook.LLMWorkerHook.HandleErrorMessage` | src/hooks/useLLMWorker.ts:16-19 | the state becomes `OnError` of the old state: loading cleared, one error toast |
| `UiHook.LLMWorkerHook.HandleInitProgressMessage` | src/hooks/useLLMWorker.ts:21-36 | the state becomes `OnInitProgress` of the old state |
| `UiHook.LLMWorkerHook.HandleCompleteMessage` | src/hooks/useLLMWorker.ts:38-47 | the state becomes `OnComplete` of the old state |
| `UiHook.LLMWorkerHook.HandleWorkerMessage` | src/hooks/useLLMWorker.ts:62-66 | the state becomes `Dispatch` of the old state; the worker handle is unchanged |
| `UiHook.LLMWorkerHook.UnknownEventType` | src/hooks/useLLMWorker.ts:49-52 | an event of unknown type is only reported to the console: the hook's state is unchanged |
| `UiHook.LLMWorkerHook.Receive` | src/hooks/useLLMWorker.ts:79 | an event is handled only while the listener is attached |
| `UiHook.LLMWorkerHook.PostMessage` | src/hooks/useLLMWorker.ts:68-70 | the handle becomes `Forwarded` of the old handle; the chat state is unchanged |
| `UiHook.LLMWorkerHook.Mount` | src/hooks/useLLMWorker.ts:73-80 | the handle becomes `Mounted` of the old handle |
| `UiHook.LLMWorkerHook.Unmount` | src/hooks/useLLMWorker.ts:82-84 | the cleanup detaches the listener and keeps the worker |
| `EndToEnd.AsDelivered` | src/hooks/useLLMWorker.ts:62-64 | the worker's events reach the page one for one, in order, as `Encode` shows them |
| `EndToEnd.DeliveryKeepsCompletions` | src/hooks/useLLMWorker.ts:38-42 | the completed messages the page sees are exactly those the worker posted |
| `EndToEnd.PageHistoryGetsCompletedMessages` | src/hooks/useLLMWorker.ts:38-42 | the page's history grows by exactly the messages the worker completed |
| `EndToEnd.NothingSetsLoading` | src/hooks/useLLMWorker.ts:11-47 | no handler of the page ever sets the loading flag |
| `EndToEnd.HandledRequestClearsLoading` | src/worker.ts:400-403 | whatever the request, the page leaves its loading state: the listener's first event is a `log`, which clears the flag before any answer arrives |
| `EndToEnd.QueryAnswerReachesPage` | src/worker.ts:372-375 | a non-empty answer reaches the page's history as exactly one assistant message |
| `EndToEnd.FailedQueryLeavesHistory` | src/worker.ts:378-387 | a query whose pipeline throws adds nothing to the page's history |
| `EndToEnd.NoCompletionsNoMessages` | src/hooks/useLLMWorker.ts:38-42 | a log without `complete` events carries no messages |
| `EndToEnd.IngestionConfirmedOnPage` | src/worker.ts:85-92 | a successful upload ends with the fixed confirmation appended to the page's history |

## Left out

- Language-model inference, the embedding model, the Voy vector search and PDF parsing are foreign library calls. They are oracles in `Oracles.Env`. The model is a function of the prompt, so a nondeterministic model is not captured.
- The text splitter is an oracle too. Only its 500/50 configuration is modelled, with no theorems about chunk boundaries.
- Prompt-template rendering. Prompts are sequences of role/content turns.
  - A reply object substituted for `{context}` is modelled by its content. Its rendered text is not modelled.
  - Braces in the user's own text, which the template library would treat as template syntax, are not modelled.
- The LangGraph runtime is replaced by the explicit driver `RagGraph.RunFrom`. Its channel semantics are reduced to "messages append, other channels keep the last written value". Its conversion of plain messages into message objects is not modelled.
- The tracer behind `devMode` and all `console` logging are observational only.
- The text of the listener's log (`Received data! …`) is modelled by the handler it names.
- Toast rendering, the toast theme, and the un-awaited two-second delay in the progress handler have no observable effect on state.
- Concurrency: overlapping requests racing on the shared vector store and model are not modelled. Each request runs to completion before the next one. The page's `await` of a handler is synchronous here.
- Worker.RagWorker.constructor: loading completes before any request is handled. In the worker, the listener is registered (src/worker.ts:396) only after the top-level `await model.initialize(...)` (src/worker.ts:34-36) settles. A request the page posts while the model is still loading finds no listener: it gets no log and no terminal event, and the page's loading flag is never cleared. Such requests are not modelled, so `Worker.OneTerminalPerRequest` speaks only of requests posted after loading.
- Model initialization failure at start-up is not modelled. The constructor of `Worker.RagWorker` takes the loading reports as given.
- Worker.RagWorker.OnMessage: requires `WellFormed`, so a `query` request always carries its conversation. The page always sends one. A query without messages, on a non-empty store, would fail inside the pipeline; that failure is not modelled.
- Types that name inherited object properties (such as `toString`) would resolve to built-in functions in both lookup tables. The model treats them as unknown types.
- A progress value of NaN is not representable; `ShownProgress` handles missing, zero and other values.
- `setMessages` and `setIsLoading`, returned by the hook for the page to call directly, are not modelled.
- The page component (`src/pages/index.tsx`) and the build configuration (`next.config.ts`) are not part of this model.
