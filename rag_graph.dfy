/** The retrieval-augmented generation workflow of the worker, as an explicit
    finite-state machine: an entry route on the message count, fixed edges
    rephrase -> retrieve -> summarize -> generate, one node function per stage,
    and a driver that merges each node's partial update into the state. */
module RagGraph {
  import opened Wrappers
  import opened Protocol
  import opened Oracles

  // ---------------------------------------------------------------------------
  // Stages, routing and edges
  // ---------------------------------------------------------------------------

  datatype Stage = Rephrase | Retrieve | Summarize | Generate

  /** The entry route, decided on the number of incoming messages. */
  function Route(messageCount: nat): (first: Stage)
    ensures first == Rephrase <==> messageCount > 1
    ensures first == Generate <==> messageCount <= 1
  {
    if messageCount == 1 then Generate
    else if messageCount > 1 then Rephrase
    else Generate
  }

  /** Number of edges left before the end of the graph. */
  function Remaining(stage: Stage): nat {
    match stage
    case Rephrase => 3
    case Retrieve => 2
    case Summarize => 1
    case Generate => 0
  }

  /** The unconditional edges; `None` is the end of the graph. */
  function Next(stage: Stage): (next: Option<Stage>)
    ensures next.None? <==> stage == Generate
    ensures next.Some? ==> Remaining(next.value) + 1 == Remaining(stage)
  {
    match stage
    case Rephrase => Some(Retrieve)
    case Retrieve => Some(Summarize)
    case Summarize => Some(Generate)
    case Generate => None
  }

  /** The stages visited from `stage` to the end, following the edges. */
  function PathFrom(stage: Stage): (path: seq<Stage>)
    decreases Remaining(stage)
  {
    match Next(stage)
    case None => [stage]
    case Some(n) => [stage] + PathFrom(n)
  }

  // ---------------------------------------------------------------------------
  // Workflow state and its reducers
  // ---------------------------------------------------------------------------

  /** What `contextSummary` holds: the empty string of the short-circuit, or
      the model's whole reply (the source stores the reply itself). */
  datatype Summary = EmptySummary | ModelSummary(reply: Reply)

  datatype RagState = RagState(
    messages: seq<ChatMessage>,
    rephrasedQuestion: Option<string>,
    sourceDocuments: seq<Document>,
    contextSummary: Option<Summary>)

  /** The state the graph is invoked with. */
  function Initial(messages: seq<ChatMessage>): RagState {
    RagState(messages, None, [], None)
  }

  /** The partial state a node returns. */
  datatype Update =
    | SetRephrased(question: Option<string>)
    | SetDocuments(docs: seq<Document>)
    | SetSummary(summary: Summary)
    | AppendMessages(added: seq<ChatMessage>)

  /** Merging a node's update: `messages` is appended to, every other channel
      keeps its last written value. */
  function Apply(s: RagState, u: Update): (t: RagState)
    ensures !u.AppendMessages? ==> t.messages == s.messages
    ensures u.AppendMessages? ==> t.messages == s.messages + u.added
    ensures t.rephrasedQuestion == if u.SetRephrased? then u.question else s.rephrasedQuestion
    ensures t.sourceDocuments == if u.SetDocuments? then u.docs else s.sourceDocuments
    ensures t.contextSummary == if u.SetSummary? then Some(u.summary) else s.contextSummary
  {
    match u
    case SetRephrased(q) => s.(rephrasedQuestion := q)
    case SetDocuments(d) => s.(sourceDocuments := d)
    case SetSummary(m) => s.(contextSummary := Some(m))
    case AppendMessages(ms) => s.(messages := s.messages + ms)
  }

  /** A node's result: its update and the prompts it sent to the model, in order. */
  datatype NodeOutput = NodeOutput(update: Update, calls: seq<Prompt>)

  // ---------------------------------------------------------------------------
  // The query every stage after rephrasing uses
  // ---------------------------------------------------------------------------

  /** `messages.at(-1)?.content`. */
  function LastContent(messages: seq<ChatMessage>): (c: Option<string>)
    ensures |messages| == 0 ==> c == None
    ensures |messages| > 0 ==> c == messages[|messages| - 1].content
  {
    if |messages| == 0 then None else messages[|messages| - 1].content
  }

  /** `rephrasedQuestion ?? lastContent`: a present rephrasing wins even when it
      is the empty string. */
  function EffectiveQuery(s: RagState): (q: Option<string>)
    ensures s.rephrasedQuestion.Some? ==> q == s.rephrasedQuestion
    ensures s.rephrasedQuestion.None? ==> q == LastContent(s.messages)
  {
    match s.rephrasedQuestion
    case Some(r) => Some(r)
    case None => LastContent(s.messages)
  }

  /** What `||` would have chosen instead: an empty rephrasing falls through. */
  function FalsyFallbackQuery(s: RagState): Option<string> {
    if s.rephrasedQuestion.Some? && s.rephrasedQuestion.value != "" then s.rephrasedQuestion
    else LastContent(s.messages)
  }

  lemma EmptyRephrasingIsKept(s: RagState)
    requires s.rephrasedQuestion == Some("")
    requires LastContent(s.messages) != Some("")
    ensures EffectiveQuery(s) == Some("")
    ensures EffectiveQuery(s) != FalsyFallbackQuery(s)
  {
  }

  // ---------------------------------------------------------------------------
  // Rephrase
  // ---------------------------------------------------------------------------

  const REPHRASE_SYSTEM := "Du er en AI-assistent som hjelper med å omformulere spørsmål for å gjøre dem mer søkervennlige. Hold det omformulerte spørsmålet kort og fokusert."

  /** A conversation spliced in at the `{messages}` placeholder. */
  function AsTurns(messages: seq<ChatMessage>): (turns: Prompt)
    ensures |turns| == |messages|
    ensures forall i :: 0 <= i < |messages| ==> turns[i] == Turn(messages[i].role, messages[i].content)
  {
    seq(|messages|, i requires 0 <= i < |messages| => Turn(messages[i].role, messages[i].content))
  }

  /** System instruction, the whole conversation, then the latest message as
      the question to rephrase. */
  function RephrasePrompt(messages: seq<ChatMessage>): (p: Prompt)
    ensures |p| == |messages| + 2
    ensures p[0] == Turn(System, Some(REPHRASE_SYSTEM))
    ensures p[1..|p| - 1] == AsTurns(messages)
    ensures p[|p| - 1] == Turn(User, LastContent(messages))
  {
    [Turn(System, Some(REPHRASE_SYSTEM))] + AsTurns(messages) + [Turn(User, LastContent(messages))]
  }

  function RephraseQuestion(s: RagState, env: Env): (r: Outcome<NodeOutput>)
    ensures r.Fail? <==> env.llm(RephrasePrompt(s.messages)).Fail?
    ensures r.Fail? ==> r.thrown == env.llm(RephrasePrompt(s.messages)).thrown
    ensures r.Ok? ==> r.value.calls == [RephrasePrompt(s.messages)]
    ensures r.Ok? ==> r.value.update == SetRephrased(ContentOf(env.llm(RephrasePrompt(s.messages)).value))
  {
    var prompt := RephrasePrompt(s.messages);
    match env.llm(prompt)
    case Fail(t) => Fail(t)
    case Ok(reply) => Ok(NodeOutput(SetRephrased(ContentOf(reply)), [prompt]))
  }

  // ---------------------------------------------------------------------------
  // Retrieve
  // ---------------------------------------------------------------------------

  const RETRIEVE_K: nat := 10
  const RETRIEVE_LAMBDA: real := 0.75

  function SearchFor(s: RagState): SearchRequest {
    SearchRequest(EffectiveQuery(s), RETRIEVE_K, RETRIEVE_LAMBDA)
  }

  /** The documents a retrieval yields: whatever the retriever returned, or
      none at all when it threw. */
  function Retrieved(result: Outcome<seq<Document>>): seq<Document> {
    match result
    case Ok(docs) => docs
    case Fail(_) => []
  }

  /** Retrieval never throws and never calls the model. */
  function RetrieveSourceDocuments(s: RagState, env: Env, store: seq<Document>): (r: NodeOutput)
    ensures r.calls == []
    ensures r.update.SetDocuments?
    ensures env.retrieve(store, SearchFor(s)).Fail? ==> r.update.docs == []
    ensures env.retrieve(store, SearchFor(s)).Ok? ==> r.update.docs == env.retrieve(store, SearchFor(s)).value
  {
    NodeOutput(SetDocuments(Retrieved(env.retrieve(store, SearchFor(s)))), [])
  }

  /** A retriever that honours its `k`. */
  ghost predicate HonoursK(retrieve: (seq<Document>, SearchRequest) -> Outcome<seq<Document>>) {
    forall store, req :: retrieve(store, req).Ok? ==> |retrieve(store, req).value| <= req.k
  }

  lemma RetrievesAtMostTen(s: RagState, env: Env, store: seq<Document>)
    requires HonoursK(env.retrieve)
    ensures |RetrieveSourceDocuments(s, env, store).update.docs| <= 10
  {
    var req := SearchFor(s);
    if env.retrieve(store, req).Ok? {
      assert |env.retrieve(store, req).value| <= req.k;
    }
  }

  // ---------------------------------------------------------------------------
  // Summarize
  // ---------------------------------------------------------------------------

  const SUMMARIZE_SYSTEM := "Du er en AI-assistent som hjelper til med å oppsummere kontekstdokumenter. Lag en kortfattet, sammenhengende oppsummering av de relevante dokumentene som fanger deres hovedpunkter og betydning for brukerens spørsmål."
  const SUMMARIZE_HEAD := "Vennligst oppsummer de følgende dokumentene i forhold til dette spørsmålet.: \""
  const SUMMARIZE_MIDDLE := "\"\n\nDocuments:\n "
  const DOC_SEPARATOR := "\n\n"

  function WrapDoc(d: Document): string {
    "<doc>" + d.pageContent + "</doc>"
  }

  /** Every document wrapped in `<doc>` tags, joined by a blank line. */
  function JoinDocs(docs: seq<Document>): (text: string)
    ensures |docs| == 0 ==> text == ""
  {
    if |docs| == 0 then ""
    else if |docs| == 1 then WrapDoc(docs[0])
    else WrapDoc(docs[0]) + DOC_SEPARATOR + JoinDocs(docs[1..])
  }

  /** Joining keeps the retrieval order: the join of a concatenation is the
      joins of its parts, separated by one blank line. */
  lemma {:induction false} JoinDocsConcat(a: seq<Document>, b: seq<Document>)
    requires |a| > 0 && |b| > 0
    ensures JoinDocs(a + b) == JoinDocs(a) + DOC_SEPARATOR + JoinDocs(b)
  {
    if |a| == 1 {
      assert (a + b)[1..] == b;
    } else {
      assert (a + b)[1..] == a[1..] + b;
      JoinDocsConcat(a[1..], b);
    }
  }

  /** Each document appears in the join, wrapped, in retrieval order: the
      join is that of the documents before it, a blank line, its wrapping, a
      blank line and the join of the documents after it (no blank line on a
      side with no documents). */
  lemma JoinDocsOrder(docs: seq<Document>, i: nat)
    requires i < |docs|
    ensures JoinDocs(docs) ==
      (if i == 0 then "" else JoinDocs(docs[..i]) + DOC_SEPARATOR)
      + WrapDoc(docs[i])
      + (if i == |docs| - 1 then "" else DOC_SEPARATOR + JoinDocs(docs[i + 1..]))
  {
    var after := if i == |docs| - 1 then "" else DOC_SEPARATOR + JoinDocs(docs[i + 1..]);
    JoinDocsFrom(docs, i);
    if i > 0 {
      JoinDocsSplit(docs, i);
      Regroup(JoinDocs(docs[..i]), DOC_SEPARATOR, WrapDoc(docs[i]), after);
    } else {
      assert docs[i..] == docs;
      Regroup("", "", WrapDoc(docs[i]), after);
    }
  }

  /** Regrouping a concatenation of four strings. */
  lemma Regroup(a: string, b: string, c: string, d: string)
    ensures a + b + (c + d) == (a + b) + c + d
  {
  }

  /** Cutting the documents before position `i > 0`. */
  lemma JoinDocsSplit(docs: seq<Document>, i: nat)
    requires 0 < i < |docs|
    ensures JoinDocs(docs) == JoinDocs(docs[..i]) + DOC_SEPARATOR + JoinDocs(docs[i..])
  {
    assert docs[..i] + docs[i..] == docs;
    assert JoinDocs(docs[..i] + docs[i..]) == JoinDocs(docs);
    JoinDocsConcat(docs[..i], docs[i..]);
  }

  /** The join of the documents from `i` on starts with the wrapping of
      document `i`. */
  lemma JoinDocsFrom(docs: seq<Document>, i: nat)
    requires i < |docs|
    ensures JoinDocs(docs[i..]) ==
      WrapDoc(docs[i]) + (if i == |docs| - 1 then "" else DOC_SEPARATOR + JoinDocs(docs[i + 1..]))
  {
    var rest := docs[i..];
    if i < |docs| - 1 {
      assert rest[1..] == docs[i + 1..];
      assert JoinDocs(rest) == WrapDoc(rest[0]) + DOC_SEPARATOR + JoinDocs(rest[1..]);
    } else {
      assert |rest| == 1;
      assert JoinDocs(rest) == WrapDoc(docs[i]) + "";
    }
  }

  /** The system instruction, then one user turn holding the query and every
      document, in retrieval order. */
  function SummarizePrompt(query: Option<string>, docs: seq<Document>): (p: Prompt)
    ensures |p| == 2
    ensures p[0] == Turn(System, Some(SUMMARIZE_SYSTEM))
    ensures p[1].role == User && p[1].content.Some?
    ensures SUMMARIZE_HEAD + JsText(query) + SUMMARIZE_MIDDLE <= p[1].content.value
    ensures p[1].content.value[|SUMMARIZE_HEAD + JsText(query) + SUMMARIZE_MIDDLE|..] == JoinDocs(docs)
  {
    [Turn(System, Some(SUMMARIZE_SYSTEM)),
     Turn(User, Some(SUMMARIZE_HEAD + JsText(query) + SUMMARIZE_MIDDLE + JoinDocs(docs)))]
  }

  /** No documents: an empty summary and no model call. Otherwise exactly one
      model call whose reply becomes the summary. */
  function SummarizeContext(s: RagState, env: Env): (r: Outcome<NodeOutput>)
    ensures |s.sourceDocuments| == 0 ==> r == Ok(NodeOutput(SetSummary(EmptySummary), []))
    ensures |s.sourceDocuments| > 0 ==>
      var p := SummarizePrompt(EffectiveQuery(s), s.sourceDocuments);
      && (r.Fail? <==> env.llm(p).Fail?)
      && (r.Fail? ==> r.thrown == env.llm(p).thrown)
      && (r.Ok? ==> r.value == NodeOutput(SetSummary(ModelSummary(env.llm(p).value)), [p]))
  {
    if |s.sourceDocuments| == 0 then Ok(NodeOutput(SetSummary(EmptySummary), []))
    else
      var prompt := SummarizePrompt(EffectiveQuery(s), s.sourceDocuments);
      match env.llm(prompt)
      case Fail(t) => Fail(t)
      case Ok(reply) => Ok(NodeOutput(SetSummary(ModelSummary(reply)), [prompt]))
  }

  // ---------------------------------------------------------------------------
  // Generate
  // ---------------------------------------------------------------------------

  const GENERAL_SYSTEM := "Du er en hjelpsom AI-assistent. Vennligst gi klare, informative og engasjerende svar for å hjelpe brukere med spørsmålene deres. Hvis du ikke vet noe, vær ærlig om det."
  const SYSTEM_TEMPLATE := @"Du er norsk og en erfaren forsker og hjelpsom AI-assistent, ekspert på å tolke og svare på spørsmål basert på de tilgjengelige kildene.

Når du har relevant kontekst:

Bruk den tilgjengelige konteksten for å gi nøyaktige og hjelpsomme svar
Hvis konteksten ikke fullt ut svarer på spørsmålet, si fra og forklar hvilken ytterligere informasjon som trengs
Hvis du er usikker på noe, vær ærlig om usikkerheten
Når du ikke har relevant kontekst:

Gi hjelpsomme generelle svar basert på din kunnskap
Vær samtalende og engasjerende, samtidig som du opprettholder profesjonalitet
Hvis du ikke kan svare på noe, vær ærlig om det
Streb alltid etter å være:

Klar og kortfattet
Nøyaktig og hjelpsom
Profesjonell, men vennlig
Ærlig om begrensninger"
  /** The context turn is this head, the `{context}` placeholder, then the tail. */
  const CONTEXT_HEAD := "Når du svarer meg, bruk følgende dokumenter som kontekst.:\n<context>\n"
  const CONTEXT_TAIL := "\n</context>"
  const ACKNOWLEDGEMENT := "Jeg vil hjelpe deg med å svare på spørsmålene dine ved å bruke de tilgjengelige dokumentene som kontekst. Hvis jeg ikke finner svaret i dokumentene, vil jeg nøye vurdere spørsmålet og sjekke konteksten. Hvis jeg fortsatt ikke finner svaret i konteksten, vil jeg gi et hjelpsomt generelt svar."

  /** JavaScript truthiness of `contextSummary`: undefined and the empty string
      are falsy; a reply object is always truthy. */
  predicate HasContext(summary: Option<Summary>)
    ensures HasContext(summary) ==> summary.Some? && summary.value.ModelSummary?
    ensures summary.Some? && summary.value.ModelSummary? && summary.value.reply.MessageReply? ==> HasContext(summary)
    ensures summary.Some? && summary.value.ModelSummary? && summary.value.reply.TextReply? ==>
      (HasContext(summary) <==> summary.value.reply.text != "")
  {
    match summary
    case None => false
    case Some(EmptySummary) => false
    case Some(ModelSummary(TextReply(t))) => t != ""
    case Some(ModelSummary(MessageReply(_))) => true
  }

  /** The text substituted for `{context}`. */
  function SummaryText(summary: Summary): string {
    match summary
    case EmptySummary => ""
    case ModelSummary(TextReply(t)) => t
    case ModelSummary(MessageReply(c)) => c
  }

  /** The two-turn prompt used when there is no context. */
  function GeneralPrompt(query: Option<string>): (p: Prompt)
    ensures |p| == 2 && p[0] == Turn(System, Some(GENERAL_SYSTEM)) && p[1] == Turn(User, query)
  {
    [Turn(System, Some(GENERAL_SYSTEM)), Turn(User, query)]
  }

  /** The four-turn prompt used with a context: the context sits inside the
      second turn, between its fixed head and tail. */
  function RagPrompt(context: string, query: Option<string>): (p: Prompt)
    ensures |p| == 4 && p[0] == Turn(System, Some(SYSTEM_TEMPLATE)) && p[3] == Turn(User, query)
    ensures p[1] == Turn(User, Some(CONTEXT_HEAD + context + CONTEXT_TAIL))
    ensures |p[1].content.value| == |CONTEXT_HEAD| + |context| + |CONTEXT_TAIL|
    ensures p[1].content.value[|CONTEXT_HEAD|..|CONTEXT_HEAD| + |context|] == context
    ensures p[2] == Turn(Assistant, Some(ACKNOWLEDGEMENT))
  {
    [Turn(System, Some(SYSTEM_TEMPLATE)),
     Turn(User, Some(CONTEXT_HEAD + context + CONTEXT_TAIL)),
     Turn(Assistant, Some(ACKNOWLEDGEMENT)),
     Turn(User, query)]
  }

  /** The prompt shape is chosen on the truthiness of the summary. */
  function GeneratePrompt(s: RagState): (p: Prompt)
    ensures |p| == (if HasContext(s.contextSummary) then 4 else 2)
    ensures p[0].role == System && p[|p| - 1] == Turn(User, EffectiveQuery(s))
    ensures !HasContext(s.contextSummary) ==> p[0] == Turn(System, Some(GENERAL_SYSTEM))
    ensures HasContext(s.contextSummary) ==>
      && p[0] == Turn(System, Some(SYSTEM_TEMPLATE))
      && p[1] == Turn(User, Some(CONTEXT_HEAD + SummaryText(s.contextSummary.value) + CONTEXT_TAIL))
      && p[2] == Turn(Assistant, Some(ACKNOWLEDGEMENT))
  {
    if !HasContext(s.contextSummary) then GeneralPrompt(EffectiveQuery(s))
    else RagPrompt(SummaryText(s.contextSummary.value), EffectiveQuery(s))
  }

  /** A bare-string reply is wrapped as an assistant message; a message reply
      is appended as it is. */
  function AsAssistantMessage(reply: Reply): (m: ChatMessage)
    ensures m.role == Assistant && m.content.Some?
    ensures reply.TextReply? ==> m.content == Some(reply.text)
    ensures reply.MessageReply? ==> m.content == ContentOf(reply)
  {
    match reply
    case TextReply(t) => ChatMessage(Assistant, Some(t))
    case MessageReply(c) => ChatMessage(Assistant, Some(c))
  }

  /** Exactly one model call and exactly one appended assistant message. */
  function GenerateResponse(s: RagState, env: Env): (r: Outcome<NodeOutput>)
    ensures r.Fail? <==> env.llm(GeneratePrompt(s)).Fail?
    ensures r.Fail? ==> r.thrown == env.llm(GeneratePrompt(s)).thrown
    ensures r.Ok? ==> r.value.calls == [GeneratePrompt(s)]
    ensures r.Ok? ==> r.value.update.AppendMessages? && |r.value.update.added| == 1
    ensures r.Ok? ==> r.value.update.added[0] == AsAssistantMessage(env.llm(GeneratePrompt(s)).value)
  {
    var prompt := GeneratePrompt(s);
    match env.llm(prompt)
    case Fail(t) => Fail(t)
    case Ok(reply) => Ok(NodeOutput(AppendMessages([AsAssistantMessage(reply)]), [prompt]))
  }

  // ---------------------------------------------------------------------------
  // The driver
  // ---------------------------------------------------------------------------

  /** A completed run: the final state, the stages visited, and every prompt
      sent to the model, in order. */
  datatype Run = Run(state: RagState, trace: seq<Stage>, calls: seq<Prompt>)

  function RunNode(stage: Stage, s: RagState, env: Env, store: seq<Document>): (r: Outcome<NodeOutput>)
    ensures r.Ok? && stage != Generate ==> !r.value.update.AppendMessages?
    ensures r.Fail? ==> exists p :: env.llm(p).Fail? && env.llm(p).thrown == r.thrown
  {
    match stage
    case Rephrase => RephraseQuestion(s, env)
    case Retrieve => Ok(RetrieveSourceDocuments(s, env, store))
    case Summarize => SummarizeContext(s, env)
    case Generate => GenerateResponse(s, env)
  }

  /** `after` is `before` with exactly one assistant message with content
      appended at the end. */
  ghost predicate AppendsOneReply(before: seq<ChatMessage>, after: seq<ChatMessage>) {
    && |after| == |before| + 1
    && after[..|before|] == before
    && after[|before|].role == Assistant
    && after[|before|].content.Some?
  }

  /** Runs `stage` and every stage after it; the first throw aborts the run. */
  function RunFrom(stage: Stage, s: RagState, env: Env, store: seq<Document>): (r: Outcome<Run>)
    decreases Remaining(stage)
    ensures r.Ok? ==> r.value.trace == PathFrom(stage)
    ensures r.Ok? ==> AppendsOneReply(s.messages, r.value.state.messages)
    ensures r.Ok? ==>
      && |r.value.calls| > 0
      && env.llm(r.value.calls[|r.value.calls| - 1]).Ok?
      && r.value.state.messages ==
           s.messages + [AsAssistantMessage(env.llm(r.value.calls[|r.value.calls| - 1]).value)]
  {
    match RunNode(stage, s, env, store)
    case Fail(t) => Fail(t)
    case Ok(out) =>
      var s' := Apply(s, out.update);
      match Next(stage)
      case None => Ok(Run(s', [stage], out.calls))
      case Some(n) =>
        match RunFrom(n, s', env, store)
        case Fail(t) => Fail(t)
        case Ok(rest) => Ok(Run(rest.state, [stage] + rest.trace, out.calls + rest.calls))
  }

  /** A failed run throws exactly what the model threw for one of its prompts:
      retrieval never aborts a run, and no stage makes up a value of its own. */
  lemma {:induction false} FailedRunRethrowsModel(stage: Stage, s: RagState, env: Env, store: seq<Document>)
    decreases Remaining(stage)
    ensures var r := RunFrom(stage, s, env, store);
      r.Fail? ==> exists p :: env.llm(p).Fail? && env.llm(p).thrown == r.thrown
  {
    var node := RunNode(stage, s, env, store);
    if node.Ok? {
      var n := Next(stage);
      if n.Some? {
        FailedRunRethrowsModel(n.value, Apply(s, node.value.update), env, store);
      }
    }
  }

  /** The whole pipeline: route, run, and answer with the content of the last
      message of the final state. */
  function Pipeline(messages: seq<ChatMessage>, env: Env, store: seq<Document>): (r: Outcome<Run>)
    ensures r.Ok? ==> r.value.trace == PathFrom(Route(|messages|))
    ensures r.Ok? ==> AppendsOneReply(messages, r.value.state.messages)
    ensures r.Fail? ==> exists p :: env.llm(p).Fail? && env.llm(p).thrown == r.thrown
  {
    FailedRunRethrowsModel(Route(|messages|), Initial(messages), env, store);
    RunFrom(Route(|messages|), Initial(messages), env, store)
  }

  const NO_MODEL_RESPONSE := "No response generated from the model"

  /** The answer text; a failing stage's throw propagates unchanged, and the
      guard against an empty result never fires. */
  function GenerateRagResponse(messages: seq<ChatMessage>, env: Env, store: seq<Document>): (r: Outcome<Option<string>>)
    ensures r.Ok? <==> Pipeline(messages, env, store).Ok?
    ensures r.Fail? ==> r.thrown == Pipeline(messages, env, store).thrown
    ensures r.Fail? ==> exists p :: env.llm(p).Fail? && env.llm(p).thrown == r.thrown
    ensures r.Ok? ==> r.value.Some?
    ensures r.Ok? ==>
      var calls := Pipeline(messages, env, store).value.calls;
      r.value == AsAssistantMessage(env.llm(calls[|calls| - 1]).value).content
  {
    match Pipeline(messages, env, store)
    case Fail(t) => Fail(t)
    case Ok(run) =>
      if |run.state.messages| == 0 then Fail(ErrorValue(NO_MODEL_RESPONSE))
      else Ok(run.state.messages[|run.state.messages| - 1].content)
  }

  // ---------------------------------------------------------------------------
  // Properties of the graph
  // ---------------------------------------------------------------------------

  /** The two paths through the graph. */
  lemma {:induction false} GraphPaths(messageCount: nat)
    ensures PathFrom(Route(messageCount)) ==
      if messageCount > 1 then [Rephrase, Retrieve, Summarize, Generate] else [Generate]
  {
    assert PathFrom(Generate) == [Generate];
    assert PathFrom(Summarize) == [Summarize, Generate];
    assert PathFrom(Retrieve) == [Retrieve, Summarize, Generate];
  }

  /** Along any path each stage is visited at most once and generate is last. */
  lemma {:induction false} PathVisitsEachStageOnce(stage: Stage)
    decreases Remaining(stage)
    ensures var p := PathFrom(stage);
      && p[|p| - 1] == Generate
      && forall i, j :: 0 <= i < j < |p| ==> p[i] != p[j]
  {
    match Next(stage)
    case None =>
    case Some(n) =>
      PathVisitsEachStageOnce(n);
      PathRanks(n);
      var p := PathFrom(stage);
      assert p == [stage] + PathFrom(n);
      forall i, j | 0 <= i < j < |p| ensures p[i] != p[j] {
        if i == 0 {
          assert Remaining(p[j]) <= Remaining(n);
        }
      }
  }

  /** Every stage on a path from `stage` is at most as far from the end. */
  lemma {:induction false} PathRanks(stage: Stage)
    decreases Remaining(stage)
    ensures forall i :: 0 <= i < |PathFrom(stage)| ==> Remaining(PathFrom(stage)[i]) <= Remaining(stage)
  {
    match Next(stage)
    case None =>
    case Some(n) => PathRanks(n);
  }

  /** A conversation of zero or one message goes straight to generate: one
      model call with the two-turn general prompt, no retrieval, no summary. */
  lemma ShortConversationOnlyGenerates(messages: seq<ChatMessage>, env: Env, store: seq<Document>)
    requires |messages| <= 1
    ensures var r := Pipeline(messages, env, store);
      var p := GeneralPrompt(LastContent(messages));
      && (r.Ok? <==> env.llm(p).Ok?)
      && (r.Ok? ==> r.value.trace == [Generate] && r.value.calls == [p])
      && (r.Ok? ==> r.value.state.sourceDocuments == [] && r.value.state.rephrasedQuestion == None)
      && (r.Ok? ==> r.value.state.messages == messages + [AsAssistantMessage(env.llm(p).value)])
      && (env.llm(p).Fail? ==> r == Fail(env.llm(p).thrown))
  {
    var s := Initial(messages);
    assert Route(|messages|) == Generate;
    assert GeneratePrompt(s) == GeneralPrompt(LastContent(messages));
  }

  /** A longer conversation runs rephrase, retrieve, summarize and generate,
      once each and in that order; summarize calls the model only when
      retrieval found something. */
  lemma LongConversationRunsAllStages(messages: seq<ChatMessage>, env: Env, store: seq<Document>)
    requires |messages| > 1
    ensures var r := Pipeline(messages, env, store);
      r.Ok? ==>
        && r.value.trace == [Rephrase, Retrieve, Summarize, Generate]
        && r.value.calls[0] == RephrasePrompt(messages)
        && |r.value.calls| == (if |r.value.state.sourceDocuments| == 0 then 2 else 3)
    ensures var r := Pipeline(messages, env, store);
      r.Ok? ==>
        var s0 := Initial(messages);
        && RephraseQuestion(s0, env).Ok?
        && var s1 := Apply(s0, RephraseQuestion(s0, env).value.update);
        && var s2 := Apply(s1, RetrieveSourceDocuments(s1, env, store).update);
        && SummarizeContext(s2, env).Ok?
        && var s3 := Apply(s2, SummarizeContext(s2, env).value.update);
        && r.value.calls[|r.value.calls| - 1] == GeneratePrompt(s3)
        && s3.contextSummary == Some(SummarizeContext(s2, env).value.update.summary)
  {
    var r := Pipeline(messages, env, store);
    GraphPaths(|messages|);
    if r.Ok? {
      var s0 := Initial(messages);
      var o1 := RephraseQuestion(s0, env).value;
      var s1 := Apply(s0, o1.update);
      var o2 := RetrieveSourceDocuments(s1, env, store);
      var s2 := Apply(s1, o2.update);
      var o3 := SummarizeContext(s2, env).value;
      var s3 := Apply(s2, o3.update);
      var o4 := GenerateResponse(s3, env).value;
      assert s3.sourceDocuments == s2.sourceDocuments;
      assert Apply(s3, o4.update).sourceDocuments == s2.sourceDocuments;
      assert r.value == Run(Apply(s3, o4.update), [Rephrase, Retrieve, Summarize, Generate],
                            o1.calls + (o2.calls + (o3.calls + o4.calls)));
    }
  }

  /** On a longer conversation the first stage whose model call throws ends
      the run, and the pipeline fails with exactly that thrown value. */
  lemma LongConversationFailures(messages: seq<ChatMessage>, env: Env, store: seq<Document>)
    requires |messages| > 1
    ensures env.llm(RephrasePrompt(messages)).Fail? ==>
      Pipeline(messages, env, store) == Fail(env.llm(RephrasePrompt(messages)).thrown)
    ensures var s0 := Initial(messages);
      RephraseQuestion(s0, env).Ok? ==>
        var s1 := Apply(s0, RephraseQuestion(s0, env).value.update);
        var s2 := Apply(s1, RetrieveSourceDocuments(s1, env, store).update);
        SummarizeContext(s2, env).Fail? ==>
          Pipeline(messages, env, store) == Fail(SummarizeContext(s2, env).thrown)
    ensures var s0 := Initial(messages);
      RephraseQuestion(s0, env).Ok? ==>
        var s1 := Apply(s0, RephraseQuestion(s0, env).value.update);
        var s2 := Apply(s1, RetrieveSourceDocuments(s1, env, store).update);
        SummarizeContext(s2, env).Ok? ==>
          var s3 := Apply(s2, SummarizeContext(s2, env).value.update);
          env.llm(GeneratePrompt(s3)).Fail? ==>
            Pipeline(messages, env, store) == Fail(env.llm(GeneratePrompt(s3)).thrown)
  {
    var s0 := Initial(messages);
    assert Route(|messages|) == Rephrase;
    if RephraseQuestion(s0, env).Ok? {
      var s1 := Apply(s0, RephraseQuestion(s0, env).value.update);
      var s2 := Apply(s1, RetrieveSourceDocuments(s1, env, store).update);
      assert Pipeline(messages, env, store).Fail? ==> RunFrom(Retrieve, s1, env, store).Fail?;
      if SummarizeContext(s2, env).Ok? {
        var s3 := Apply(s2, SummarizeContext(s2, env).value.update);
        assert RunFrom(Summarize, s2, env, store).Fail? ==>
          RunFrom(Summarize, s2, env, store) == RunFrom(Generate, s3, env, store);
      }
    }
  }

  /** With nothing retrieved, summarize makes no call and generate falls back
      to the two-turn general prompt. */
  lemma NothingRetrievedMeansGeneralPrompt(s: RagState, env: Env)
    requires |s.sourceDocuments| == 0
    ensures var t := Apply(s, SummarizeContext(s, env).value.update);
      GeneratePrompt(t) == GeneralPrompt(EffectiveQuery(s))
  {
  }

  /** A retriever that throws does not abort the run: the pipeline goes on with
      no documents, skips the summary call, and its result depends only on the
      rephrase and generate calls. */
  lemma RetrievalFailureIsAbsorbed(messages: seq<ChatMessage>, env: Env, store: seq<Document>)
    requires |messages| > 1
    requires env.llm(RephrasePrompt(messages)).Ok?
    requires var s1 := Apply(Initial(messages), SetRephrased(ContentOf(env.llm(RephrasePrompt(messages)).value)));
      env.retrieve(store, SearchFor(s1)).Fail?
    ensures var s1 := Apply(Initial(messages), SetRephrased(ContentOf(env.llm(RephrasePrompt(messages)).value)));
      var p := GeneralPrompt(EffectiveQuery(s1));
      Pipeline(messages, env, store).Ok? <==> env.llm(p).Ok?
  {
    var s1 := Apply(Initial(messages), SetRephrased(ContentOf(env.llm(RephrasePrompt(messages)).value)));
    var s2 := Apply(s1, RetrieveSourceDocuments(s1, env, store).update);
    assert s2.sourceDocuments == [];
    var s3 := Apply(s2, SummarizeContext(s2, env).value.update);
    assert GeneratePrompt(s3) == GeneralPrompt(EffectiveQuery(s1));
  }

  /** Scenario: a single "Hello" from the user is answered by one general call. */
  lemma HelloScenario(env: Env, store: seq<Document>)
    ensures var m := [ChatMessage(User, Some("Hello"))];
      var p := [Turn(System, Some(GENERAL_SYSTEM)), Turn(User, Some("Hello"))];
      var r := Pipeline(m, env, store);
      && (r.Ok? <==> env.llm(p).Ok?)
      && (r.Ok? ==> r.value.trace == [Generate] && r.value.calls == [p] && r.value.state.sourceDocuments == [])
  {
    ShortConversationOnlyGenerates([ChatMessage(User, Some("Hello"))], env, store);
  }
}
