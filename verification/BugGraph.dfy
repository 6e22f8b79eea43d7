/**
 The bug-diagnosis graph of knowledge/bug_graph/service.py.

 A node reads the state and returns a partial update, which the graph merges field by field.  The
 intake parser, the log platform, the code retriever, the contract enricher, the model and the clock
 are `Answers`: arbitrary, and fixed before a call.
 */
module BugGraph {
  import opened Common

  /** The keys of `BugDiagnosisState`. */
  datatype Field =
    | ConversationId | RunId | OriginalMessage | LatestMessage | NormalizedProblem
    | Environment | EnvironmentEvidence | TraceId | Service | Endpoint | RequestTime | RequestTimeEvidence
    | Symptoms | DomainHints | MissingFields | ClarificationQuestion | Status | CurrentStage
    | CreatedAt | UpdatedAt | InterruptedAt | ExpiresAt
    | LogCount | ExceptionTypes | StackFrames | LogsTruncated | LogServices | LogEndpoints
    | CodeChunkIds | CodeMatches | SwaggerOperations | DocumentChunkIds | EntityHints
    | SelectedProcedureId | SelectedProcedureVersion | ProcedureCapabilities | ProcedureObserveOnly
    | Citations | EvidenceGrade | Warnings | TerminalReason | Answer

  datatype Frame = Frame(symbol: string, file: string, line: Option<int>)

  datatype Match = Match(chunkId: string, heading: string)

  datatype Citation = LogTrace(id: string) | Code(id: string) | Document(id: string) | Swagger(id: string)

  datatype Value =
    | Nothing
    | Text(text: string)
    | Number(n: int)
    | Flag(flag: bool)
    | Moment(at: int)
    | Texts(texts: seq<string>)
    | Frames(frames: seq<Frame>)
    | Matches(matches: seq<Match>)
    | Cited(citations: seq<Citation>)

  type State = map<Field, Value>

  /** `state.get(f)`. */
  function Get(s: State, f: Field): Value { if f in s then s[f] else Nothing }

  predicate Truthy(v: Value) {
    match v
    case Nothing => false
    case Text(text) => text != ""
    case Number(n) => n != 0
    case Flag(flag) => flag
    case Moment(_) => true
    case Texts(texts) => texts != []
    case Frames(frames) => frames != []
    case Matches(matches) => matches != []
    case Cited(citations) => citations != []
  }

  /** Python's `a or b`. */
  function Or(a: Value, b: Value): Value { if Truthy(a) then a else b }

  function TextOf(v: Value): string { if v.Text? then v.text else "" }

  function TextsOf(v: Value): seq<string> { if v.Texts? then v.texts else [] }

  function CitedOf(v: Value): seq<Citation> { if v.Cited? then v.citations else [] }

  // ---- What the outside world answers ----

  datatype Intake = Intake(
    environment: Value, environmentEvidence: Value, traceId: Value, service: Value, endpoint: Value,
    requestTime: Value, requestTimeEvidence: Value, symptoms: Value, domainHints: Value)

  datatype Logs = Logs(
    traceId: string, count: nat, truncated: bool, exceptionTypes: seq<string>, services: seq<string>,
    endpoints: seq<string>, frames: seq<Frame>)

  datatype LogAnswer = Found(logs: Logs) | Failed(name: string, retryable: bool)

  datatype Procedure = Procedure(id: string, version: int, capabilities: seq<string>)

  /** A document without a chunk id is `None`. */
  datatype Contracts = Contracts(operations: seq<string>, documents: seq<Option<string>>)

  datatype Answers = Answers(
    intake: Result<Intake, ()>,
    procedure: Option<Procedure>,
    timeReadable: bool,
    logs: seq<LogAnswer>,
    entityHints: seq<string>,
    matches: Result<seq<Match>, ()>,
    enriched: Result<seq<Match>, ()>,
    contracts: Option<Result<Contracts, ()>>,
    diagnosis: Option<Result<string, ()>>,
    understoodAt: int, validatedAt: int, finalizedAt: int)

  datatype Config = Config(ttl: int, retries: int, observeOnly: bool)

  /** The reusable part of an earlier diagnosis; all `Nothing` when there is none. */
  datatype Context = Context(environment: Value, traceId: Value, requestTime: Value)

  const NO_CONTEXT := Context(Nothing, Nothing, Nothing)

  datatype Resume = Resume(message: string, run: string, inherited: Context)

  /** The entry of a run in `_evidence`. */
  datatype Evidence = Evidence(logs: Option<Logs>, code: Option<seq<Match>>, contracts: Option<Contracts>)

  const NO_EVIDENCE := Evidence(None, None, None)

  type EvidenceMap = map<string, Evidence>

  function EntryOf(ev: EvidenceMap, run: string): Evidence { if run in ev then ev[run] else NO_EVIDENCE }

  // ---- Nodes ----

  const TRACE_QUESTION := "请补充该请求的 trace ID。"
  const ENVIRONMENT_QUESTION := "请确认问题发生在开发、测试还是生产环境。"
  const BOTH_QUESTION := "请补充问题环境（开发、测试或生产）和 trace ID。"
  const SUPPLEMENT := "\n补充信息："
  const CANCEL_REPORT := "取消诊断"
  const UNAVAILABLE_ANSWER := "日志平台暂时不可用，当前无法完成 Bug 诊断。"
  const NO_LOGS_ANSWER := "最近 24 小时内没有查询到该 trace ID 的日志，请确认环境和 trace ID 是否正确。"
  const LOG_ONLY_ANSWER := "已确认日志异常，但尚未定位到足够相关的代码，暂不能确认代码根因。"
  const CODE_ANSWER := "已根据日志与代码证据完成诊断，请结合引用位置验证修复方案。"

  function Question(missing: seq<string>): string {
    if missing == ["environment", "trace_id"] then BOTH_QUESTION
    else if missing == ["environment"] then ENVIRONMENT_QUESTION
    else if missing == ["trace_id"] then TRACE_QUESTION
    else ""
  }

  /** The state that a diagnosis starts from, key by key. */
  function Initial(report: string, conversation: string, run: string, inherited: Context, now: int, c: Config): State {
    map[
      ConversationId := Text(conversation),
      RunId := Text(run),
      OriginalMessage := Text(Strip(report)),
      LatestMessage := Text(Strip(report)),
      NormalizedProblem := Text(Strip(report)),
      Environment := inherited.environment,
      EnvironmentEvidence := Text(""),
      TraceId := inherited.traceId,
      Service := Nothing,
      Endpoint := Nothing,
      RequestTime := inherited.requestTime,
      RequestTimeEvidence := Text(""),
      Symptoms := Texts([]),
      DomainHints := Texts([]),
      MissingFields := Texts([]),
      ClarificationQuestion := Text(""),
      Status := Text("running"),
      CurrentStage := Text("understand_input"),
      CreatedAt := Moment(now),
      UpdatedAt := Moment(now),
      InterruptedAt := Nothing,
      ExpiresAt := Moment(now + c.ttl),
      LogCount := Number(0),
      ExceptionTypes := Texts([]),
      StackFrames := Frames([]),
      LogsTruncated := Flag(false),
      LogServices := Texts([]),
      LogEndpoints := Texts([]),
      CodeChunkIds := Texts([]),
      CodeMatches := Matches([]),
      SwaggerOperations := Texts([]),
      DocumentChunkIds := Texts([]),
      EntityHints := Texts([]),
      SelectedProcedureId := Nothing,
      SelectedProcedureVersion := Nothing,
      ProcedureCapabilities := Texts([]),
      ProcedureObserveOnly := Flag(c.observeOnly),
      Citations := Cited([]),
      EvidenceGrade := Text("none"),
      Warnings := Texts([]),
      TerminalReason := Nothing,
      Answer := Text("")
    ]
  }

  function Missing(environment: Value, trace: Value): seq<string> {
    (if environment == Nothing then ["environment"] else []) + (if trace == Nothing then ["trace_id"] else [])
  }

  function UnderstandInput(s: State, i: Intake, now: int): State {
    IntakeValues(s, i) + Required(Or(i.environment, Get(s, Environment)), Or(i.traceId, Get(s, TraceId)), now)
  }

  function Required(environment: Value, trace: Value, now: int): State {
    map[Environment := environment, TraceId := trace, MissingFields := Texts(Missing(environment, trace)),
        ClarificationQuestion := Text(Question(Missing(environment, trace))), Status := Text("running"),
        CurrentStage := Text("understand_input"), UpdatedAt := Moment(now)]
  }

  /** What the intake says, or what is known already where it says nothing. */
  function IntakeValues(s: State, i: Intake): State {
    map f: Field | IntakeField(f) :: IntakeValue(s, i, f)
  }

  predicate IntakeField(f: Field) {
    match f
    case EnvironmentEvidence | Symptoms | DomainHints | Service | Endpoint | RequestTime | RequestTimeEvidence
       | NormalizedProblem => true
    case _ => false
  }

  function IntakeValue(s: State, i: Intake, f: Field): Value {
    match f
    case EnvironmentEvidence => i.environmentEvidence
    case Symptoms => i.symptoms
    case DomainHints => i.domainHints
    case Service => KeepIfEmpty(i.service, Get(s, Service))
    case Endpoint => KeepIfEmpty(i.endpoint, Get(s, Endpoint))
    case RequestTime => KeepIfEmpty(i.requestTime, Get(s, RequestTime))
    case RequestTimeEvidence => KeepIfEmpty(i.requestTimeEvidence, Get(s, RequestTimeEvidence))
    case _ => if NormalizedProblem in s then s[NormalizedProblem] else Get(s, OriginalMessage)
  }

  function KeepIfEmpty(new_: Value, old_: Value): Value { if !Truthy(new_) && Truthy(old_) then old_ else new_ }

  function ValidateRequiredFields(s: State, now: int, c: Config): State {
    if Truthy(Get(s, MissingFields)) then
      map[Status := Text("clarification_required"), CurrentStage := Text("interrupt_for_clarification"),
          InterruptedAt := Moment(now), ExpiresAt := Moment(now + c.ttl)]
    else map[CurrentStage := Text("select_procedure")]
  }

  function SelectProcedure(p: Option<Procedure>, c: Config): State {
    match p
    case None => map[CurrentStage := Text("select_procedure")]
    case Some(p) =>
      map[SelectedProcedureId := Text(p.id), SelectedProcedureVersion := Number(p.version),
          ProcedureCapabilities := Texts(p.capabilities), ProcedureObserveOnly := Flag(c.observeOnly),
          CurrentStage := Text("select_procedure")]
  }

  function InterruptForClarification(s: State, r: Resume): State {
    var message := Strip(r.message);
    map[
      RunId := Or(Text(r.run), Get(s, RunId)),
      OriginalMessage := Text(Strip(TextOf(Get(s, OriginalMessage)) + SUPPLEMENT + message)),
      LatestMessage := Text(message),
      Environment := Or(r.inherited.environment, Get(s, Environment)),
      TraceId := Or(r.inherited.traceId, Get(s, TraceId)),
      RequestTime := Or(r.inherited.requestTime, Get(s, RequestTime)),
      Status := Text("running"), CurrentStage := Text("understand_input")
    ]
  }

  /** The outcome of the retry loop: how often the platform was called, and the result or last error. */
  datatype LogOutcome = LogOutcome(calls: nat, found: Option<Logs>, error: Option<string>)

  function AnswerAt(logs: seq<LogAnswer>, i: nat): LogAnswer {
    if i < |logs| then logs[i] else Failed("TimeoutError", false)
  }

  function Retry(logs: seq<LogAnswer>, retries: int, i: nat, error: Option<string>): LogOutcome
    decreases retries + 1 - i
  {
    if i > retries then LogOutcome(i, None, error)
    else match AnswerAt(logs, i)
      case Found(l) => LogOutcome(i + 1, Some(l), error)
      case Failed(name, retryable) =>
        if i >= retries || !retryable then LogOutcome(i + 1, None, Some(name))
        else Retry(logs, retries, i + 1, Some(name))
  }

  function QueryTraceLogs(o: LogOutcome): State {
    match o.found
    case None =>
      map[Status := Text("unavailable"),
          TerminalReason := Text(if o.error.Some? then o.error.value else "unknown"),
          Answer := Text(UNAVAILABLE_ANSWER), CurrentStage := Text("finalize")]
    case Some(l) =>
      if l.count == 0 then
        map[Status := Text("no_logs"), TerminalReason := Text("trace_query_returned_no_logs"), LogCount := Number(0),
            Citations := Cited([LogTrace(l.traceId)]), EvidenceGrade := Text("none"),
            Answer := Text(NO_LOGS_ANSWER), CurrentStage := Text("finalize")]
      else
        map[Status := Text("running"), LogCount := Number(l.count), LogsTruncated := Flag(l.truncated),
            Citations := Cited([LogTrace(l.traceId)]), CurrentStage := Text("extract_log_signals")]
  }

  /** The frames of a dictionary keyed by the whole frame: first occurrences, in order. */
  function DistinctFrames(frames: seq<Frame>): seq<Frame> {
    if frames == [] then [] else
      var before := DistinctFrames(frames[..|frames| - 1]);
      if frames[|frames| - 1] in before then before else before + [frames[|frames| - 1]]
  }

  function ExtractLogSignals(l: Logs): State {
    map[ExceptionTypes := Texts(l.exceptionTypes), LogServices := Texts(l.services), LogEndpoints := Texts(l.endpoints),
        StackFrames := Frames(DistinctFrames(l.frames)), CurrentStage := Text("search_branch_code")]
  }

  function ChunkIds(matches: seq<Match>): seq<string> {
    if matches == [] then [] else [matches[0].chunkId] + ChunkIds(matches[1..])
  }

  function CodeCitations(matches: seq<Match>): seq<Citation> {
    if matches == [] then [] else [Code(matches[0].chunkId)] + CodeCitations(matches[1..])
  }

  function SearchBranchCode(s: State, matches: seq<Match>, hints: seq<string>): State {
    map[CodeChunkIds := Texts(ChunkIds(matches)), CodeMatches := Matches(matches),
        Citations := Cited(CitedOf(Get(s, Citations)) + CodeCitations(matches)), EntityHints := Texts(hints),
        CurrentStage := Text("enrich_code_context")]
  }

  /** Document ids that are present and not empty. */
  function DocumentIds(documents: seq<Option<string>>): seq<string> {
    if documents == [] then []
    else (if documents[0].Some? && documents[0].value != "" then [documents[0].value] else []) + DocumentIds(documents[1..])
  }

  function DocumentCitations(documents: seq<Option<string>>): seq<Citation> {
    if documents == [] then []
    else (if documents[0].Some? then [Document(documents[0].value)] else []) + DocumentCitations(documents[1..])
  }

  function SwaggerCitations(operations: seq<string>): seq<Citation> {
    if operations == [] then [] else [Swagger(operations[0])] + SwaggerCitations(operations[1..])
  }

  function InspectContractAndDocs(s: State, e: Contracts): State {
    map[SwaggerOperations := Texts(e.operations), DocumentChunkIds := Texts(DocumentIds(e.documents)),
        Citations := Cited(CitedOf(Get(s, Citations)) + DocumentCitations(e.documents) + SwaggerCitations(e.operations)),
        CurrentStage := Text("grade_evidence")]
  }

  function GradeEvidence(s: State): State {
    map[EvidenceGrade := Text(if Truthy(Get(s, SwaggerOperations)) || Truthy(Get(s, DocumentChunkIds))
                              then "contract_supported"
                              else if Truthy(Get(s, CodeChunkIds)) then "correlated"
                              else "log_only"),
        CurrentStage := Text("generate_diagnosis")]
  }

  function DeterministicAnswer(s: State): string {
    if Get(s, EvidenceGrade) == Text("log_only") then LOG_ONLY_ANSWER else CODE_ANSWER
  }

  function GenerateDiagnosis(s: State, diagnosis: Option<Result<string, ()>>): State {
    var failed := diagnosis.Some? && diagnosis.value.Err?;
    var answer := if diagnosis.Some? && diagnosis.value.Ok? then diagnosis.value.value else DeterministicAnswer(s);
    map[Answer := Text(answer), Status := Text("completed"), CurrentStage := Text("finalize")]
    + if failed then map[Warnings := Texts(TextsOf(Get(s, Warnings)) + ["diagnosis_model_unavailable"])] else map[]
  }

  // ---- The graph ----

  datatype Node =
    | Understand | Validate | Interrupt | Select | Query | Extract | Search | Enrich | Inspect | Grade | Generate
    | Finalize | End

  /** How far a node is from the end. */
  function Rank(node: Node): nat {
    match node
    case Understand => 12 case Validate => 11 case Interrupt => 10 case Select => 9 case Query => 8 case Extract => 7
    case Search => 6 case Enrich => 5 case Inspect => 4 case Grade => 3 case Generate => 2 case Finalize => 1
    case End => 0
  }

  /** Edges and conditional edges, taken on the state after the node. */
  function Successor(node: Node, s: State): (next: Node)
    ensures node != End && node != Interrupt ==> Rank(next) < Rank(node)
  {
    match node
    case Understand => Validate
    case Validate => if Truthy(Get(s, MissingFields)) then Interrupt else Select
    case Interrupt => Understand
    case Select => Query
    case Query => if Get(s, Status) == Text("no_logs") || Get(s, Status) == Text("unavailable") then Finalize else Extract
    case Extract => Search
    case Search => Enrich
    case Enrich => Inspect
    case Inspect => Grade
    case Grade => Generate
    case Generate => Finalize
    case _ => End
  }

  /** What the code search reads off the logs' own fields of the state. */
  datatype Signals = Signals(exceptions: Value, frames: Value, services: Value, endpoints: Value)

  function SignalsOf(s: State): Signals {
    Signals(Get(s, ExceptionTypes), Get(s, StackFrames), Get(s, LogServices), Get(s, LogEndpoints))
  }

  /** What a run does to the outside world. */
  datatype Event =
    | Queried(environment: Value, trace: Value, requestTime: Value)
    | Searched(logCount: Value, signals: Signals)
    | Asked(evidence: Evidence, grade: Value)

  /** A visit to a node: an update, a pause for clarification, or an exception. */
  datatype Visit =
    | Updated(update: State, evidence: EvidenceMap, events: seq<Event>)
    | Paused
    | Broke(evidence: EvidenceMap, events: seq<Event>)

  function Repeat(e: Event, n: nat): (r: seq<Event>)
    ensures |r| == n && forall i :: 0 <= i < n ==> r[i] == e
  {
    if n == 0 then [] else Repeat(e, n - 1) + [e]
  }

  function VisitQuery(s: State, ev: EvidenceMap, a: Answers, c: Config): Visit {
    if Truthy(Get(s, RequestTime)) && !a.timeReadable then Broke(ev, []) else
      var o := Retry(a.logs, c.retries, 0, None);
      var run := TextOf(Get(s, RunId));
      Updated(QueryTraceLogs(o),
              if o.found.Some? then ev[run := EntryOf(ev, run).(logs := o.found)] else ev,
              Repeat(Queried(Get(s, Environment), Get(s, TraceId), Get(s, RequestTime)), o.calls))
  }

  function VisitInspect(s: State, ev: EvidenceMap, a: Answers): Visit {
    var run := TextOf(Get(s, RunId));
    if a.contracts.None? || !Truthy(Get(s, CodeChunkIds)) then Updated(map[CurrentStage := Text("grade_evidence")], ev, [])
    else match a.contracts.value
      case Err(_) =>
        Updated(map[Warnings := Texts(TextsOf(Get(s, Warnings)) + ["contract_evidence_unavailable"]),
                    CurrentStage := Text("grade_evidence")], ev, [])
      case Ok(e) =>
        var after := ev[run := EntryOf(ev, run).(contracts := Some(e))];
        if None in e.documents then Broke(after, []) else Updated(InspectContractAndDocs(s, e), after, [])
  }

  function VisitNode(node: Node, s: State, ev: EvidenceMap, a: Answers, c: Config, resume: Option<Resume>): Visit {
    var run := TextOf(Get(s, RunId));
    match node
    case Understand =>
      if a.intake.Err? then Broke(ev, []) else Updated(UnderstandInput(s, a.intake.value, a.understoodAt), ev, [])
    case Validate => Updated(ValidateRequiredFields(s, a.validatedAt, c), ev, [])
    case Interrupt =>
      if resume.None? then Paused else Updated(InterruptForClarification(s, resume.value), ev, [])
    case Select => Updated(SelectProcedure(a.procedure, c), ev, [])
    case Query => VisitQuery(s, ev, a, c)
    case Extract =>
      if EntryOf(ev, run).logs.None? then Broke(ev, []) else Updated(ExtractLogSignals(ev[run].logs.value), ev, [])
    case Search =>
      if EntryOf(ev, run).logs.None? then Broke(ev, [])
      else if a.matches.Err? then Broke(ev, [Searched(Get(s, LogCount), SignalsOf(s))])
      else Updated(SearchBranchCode(s, a.matches.value, a.entityHints),
                   ev[run := EntryOf(ev, run).(code := Some(a.matches.value))], [Searched(Get(s, LogCount), SignalsOf(s))])
    case Enrich =>
      if a.enriched.Err? then Broke(ev, [])
      else Updated(map[CurrentStage := Text("inspect_contract_and_docs")],
                   if a.enriched.value != [] then ev[run := EntryOf(ev, run).(code := Some(a.enriched.value))] else ev, [])
    case Inspect => VisitInspect(s, ev, a)
    case Grade => Updated(GradeEvidence(s), ev, [])
    case Generate =>
      Updated(GenerateDiagnosis(s, a.diagnosis), ev,
              if a.diagnosis.Some? then [Asked(EntryOf(ev, run), Get(s, EvidenceGrade))] else [])
    case _ => Updated(map[UpdatedAt := Moment(a.finalizedAt), CurrentStage := Text("completed")], ev, [])
  }

  datatype Ending = Finished | Interrupted | Raised

  datatype Outcome = Outcome(state: State, evidence: EvidenceMap, events: seq<Event>, ending: Ending)

  /** What is left of a resume value after a node. */
  function Left(node: Node, resume: Option<Resume>): Option<Resume> { if node.Interrupt? then None else resume }

  function After(events: seq<Event>, o: Outcome): Outcome { o.(events := events + o.events) }

  /** The run of the graph from a node on; a resume value is used once. */
  function Walk(node: Node, s: State, ev: EvidenceMap, a: Answers, c: Config, resume: Option<Resume>): Outcome
    decreases resume.Some?, Rank(node)
  {
    if node.End? then Outcome(s, ev, [], Finished)
    else match VisitNode(node, s, ev, a, c, resume)
      case Paused => Outcome(s, ev, [], Interrupted)
      case Broke(ev', events) => Outcome(s, ev', events, Raised)
      case Updated(update, ev', events) =>
        After(events, Walk(Successor(node, s + update), s + update, ev', a, c, Left(node, resume)))
  }
}

/** What a walk of the graph amounts to. */
module BugGraphProofs {
  import opened Common
  import opened BugGraph

  /** What was found, and what is said about it. */
  datatype Findings = Findings(
    count: Value, code: Value, swagger: Value, documents: Value, cited: Value, grade: Value, warnings: Value,
    answer: Value)

  /** The fields that decide what a diagnosis does and may claim. */
  datatype View = View(
    run: Value, environment: Value, trace: Value, time: Value, missing: Value, question: Value, status: Value,
    interrupted: Value, expires: Value, found: Findings)

  const NO_FINDINGS := Findings(
    Number(0), Texts([]), Texts([]), Texts([]), Cited([]), Text("none"), Texts([]), Text(""))

  function FindingsOf(s: State): Findings {
    Findings(Get(s, LogCount), Get(s, CodeChunkIds), Get(s, SwaggerOperations), Get(s, DocumentChunkIds),
             Get(s, Citations), Get(s, EvidenceGrade), Get(s, Warnings), Get(s, Answer))
  }

  function ViewOf(s: State): View {
    View(Get(s, RunId), Get(s, Environment), Get(s, TraceId), Get(s, RequestTime), Get(s, MissingFields),
         Get(s, ClarificationQuestion), Get(s, Status), Get(s, InterruptedAt), Get(s, ExpiresAt), FindingsOf(s))
  }

  /** A field after an update. */
  function Pick(s: State, u: State, f: Field): Value { if f in u then u[f] else Get(s, f) }

  lemma {:induction false} MergedView(s: State, u: State)
    ensures ViewOf(s + u) ==
              View(Pick(s, u, RunId), Pick(s, u, Environment), Pick(s, u, TraceId), Pick(s, u, RequestTime),
                   Pick(s, u, MissingFields), Pick(s, u, ClarificationQuestion), Pick(s, u, Status),
                   Pick(s, u, InterruptedAt), Pick(s, u, ExpiresAt), FindingsOf(s + u))
  {
  }

  lemma {:induction false} MergedFindings(s: State, u: State)
    ensures FindingsOf(s + u) ==
              Findings(Pick(s, u, LogCount), Pick(s, u, CodeChunkIds), Pick(s, u, SwaggerOperations),
                       Pick(s, u, DocumentChunkIds), Pick(s, u, Citations), Pick(s, u, EvidenceGrade),
                       Pick(s, u, Warnings), Pick(s, u, Answer))
  {
  }

  // ---- Each node on the view ----

  lemma {:induction false} InitialEnvironment(report: string, conversation: string, run: string, x: Context, now: int,
                                              c: Config)
    ensures Get(Initial(report, conversation, run, x, now, c), Environment) == x.environment
  {
  }

  lemma {:induction false} InitialTrace(report: string, conversation: string, run: string, x: Context, now: int, c: Config)
    ensures Get(Initial(report, conversation, run, x, now, c), TraceId) == x.traceId
  {
  }

  lemma {:induction false} InitialTime(report: string, conversation: string, run: string, x: Context, now: int, c: Config)
    ensures Get(Initial(report, conversation, run, x, now, c), RequestTime) == x.requestTime
  {
  }

  lemma {:induction false} InitialRun(report: string, conversation: string, run: string, x: Context, now: int, c: Config)
    ensures Get(Initial(report, conversation, run, x, now, c), RunId) == Text(run)
  {
  }

  lemma {:induction false} InitialCase(report: string, conversation: string, run: string, x: Context, now: int, c: Config)
    ensures var s := Initial(report, conversation, run, x, now, c);
            Get(s, MissingFields) == Texts([]) && Get(s, ClarificationQuestion) == Text("")
  {
  }

  lemma {:induction false} InitialStatus(report: string, conversation: string, run: string, x: Context, now: int, c: Config)
    ensures Get(Initial(report, conversation, run, x, now, c), Status) == Text("running")
  {
  }

  lemma {:induction false} InitialNotInterrupted(report: string, conversation: string, run: string, x: Context, now: int,
                                                 c: Config)
    ensures Get(Initial(report, conversation, run, x, now, c), InterruptedAt) == Nothing
  {
  }

  lemma {:induction false} InitialExpiry(report: string, conversation: string, run: string, x: Context, now: int, c: Config)
    ensures Get(Initial(report, conversation, run, x, now, c), ExpiresAt) == Moment(now + c.ttl)
  {
  }

  lemma {:induction false} InitialEvidence(report: string, conversation: string, run: string, x: Context, now: int, c: Config)
    ensures var s := Initial(report, conversation, run, x, now, c);
            Get(s, LogCount) == Number(0) && Get(s, CodeChunkIds) == Texts([]) && Get(s, SwaggerOperations) == Texts([])
  {
  }

  lemma {:induction false} InitialClaims(report: string, conversation: string, run: string, x: Context, now: int, c: Config)
    ensures var s := Initial(report, conversation, run, x, now, c);
            Get(s, DocumentChunkIds) == Texts([]) && Get(s, Citations) == Cited([]) && Get(s, EvidenceGrade) == Text("none")
  {
  }

  lemma {:induction false} InitialWords(report: string, conversation: string, run: string, x: Context, now: int, c: Config)
    ensures var s := Initial(report, conversation, run, x, now, c);
            Get(s, Warnings) == Texts([]) && Get(s, Answer) == Text("")
  {
  }

  lemma {:induction false} InitialView(report: string, conversation: string, run: string, x: Context, now: int, c: Config)
    ensures ViewOf(Initial(report, conversation, run, x, now, c)) ==
              View(Text(run), x.environment, x.traceId, x.requestTime, Texts([]), Text(""), Text("running"), Nothing,
                   Moment(now + c.ttl), NO_FINDINGS)
  {
    InitialRun(report, conversation, run, x, now, c);
    InitialTime(report, conversation, run, x, now, c);
    InitialEnvironment(report, conversation, run, x, now, c);
    InitialTrace(report, conversation, run, x, now, c);
    InitialCase(report, conversation, run, x, now, c);
    InitialStatus(report, conversation, run, x, now, c);
    InitialNotInterrupted(report, conversation, run, x, now, c);
    InitialExpiry(report, conversation, run, x, now, c);
    InitialEvidence(report, conversation, run, x, now, c);
    InitialClaims(report, conversation, run, x, now, c);
    InitialWords(report, conversation, run, x, now, c);
  }

  /** The initial state has a value for every key that a state can have. */
  lemma {:induction false} InitialHasEveryKey(report: string, conversation: string, run: string, x: Context, now: int,
                                              c: Config, f: Field)
    ensures f in Initial(report, conversation, run, x, now, c)
  {
  }

  /** So nothing of the state before is left under it. */
  lemma {:induction false} InitialCoversAll(s: State, report: string, conversation: string, run: string, x: Context,
                                            now: int, c: Config)
    ensures s + Initial(report, conversation, run, x, now, c) == Initial(report, conversation, run, x, now, c)
  {
    var initial := Initial(report, conversation, run, x, now, c);
    forall f: Field ensures f in initial { InitialHasEveryKey(report, conversation, run, x, now, c, f); }
    MergeOver(s, initial);
  }

  lemma {:induction false} MergeOver(s: State, t: State)
    requires forall f :: f in t
    ensures s + t == t
  {
  }

  lemma {:induction false} InitialViewOver(s: State, report: string, conversation: string, run: string, x: Context,
                                           now: int, c: Config)
    ensures ViewOf(s + Initial(report, conversation, run, x, now, c)) ==
              View(Text(run), x.environment, x.traceId, x.requestTime, Texts([]), Text(""), Text("running"), Nothing,
                   Moment(now + c.ttl), NO_FINDINGS)
  {
    InitialCoversAll(s, report, conversation, run, x, now, c);
    InitialView(report, conversation, run, x, now, c);
  }

  lemma {:induction false} IntakeLeaves(s: State, i: Intake, f: Field)
    ensures !IntakeField(f) ==> Get(s + IntakeValues(s, i), f) == Get(s, f)
  {
  }

  lemma {:induction false} IntakeTime(s: State, i: Intake)
    ensures Get(s + IntakeValues(s, i), RequestTime) == KeepIfEmpty(i.requestTime, Get(s, RequestTime))
  {
  }

  lemma {:induction false} IntakeLeavesCase(s: State, i: Intake)
    ensures var t := s + IntakeValues(s, i);
            ViewOf(t) == ViewOf(s).(time := KeepIfEmpty(i.requestTime, Get(s, RequestTime)), found := FindingsOf(t))
  {
    IntakeTime(s, i);
    IntakeLeaves(s, i, RunId);
    IntakeLeaves(s, i, Environment);
    IntakeLeaves(s, i, TraceId);
    IntakeLeaves(s, i, MissingFields);
    IntakeLeaves(s, i, ClarificationQuestion);
    IntakeLeaves(s, i, Status);
    IntakeLeaves(s, i, InterruptedAt);
    IntakeLeaves(s, i, ExpiresAt);
  }

  lemma {:induction false} IntakeLeavesFindings(s: State, i: Intake)
    ensures FindingsOf(s + IntakeValues(s, i)) == FindingsOf(s)
  {
    IntakeLeaves(s, i, LogCount);
    IntakeLeaves(s, i, CodeChunkIds);
    IntakeLeaves(s, i, SwaggerOperations);
    IntakeLeaves(s, i, DocumentChunkIds);
    IntakeLeaves(s, i, Citations);
    IntakeLeaves(s, i, EvidenceGrade);
    IntakeLeaves(s, i, Warnings);
    IntakeLeaves(s, i, Answer);
  }

  lemma {:induction false} RequiredLeavesFindings(s: State, environment: Value, trace: Value, now: int)
    ensures FindingsOf(s + Required(environment, trace, now)) == FindingsOf(s)
  {
    MergedFindings(s, Required(environment, trace, now));
  }

  lemma {:induction false} RequiredView(s: State, environment: Value, trace: Value, now: int)
    ensures ViewOf(s + Required(environment, trace, now)) ==
              ViewOf(s).(environment := environment, trace := trace, missing := Texts(Missing(environment, trace)),
                         question := Text(Question(Missing(environment, trace))), status := Text("running"))
  {
    MergedView(s, Required(environment, trace, now));
    RequiredLeavesFindings(s, environment, trace, now);
  }

  lemma {:induction false} MergeTwice(s: State, t: State, u: State)
    ensures s + (t + u) == (s + t) + u
  {
  }

  /** The view after the intake. */
  function Understood(v: View, i: Intake): View {
    var environment, trace := Or(i.environment, v.environment), Or(i.traceId, v.trace);
    v.(environment := environment, trace := trace, time := KeepIfEmpty(i.requestTime, v.time),
       missing := Texts(Missing(environment, trace)),
       question := Text(Question(Missing(environment, trace))), status := Text("running"))
  }

  lemma {:induction false} UnderstandView(s: State, i: Intake, now: int)
    ensures ViewOf(s + UnderstandInput(s, i, now)) == Understood(ViewOf(s), i)
  {
    var environment, trace := Or(i.environment, Get(s, Environment)), Or(i.traceId, Get(s, TraceId));
    IntakeLeavesCase(s, i);
    IntakeLeavesFindings(s, i);
    RequiredView(s + IntakeValues(s, i), environment, trace, now);
    MergeTwice(s, IntakeValues(s, i), Required(environment, trace, now));
  }

  lemma {:induction false} ValidateView(s: State, now: int, c: Config)
    ensures ViewOf(s + ValidateRequiredFields(s, now, c)) ==
              if Truthy(Get(s, MissingFields))
              then ViewOf(s).(status := Text("clarification_required"), interrupted := Moment(now),
                              expires := Moment(now + c.ttl))
              else ViewOf(s)
  {
    MergedView(s, ValidateRequiredFields(s, now, c));
    MergedFindings(s, ValidateRequiredFields(s, now, c));
  }

  /** The view after a resume value arrived. */
  function Resumed(v: View, r: Resume): View {
    v.(run := Or(Text(r.run), v.run), environment := Or(r.inherited.environment, v.environment),
       trace := Or(r.inherited.traceId, v.trace), time := Or(r.inherited.requestTime, v.time), status := Text("running"))
  }

  /** The update writes none of the findings. */
  ghost predicate NoFinding(u: State) {
    && LogCount !in u && CodeChunkIds !in u && SwaggerOperations !in u && DocumentChunkIds !in u
    && Citations !in u && EvidenceGrade !in u && Warnings !in u && Answer !in u
  }

  lemma {:induction false} FindingsStay(s: State, u: State)
    requires NoFinding(u)
    ensures FindingsOf(s + u) == FindingsOf(s)
  {
  }

  lemma {:induction false} InterruptNoFinding(s: State, r: Resume)
    ensures NoFinding(InterruptForClarification(s, r))
  {
  }

  lemma {:induction false} InterruptLeavesFindings(s: State, r: Resume)
    ensures FindingsOf(s + InterruptForClarification(s, r)) == FindingsOf(s)
  {
    InterruptNoFinding(s, r);
    FindingsStay(s, InterruptForClarification(s, r));
  }

  lemma {:induction false} InterruptView(s: State, r: Resume)
    ensures ViewOf(s + InterruptForClarification(s, r)) == Resumed(ViewOf(s), r)
  {
    MergedView(s, InterruptForClarification(s, r));
    InterruptLeavesFindings(s, r);
  }

  lemma {:induction false} SelectView(s: State, p: Option<Procedure>, c: Config)
    ensures ViewOf(s + SelectProcedure(p, c)) == ViewOf(s)
  {
    MergedView(s, SelectProcedure(p, c));
    MergedFindings(s, SelectProcedure(p, c));
  }

  function StatusAfter(o: LogOutcome): Value {
    Text(if o.found.None? then "unavailable" else if o.found.value.count == 0 then "no_logs" else "running")
  }

  function FoundAfter(f: Findings, o: LogOutcome): Findings {
    match o.found
    case None => f.(answer := Text(UNAVAILABLE_ANSWER))
    case Some(l) =>
      var found := f.(count := Number(l.count), cited := Cited([LogTrace(l.traceId)]));
      if l.count == 0 then found.(grade := Text("none"), answer := Text(NO_LOGS_ANSWER)) else found
  }

  /** The view after the query. */
  function QueriedView(v: View, o: LogOutcome): View { v.(status := StatusAfter(o), found := FoundAfter(v.found, o)) }

  lemma {:induction false} EmptyQueryFindings(s: State, o: LogOutcome)
    requires o.found.None? || o.found.value.count == 0
    ensures FindingsOf(s + QueryTraceLogs(o)) == FoundAfter(FindingsOf(s), o)
  {
    MergedFindings(s, QueryTraceLogs(o));
  }

  lemma {:induction false} QueryFindings(s: State, o: LogOutcome)
    ensures FindingsOf(s + QueryTraceLogs(o)) == FoundAfter(FindingsOf(s), o)
  {
    if o.found.None? || o.found.value.count == 0 {
      EmptyQueryFindings(s, o);
    } else {
      MergedFindings(s, QueryTraceLogs(o));
    }
  }

  /** The update concerns the status and the findings only. */
  ghost predicate OnlyStatus(u: State) {
    && RunId !in u && Environment !in u && TraceId !in u && RequestTime !in u
    && MissingFields !in u && ClarificationQuestion !in u
    && InterruptedAt !in u && ExpiresAt !in u && Status in u
  }

  lemma {:induction false} QueryKeys(o: LogOutcome)
    ensures OnlyStatus(QueryTraceLogs(o)) && QueryTraceLogs(o)[Status] == StatusAfter(o)
  {
  }

  lemma {:induction false} StatusView(s: State, u: State)
    requires OnlyStatus(u)
    ensures ViewOf(s + u) == ViewOf(s).(status := u[Status], found := FindingsOf(s + u))
  {
    MergedView(s, u);
  }

  lemma {:induction false} QueryView(s: State, o: LogOutcome)
    ensures ViewOf(s + QueryTraceLogs(o)) == QueriedView(ViewOf(s), o)
  {
    QueryKeys(o);
    QueryFindings(s, o);
    StatusView(s, QueryTraceLogs(o));
  }

  lemma {:induction false} ExtractView(s: State, l: Logs)
    ensures ViewOf(s + ExtractLogSignals(l)) == ViewOf(s)
  {
    MergedView(s, ExtractLogSignals(l));
    MergedFindings(s, ExtractLogSignals(l));
  }

  lemma {:induction false} SearchView(s: State, m: seq<Match>, hints: seq<string>)
    ensures ViewOf(s + SearchBranchCode(s, m, hints)) == WithMatches(ViewOf(s), m)
  {
    MergedView(s, SearchBranchCode(s, m, hints));
    MergedFindings(s, SearchBranchCode(s, m, hints));
  }

  /** The view when code was searched. */
  function WithMatches(v: View, m: seq<Match>): View {
    v.(found := v.found.(code := Texts(ChunkIds(m)), cited := Cited(CitedOf(v.found.cited) + CodeCitations(m))))
  }

  /** The view with contract evidence. */
  function WithContracts(v: View, e: Contracts): View {
    v.(found := v.found.(swagger := Texts(e.operations), documents := Texts(DocumentIds(e.documents)),
                         cited := Cited(CitedOf(v.found.cited) + DocumentCitations(e.documents)
                                        + SwaggerCitations(e.operations))))
  }

  lemma {:induction false} InspectView(s: State, e: Contracts)
    ensures ViewOf(s + InspectContractAndDocs(s, e)) == WithContracts(ViewOf(s), e)
  {
    MergedView(s, InspectContractAndDocs(s, e));
    MergedFindings(s, InspectContractAndDocs(s, e));
  }

  /** The warning of a diagnosis whose model failed. */
  function ModelWarnings(a: Answers): seq<string> {
    if a.diagnosis.Some? && a.diagnosis.value.Err? then ["diagnosis_model_unavailable"] else []
  }

  /** The view after the answer was written, given the answer to use without a model. */
  function Answered(v: View, a: Answers, other: string): View {
    var answer := if a.diagnosis.Some? && a.diagnosis.value.Ok? then a.diagnosis.value.value else other;
    v.(status := Text("completed"),
       found := v.found.(answer := Text(answer), warnings := Texts(TextsOf(v.found.warnings) + ModelWarnings(a))))
  }

  lemma {:induction false} GenerateView(s: State, a: Answers)
    requires Get(s, Warnings).Texts?
    ensures ViewOf(s + GenerateDiagnosis(s, a.diagnosis)) == Answered(ViewOf(s), a, DeterministicAnswer(s))
  {
    var u := GenerateDiagnosis(s, a.diagnosis);
    MergedView(s, u);
    MergedFindings(s, u);
    assert Get(s, Warnings).texts + [] == Get(s, Warnings).texts;
  }

  lemma {:induction false} StageView(s: State, stage: string)
    ensures ViewOf(s + map[CurrentStage := Text(stage)]) == ViewOf(s)
  {
    MergedView(s, map[CurrentStage := Text(stage)]);
    MergedFindings(s, map[CurrentStage := Text(stage)]);
  }

  // ---- From each node to the end ----

  /** Contract evidence counts only when code was found and the enricher answered. */
  function ContractsUsed(code: seq<Match>, a: Answers): Contracts {
    if code != [] && a.contracts.Some? && a.contracts.value.Ok? then a.contracts.value.value else Contracts([], [])
  }

  /** The grade, read off the evidence itself. */
  function GradeFor(code: seq<Match>, e: Contracts): string {
    if code == [] then "log_only"
    else if e.operations == [] && DocumentIds(e.documents) == [] then "correlated"
    else "contract_supported"
  }

  /** The answer without a model, read off the evidence itself. */
  function PlainAnswer(code: seq<Match>): string { if code == [] then LOG_ONLY_ANSWER else CODE_ANSWER }

  /** The warning of the contract stage. */
  function ContractWarnings(code: seq<Match>, a: Answers): seq<string> {
    if code != [] && a.contracts.Some? && a.contracts.value.Err? then ["contract_evidence_unavailable"] else []
  }

  lemma {:induction false} ChunkIdsCount(m: seq<Match>)
    ensures |ChunkIds(m)| == |m|
  {
    if m != [] { ChunkIdsCount(m[1..]); }
  }

  /** One step of a walk. */
  lemma {:induction false} StepTo(node: Node, next: Node, s: State, ev: EvidenceMap, a: Answers, c: Config, r: Option<Resume>,
                                  u: State, ev': EvidenceMap, events: seq<Event>)
    requires node != End && VisitNode(node, s, ev, a, c, r) == Updated(u, ev', events) && next == Successor(node, s + u)
    ensures Walk(node, s, ev, a, c, r) == After(events, Walk(next, s + u, ev', a, c, Left(node, r)))
    ensures events == [] ==> Walk(node, s, ev, a, c, r) == Walk(next, s + u, ev', a, c, Left(node, r))
  {
    var rest := Walk(next, s + u, ev', a, c, Left(node, r));
    assert [] + rest.events == rest.events;
  }

  lemma {:induction false} FinalizeView(s: State, now: int)
    ensures ViewOf(s + map[UpdatedAt := Moment(now), CurrentStage := Text("completed")]) == ViewOf(s)
  {
    var u := map[UpdatedAt := Moment(now), CurrentStage := Text("completed")];
    MergedView(s, u);
    MergedFindings(s, u);
  }

  lemma {:induction false} FromFinalize(s: State, ev: EvidenceMap, a: Answers, c: Config, r: Option<Resume>)
    ensures var o := Walk(Finalize, s, ev, a, c, r);
            o.ending.Finished? && o.evidence == ev && o.events == [] && ViewOf(o.state) == ViewOf(s)
  {
    var u := map[UpdatedAt := Moment(a.finalizedAt), CurrentStage := Text("completed")];
    FinalizeView(s, a.finalizedAt);
    StepTo(Finalize, End, s, ev, a, c, r, u, ev, []);
  }

  /** The model call, when there is a model. */
  function AskedWith(a: Answers, evidence: Evidence, grade: Value): seq<Event> {
    if a.diagnosis.Some? then [Asked(evidence, grade)] else []
  }

  lemma {:induction false} FromGenerate(s: State, ev: EvidenceMap, a: Answers, c: Config, r: Option<Resume>)
    requires ViewOf(s).found.warnings.Texts?
    ensures var o, v := Walk(Generate, s, ev, a, c, r), ViewOf(s);
            && o.ending.Finished? && o.evidence == ev
            && o.events == AskedWith(a, EntryOf(ev, TextOf(v.run)), v.found.grade)
            && ViewOf(o.state) == Answered(v, a, DeterministicAnswer(s))
  {
    var u := GenerateDiagnosis(s, a.diagnosis);
    var events := AskedWith(a, EntryOf(ev, TextOf(ViewOf(s).run)), ViewOf(s).found.grade);
    GenerateView(s, a);
    StepTo(Generate, Finalize, s, ev, a, c, r, u, ev, events);
    FromFinalize(s + u, ev, a, c, r);
    assert events + [] == events;
  }

  /** The evidence of the code and contract stages is in the view. */
  ghost predicate Holds(v: View, code: seq<Match>, e: Contracts) {
    && v.found.code == Texts(ChunkIds(code)) && v.found.swagger == Texts(e.operations)
    && v.found.documents == Texts(DocumentIds(e.documents)) && (code == [] ==> e == Contracts([], []))
    && v.found.warnings.Texts?
  }

  function Graded(v: View, grade: string): View { v.(found := v.found.(grade := Text(grade))) }

  lemma {:induction false} GradeView(s: State, code: seq<Match>, e: Contracts)
    requires Holds(ViewOf(s), code, e)
    ensures ViewOf(s + GradeEvidence(s)) == Graded(ViewOf(s), GradeFor(code, e))
    ensures DeterministicAnswer(s + GradeEvidence(s)) == PlainAnswer(code)
  {
    ChunkIdsCount(code);
    MergedView(s, GradeEvidence(s));
    MergedFindings(s, GradeEvidence(s));
  }

  ghost predicate GradesTo(o: Outcome, v: View, ev: EvidenceMap, a: Answers, code: seq<Match>, e: Contracts) {
    && o.ending.Finished? && o.evidence == ev
    && o.events == AskedWith(a, EntryOf(ev, TextOf(v.run)), Text(GradeFor(code, e)))
    && ViewOf(o.state) == Answered(Graded(v, GradeFor(code, e)), a, PlainAnswer(code))
  }

  lemma {:induction false} FromGrade(s: State, ev: EvidenceMap, a: Answers, c: Config, r: Option<Resume>,
                                     code: seq<Match>, e: Contracts)
    requires Holds(ViewOf(s), code, e)
    ensures GradesTo(Walk(Grade, s, ev, a, c, r), ViewOf(s), ev, a, code, e)
  {
    GradeView(s, code, e);
    var u := GradeEvidence(s);
    StepTo(Grade, Generate, s, ev, a, c, r, u, ev, []);
    FromGenerate(s + u, ev, a, c, r);
  }

  /** The evidence map after the contract stage. */
  function Inspected(ev: EvidenceMap, run: string, code: seq<Match>, a: Answers): EvidenceMap {
    if code != [] && a.contracts.Some? && a.contracts.value.Ok?
    then ev[run := EntryOf(ev, run).(contracts := Some(a.contracts.value.value))] else ev
  }

  /** The view after the contract stage. */
  function InspectedView(v: View, code: seq<Match>, a: Answers): View {
    var v1 := WithContracts(v, ContractsUsed(code, a));
    v1.(found := v1.found.(warnings := Texts(TextsOf(v.found.warnings) + ContractWarnings(code, a))))
  }

  /** What the last stages make of the view. */
  function Concluded(v: View, code: seq<Match>, a: Answers): View {
    Answered(Graded(InspectedView(v, code, a), GradeFor(code, ContractsUsed(code, a))), a, PlainAnswer(code))
  }

  /** Code was searched, but no contracts yet. */
  ghost predicate HasCode(v: View, code: seq<Match>) { Holds(v, code, Contracts([], [])) && v.found.cited.Cited? }

  /** What the contract stage itself does. */
  ghost predicate InspectedBy(visit: Visit, s: State, ev: EvidenceMap, a: Answers, code: seq<Match>) {
    !visit.Paused? && visit.events == [] && visit.evidence == Inspected(ev, TextOf(ViewOf(s).run), code, a)
    && (visit.Broke? <==> None in ContractsUsed(code, a).documents)
    && (visit.Updated? ==> ViewOf(s + visit.update) == InspectedView(ViewOf(s), code, a))
  }

  lemma {:induction false} NoContracts(v: View, code: seq<Match>, a: Answers)
    requires HasCode(v, code) && !(code != [] && a.contracts.Some? && a.contracts.value.Ok?)
    ensures InspectedView(v, code, a) ==
              v.(found := v.found.(warnings := Texts(v.found.warnings.texts + ContractWarnings(code, a))))
  {
    assert v.found.cited.citations + [] + [] == v.found.cited.citations;
  }

  lemma {:induction false} WarningView(s: State, u: State, warnings: Value)
    requires u == map[Warnings := warnings, CurrentStage := Text("grade_evidence")]
    ensures ViewOf(s + u) == ViewOf(s).(found := ViewOf(s).found.(warnings := warnings))
  {
    MergedView(s, u);
    MergedFindings(s, u);
  }

  lemma {:induction false} VisitInspected(s: State, ev: EvidenceMap, a: Answers, code: seq<Match>)
    requires HasCode(ViewOf(s), code)
    ensures InspectedBy(VisitInspect(s, ev, a), s, ev, a, code)
  {
    ChunkIdsCount(code);
    var visit, warnings := VisitInspect(s, ev, a), Get(s, Warnings).texts;
    if code != [] && a.contracts.Some? && a.contracts.value.Ok? {
      InspectView(s, a.contracts.value.value);
      assert warnings + [] == warnings;
    } else {
      NoContracts(ViewOf(s), code, a);
      if code != [] && a.contracts.Some? {
        WarningView(s, visit.update, Texts(warnings + ["contract_evidence_unavailable"]));
      } else {
        StageView(s, "grade_evidence");
        assert warnings + [] == warnings;
      }
    }
  }

  /** The outcome of a walk from the contract stage on. */
  ghost predicate InspectsTo(o: Outcome, s: State, ev: EvidenceMap, a: Answers, code: seq<Match>) {
    var v, e, run := ViewOf(s), ContractsUsed(code, a), TextOf(ViewOf(s).run);
    && o.evidence == Inspected(ev, run, code, a)
    && o.ending == (if None in e.documents then Raised else Finished)
    && (o.ending.Raised? ==> o.events == [] && o.state == s)
    && (o.ending.Finished? ==>
          && o.events == AskedWith(a, EntryOf(o.evidence, run), Text(GradeFor(code, e)))
          && ViewOf(o.state) == Concluded(v, code, a))
  }

  lemma {:induction false} InspectThenGrade(visit: Visit, s: State, ev: EvidenceMap, a: Answers, code: seq<Match>, o: Outcome)
    requires InspectedBy(visit, s, ev, a, code)
    requires visit.Broke? ==> o == Outcome(s, visit.evidence, visit.events, Raised)
    requires visit.Updated? ==>
               GradesTo(o, ViewOf(s + visit.update), visit.evidence, a, code, ContractsUsed(code, a))
    ensures InspectsTo(o, s, ev, a, code)
  {
  }

  lemma {:induction false} InspectStep(s: State, ev: EvidenceMap, a: Answers, c: Config, r: Option<Resume>)
    ensures var visit, o := VisitInspect(s, ev, a), Walk(Inspect, s, ev, a, c, r);
            && (visit.Broke? ==> o == Outcome(s, visit.evidence, visit.events, Raised))
            && (visit.Updated? && visit.events == [] ==> o == Walk(Grade, s + visit.update, visit.evidence, a, c, r))
  {
    var visit := VisitInspect(s, ev, a);
    assert VisitNode(Inspect, s, ev, a, c, r) == visit;
    if visit.Updated? { StepTo(Inspect, Grade, s, ev, a, c, r, visit.update, visit.evidence, visit.events); }
  }

  lemma {:induction false} InspectedHolds(v: View, code: seq<Match>, a: Answers)
    requires HasCode(v, code)
    ensures Holds(InspectedView(v, code, a), code, ContractsUsed(code, a))
  {
  }

  lemma {:induction false} FromInspect(s: State, ev: EvidenceMap, a: Answers, c: Config, r: Option<Resume>, code: seq<Match>)
    requires HasCode(ViewOf(s), code)
    ensures InspectsTo(Walk(Inspect, s, ev, a, c, r), s, ev, a, code)
  {
    var visit := VisitInspect(s, ev, a);
    VisitInspected(s, ev, a, code);
    InspectStep(s, ev, a, c, r);
    InspectedHolds(ViewOf(s), code, a);
    if visit.Updated? { FromGrade(s + visit.update, visit.evidence, a, c, r, code, ContractsUsed(code, a)); }
    InspectThenGrade(visit, s, ev, a, code, Walk(Inspect, s, ev, a, c, r));
  }

  ghost predicate SameStage(v: View, out: View) { out.missing == v.missing && out.status == v.status }

  /** The evidence map after the enrichment stage. */
  function Enriched(ev: EvidenceMap, run: string, a: Answers): EvidenceMap {
    if a.enriched.Ok? && a.enriched.value != [] then ev[run := EntryOf(ev, run).(code := Some(a.enriched.value))] else ev
  }

  lemma {:induction false} FromEnrich(s: State, ev: EvidenceMap, a: Answers, c: Config, r: Option<Resume>, code: seq<Match>)
    requires HasCode(ViewOf(s), code)
    ensures var o, v, e, run := Walk(Enrich, s, ev, a, c, r), ViewOf(s), ContractsUsed(code, a), TextOf(ViewOf(s).run);
            && o.ending == (if a.enriched.Err? || None in e.documents then Raised else Finished)
            && (o.ending.Raised? ==> o.events == [] && SameStage(v, ViewOf(o.state)))
            && (o.ending.Finished? ==>
                  && o.evidence == Inspected(Enriched(ev, run, a), run, code, a)
                  && o.events == AskedWith(a, EntryOf(o.evidence, run), Text(GradeFor(code, e)))
                  && ViewOf(o.state) == Concluded(v, code, a))
  {
    if a.enriched.Ok? {
      var u := map[CurrentStage := Text("inspect_contract_and_docs")];
      StageView(s, "inspect_contract_and_docs");
      StepTo(Enrich, Inspect, s, ev, a, c, r, u, Enriched(ev, TextOf(ViewOf(s).run), a), []);
      FromInspect(s + u, Enriched(ev, TextOf(ViewOf(s).run), a), a, c, r, code);
    }
  }

  /** What the code stages do with an evidence entry. */
  function WithCode(ev: EvidenceMap, run: string, a: Answers): EvidenceMap
    requires a.matches.Ok?
  {
    Inspected(Enriched(ev[run := EntryOf(ev, run).(code := Some(a.matches.value))], run, a), run, a.matches.value, a)
  }

  /** The code stages answered: no exception. */
  predicate CodeStagesAnswer(a: Answers) {
    a.matches.Ok? && a.enriched.Ok? && None !in ContractsUsed(a.matches.value, a).documents
  }

  /** The state knows no code or contract evidence yet. */
  ghost predicate Unsearched(v: View) {
    v.found.swagger == Texts([]) && v.found.documents == Texts([]) && v.found.cited.Cited? && v.found.warnings.Texts?
  }

  lemma {:induction false} FromSearch(s: State, ev: EvidenceMap, a: Answers, c: Config, r: Option<Resume>)
    requires Unsearched(ViewOf(s))
    requires EntryOf(ev, TextOf(ViewOf(s).run)).logs.Some?
    ensures var o, v, run := Walk(Search, s, ev, a, c, r), ViewOf(s), TextOf(ViewOf(s).run);
            && o.ending == (if CodeStagesAnswer(a) then Finished else Raised)
            && (o.ending.Raised? ==> o.events == [Searched(v.found.count, SignalsOf(s))] && SameStage(v, ViewOf(o.state)))
            && (o.ending.Finished? ==>
                  var code, e := a.matches.value, ContractsUsed(a.matches.value, a);
                  && o.evidence == WithCode(ev, run, a)
                  && o.events == [Searched(v.found.count, SignalsOf(s))]
                                 + AskedWith(a, EntryOf(o.evidence, run), Text(GradeFor(code, e)))
                  && ViewOf(o.state) == Concluded(WithMatches(v, code), code, a))
  {
    var v, run := ViewOf(s), TextOf(ViewOf(s).run);
    if a.matches.Ok? {
      var m := a.matches.value;
      var u := SearchBranchCode(s, m, a.entityHints);
      var ev1 := ev[run := EntryOf(ev, run).(code := Some(m))];
      StepTo(Search, Enrich, s, ev, a, c, r, u, ev1, [Searched(v.found.count, SignalsOf(s))]);
      SearchView(s, m, a.entityHints);
      FromEnrich(s + u, ev1, a, c, r, m);
    }
  }

  /** The signals of the logs. */
  function LogSignals(l: Logs): Signals {
    Signals(Texts(l.exceptionTypes), Frames(DistinctFrames(l.frames)), Texts(l.services), Texts(l.endpoints))
  }

  lemma {:induction false} ExtractSignals(s: State, l: Logs)
    ensures SignalsOf(s + ExtractLogSignals(l)) == LogSignals(l)
  {
  }

  lemma {:induction false} FromExtract(s: State, ev: EvidenceMap, a: Answers, c: Config, r: Option<Resume>)
    requires Unsearched(ViewOf(s))
    requires EntryOf(ev, TextOf(ViewOf(s).run)).logs.Some?
    ensures var o, v, run := Walk(Extract, s, ev, a, c, r), ViewOf(s), TextOf(ViewOf(s).run);
            && o.ending == (if CodeStagesAnswer(a) then Finished else Raised)
            && (o.ending.Raised? ==>
                  && o.events == [Searched(v.found.count, LogSignals(EntryOf(ev, run).logs.value))]
                  && SameStage(v, ViewOf(o.state)))
            && (o.ending.Finished? ==>
                  var code, e := a.matches.value, ContractsUsed(a.matches.value, a);
                  && o.evidence == WithCode(ev, run, a)
                  && o.events == [Searched(v.found.count, LogSignals(EntryOf(ev, run).logs.value))]
                                 + AskedWith(a, EntryOf(o.evidence, run), Text(GradeFor(code, e)))
                  && ViewOf(o.state) == Concluded(WithMatches(v, code), code, a))
  {
    var l := ev[TextOf(ViewOf(s).run)].logs.value;
    var u := ExtractLogSignals(l);
    ExtractView(s, l);
    ExtractSignals(s, l);
    StepTo(Extract, Search, s, ev, a, c, r, u, ev, []);
    FromSearch(s + u, ev, a, c, r);
  }

  lemma {:induction false} VisitGrows(node: Node, s: State, ev: EvidenceMap, a: Answers, c: Config, r: Option<Resume>)
    ensures var visit := VisitNode(node, s, ev, a, c, r); visit.Paused? || ev.Keys <= visit.evidence.Keys
  {
  }

  lemma {:induction false} EntriesStay(node: Node, s: State, ev: EvidenceMap, a: Answers, c: Config, r: Option<Resume>)
    ensures ev.Keys <= Walk(node, s, ev, a, c, r).evidence.Keys
    decreases r.Some?, Rank(node)
  {
    var visit := VisitNode(node, s, ev, a, c, r);
    VisitGrows(node, s, ev, a, c, r);
    if !node.End? && visit.Updated? {
      EntriesStay(Successor(node, s + visit.update), s + visit.update, visit.evidence, a, c, Left(node, r));
    }
  }

  // ---- The retry loop ----

  /** The platform was called at least once (when retries allow a call), at most `retries + 1` times,
      and every call before the last failed in a retryable way. */
  lemma {:induction false} RetriesStop(logs: seq<LogAnswer>, retries: int, i: nat, error: Option<string>)
    requires i <= retries + 1 || i == 0
    ensures var o := Retry(logs, retries, i, error);
            && i <= o.calls
            && (retries >= 0 ==> o.calls <= retries + 1)
            && (retries < 0 ==> o.calls == i && o.found.None?)
            && (forall k :: i <= k < o.calls - 1 ==> AnswerAt(logs, k).Failed? && AnswerAt(logs, k).retryable)
            && (o.calls > i ==>
                  var last := AnswerAt(logs, o.calls - 1);
                  && (o.found.Some? <==> last.Found?)
                  && (last.Found? ==> o.found == Some(last.logs))
                  && (last.Failed? ==> (!last.retryable || o.calls == retries + 1) && o.error == Some(last.name)))
            && (o.calls == i ==> i > retries && o.found.None?)
    decreases retries + 1 - i
  {
    if i <= retries && AnswerAt(logs, i).Failed? && i < retries && AnswerAt(logs, i).retryable {
      RetriesStop(logs, retries, i + 1, Some(AnswerAt(logs, i).name));
    }
  }

  /** What the query stage found. */
  function LogsOf(a: Answers, c: Config): LogOutcome { Retry(a.logs, c.retries, 0, None) }

  // ---- From the query to the end ----

  /** Nothing of an earlier diagnosis is in the state. */
  ghost predicate Clean(v: View) { v.found == NO_FINDINGS }

  /** Everything that a run from the query stage on may do: the reference description of the graph. */
  ghost predicate Diagnosed(v: View, ev: EvidenceMap, a: Answers, c: Config, o: Outcome) {
    var l, run := LogsOf(a, c), TextOf(v.run);
    var queried := Repeat(Queried(v.environment, v.trace, v.time), l.calls);
    var ev1 := if l.found.Some? then ev[run := EntryOf(ev, run).(logs := l.found)] else ev;
    var found := QueriedView(v, l);
    if l.found.None? || l.found.value.count == 0 then
      o.ending.Finished? && o.evidence == ev1 && o.events == queried && ViewOf(o.state) == found
    else
      && o.ending == (if CodeStagesAnswer(a) then Finished else Raised)
      && (o.ending.Raised? ==>
            && o.events == queried + [Searched(found.found.count, LogSignals(l.found.value))]
            && run in o.evidence && SameStage(found, ViewOf(o.state)))
      && (o.ending.Finished? ==>
            var code, e := a.matches.value, ContractsUsed(a.matches.value, a);
            && o.evidence == WithCode(ev1, run, a)
            && o.events == queried + ([Searched(found.found.count, LogSignals(l.found.value))]
                                      + AskedWith(a, EntryOf(o.evidence, run), Text(GradeFor(code, e))))
            && ViewOf(o.state) == Concluded(WithMatches(found, code), code, a))
  }

  lemma {:induction false} FromQueryWithLogs(s: State, ev: EvidenceMap, a: Answers, c: Config, r: Option<Resume>)
    requires Clean(ViewOf(s)) && (Truthy(Get(s, RequestTime)) ==> a.timeReadable)
    requires LogsOf(a, c).found.Some? && LogsOf(a, c).found.value.count > 0
    ensures Diagnosed(ViewOf(s), ev, a, c, Walk(Query, s, ev, a, c, r))
  {
    var v, l, run := ViewOf(s), LogsOf(a, c), TextOf(ViewOf(s).run);
    var u, ev1 := QueryTraceLogs(l), ev[run := EntryOf(ev, run).(logs := l.found)];
    var queried := Repeat(Queried(v.environment, v.trace, v.time), l.calls);
    QueryView(s, l);
    assert ViewOf(s + u).status == Text("running");
    StepTo(Query, Extract, s, ev, a, c, r, u, ev1, queried);
    FromExtract(s + u, ev1, a, c, r);
    EntriesStay(Extract, s + u, ev1, a, c, r);
  }

  lemma {:induction false} FromQueryWithout(s: State, ev: EvidenceMap, a: Answers, c: Config, r: Option<Resume>)
    requires Clean(ViewOf(s)) && (Truthy(Get(s, RequestTime)) ==> a.timeReadable)
    requires LogsOf(a, c).found.Some? ==> LogsOf(a, c).found.value.count == 0
    ensures Diagnosed(ViewOf(s), ev, a, c, Walk(Query, s, ev, a, c, r))
  {
    var v, l, run := ViewOf(s), LogsOf(a, c), TextOf(ViewOf(s).run);
    var u, ev1 := QueryTraceLogs(l), if l.found.Some? then ev[run := EntryOf(ev, run).(logs := l.found)] else ev;
    var queried := Repeat(Queried(v.environment, v.trace, v.time), l.calls);
    QueryView(s, l);
    assert ViewOf(s + u).status != Text("running");
    StepTo(Query, Finalize, s, ev, a, c, r, u, ev1, queried);
    FromFinalize(s + u, ev1, a, c, r);
    assert queried + [] == queried;
  }

  lemma {:induction false} FromQuery(s: State, ev: EvidenceMap, a: Answers, c: Config, r: Option<Resume>)
    requires Clean(ViewOf(s))
    ensures var o := Walk(Query, s, ev, a, c, r);
            if Truthy(Get(s, RequestTime)) && !a.timeReadable then o == Outcome(s, ev, [], Raised)
            else Diagnosed(ViewOf(s), ev, a, c, o)
  {
    if !(Truthy(Get(s, RequestTime)) && !a.timeReadable) {
      if LogsOf(a, c).found.Some? && LogsOf(a, c).found.value.count > 0 {
        FromQueryWithLogs(s, ev, a, c, r);
      } else {
        FromQueryWithout(s, ev, a, c, r);
      }
    }
  }

  // ---- From the intake to the end ----

  ghost predicate AsksBack(v: View, o: Outcome, ev: EvidenceMap, a: Answers, c: Config) {
    && o.ending.Interrupted? && o.evidence == ev && o.events == []
    && ViewOf(o.state) == v.(status := Text("clarification_required"), interrupted := Moment(a.validatedAt),
                             expires := Moment(a.validatedAt + c.ttl))
  }

  /** A run from the intake on: it breaks before any query, asks back, or diagnoses. */
  ghost predicate Runs(v: View, ev: EvidenceMap, a: Answers, c: Config, o: Outcome) {
    || (o.ending.Raised? && o.evidence == ev && o.events == [] && (a.intake.Err? || !a.timeReadable)
        && (ViewOf(o.state) == v || (a.intake.Ok? && ViewOf(o.state) == Understood(v, a.intake.value))))
    || (a.intake.Ok?
        && if Understood(v, a.intake.value).missing != Texts([])
           then AsksBack(Understood(v, a.intake.value), o, ev, a, c)
           else Diagnosed(Understood(v, a.intake.value), ev, a, c, o))
  }

  lemma {:induction false} FromSelect(s: State, ev: EvidenceMap, a: Answers, c: Config, r: Option<Resume>)
    requires Clean(ViewOf(s))
    ensures var o := Walk(Select, s, ev, a, c, r);
            || (!a.timeReadable && o.ending.Raised? && o.evidence == ev && o.events == [] && ViewOf(o.state) == ViewOf(s))
            || Diagnosed(ViewOf(s), ev, a, c, o)
  {
    var u := SelectProcedure(a.procedure, c);
    SelectView(s, a.procedure, c);
    StepTo(Select, Query, s, ev, a, c, r, u, ev, []);
    FromQuery(s + u, ev, a, c, r);
  }

  ghost predicate ValidatesTo(v: View, ev: EvidenceMap, a: Answers, c: Config, o: Outcome) {
    if Truthy(v.missing) then AsksBack(v, o, ev, a, c)
    else || (!a.timeReadable && o.ending.Raised? && o.evidence == ev && o.events == [] && ViewOf(o.state) == v)
         || Diagnosed(v, ev, a, c, o)
  }

  lemma {:induction false} ValidatedRuns(v: View, ev: EvidenceMap, a: Answers, c: Config, o: Outcome)
    requires a.intake.Ok? && ValidatesTo(Understood(v, a.intake.value), ev, a, c, o)
    ensures Runs(v, ev, a, c, o)
  {
  }

  lemma {:induction false} FromValidate(s: State, ev: EvidenceMap, a: Answers, c: Config)
    requires Clean(ViewOf(s))
    ensures ValidatesTo(ViewOf(s), ev, a, c, Walk(Validate, s, ev, a, c, None))
  {
    var u := ValidateRequiredFields(s, a.validatedAt, c);
    ValidateView(s, a.validatedAt, c);
    assert ViewOf(s + u).missing == ViewOf(s).missing;
    if Truthy(ViewOf(s).missing) {
      StepTo(Validate, Interrupt, s, ev, a, c, None, u, ev, []);
      assert VisitNode(Interrupt, s + u, ev, a, c, None) == Paused;
    } else {
      StepTo(Validate, Select, s, ev, a, c, None, u, ev, []);
      FromSelect(s + u, ev, a, c, None);
    }
  }

  lemma {:induction false} FromUnderstand(s: State, ev: EvidenceMap, a: Answers, c: Config)
    requires Clean(ViewOf(s))
    ensures Runs(ViewOf(s), ev, a, c, Walk(Understand, s, ev, a, c, None))
  {
    if a.intake.Ok? {
      var u := UnderstandInput(s, a.intake.value, a.understoodAt);
      UnderstandView(s, a.intake.value, a.understoodAt);
      StepTo(Understand, Validate, s, ev, a, c, None, u, ev, []);
      FromValidate(s + u, ev, a, c);
      ValidatedRuns(ViewOf(s), ev, a, c, Walk(Understand, s, ev, a, c, None));
    }
  }

  lemma {:induction false} FromInterrupt(s: State, ev: EvidenceMap, a: Answers, c: Config, r: Resume)
    requires Clean(ViewOf(s))
    ensures Runs(Resumed(ViewOf(s), r), ev, a, c, Walk(Interrupt, s, ev, a, c, Some(r)))
  {
    var u := InterruptForClarification(s, r);
    InterruptView(s, r);
    StepTo(Interrupt, Understand, s, ev, a, c, Some(r), u, ev, []);
    FromUnderstand(s + u, ev, a, c);
  }
}

/** The service: one diagnosis at a time on each conversation. */
module BugDiagnosis {
  import opened Common
  import opened BugGraph

  type Threads = map<string, State>

  datatype Call = Call(
    conversation: string, run: string, report: string, followUp: bool, history: Result<Option<Context>, ()>,
    checkedAt: int, startedAt: int, answers: Answers)

  datatype Reply =
    | Error
    | Cancelled
    | Diagnosis(status: string, answer: string, missing: seq<string>, citations: seq<Citation>, grade: Value,
                warnings: seq<string>)

  /** `_expired`. */
  predicate Expired(s: State, now: int) {
    !Truthy(Get(s, ExpiresAt)) || (Get(s, ExpiresAt).Moment? && Get(s, ExpiresAt).at <= now)
  }

  predicate Pending(s: State) { Get(s, Status) == Text("clarification_required") }

  function ThreadOf(threads: Threads, conversation: string): State {
    if conversation in threads then threads[conversation] else map[]
  }

  predicate Stale(threads: Threads, conversation: string, now: int) {
    ThreadOf(threads, conversation) != map[] && Expired(ThreadOf(threads, conversation), now)
  }

  /** The threads after an expired one is deleted. */
  function Opened(threads: Threads, conversation: string, now: int): Threads {
    if Stale(threads, conversation, now) then threads - {conversation} else threads
  }

  function Snapshot(threads: Threads, conversation: string, now: int): State {
    ThreadOf(Opened(threads, conversation, now), conversation)
  }

  function FillIn(v: Value, h: Value): Value { if !Truthy(v) && Truthy(h) then h else v }

  /** The history is asked for only when the snapshot does not tell environment and trace. */
  predicate HistoryNeeded(s: State, followUp: bool) {
    followUp && !(Truthy(Get(s, Environment)) && Truthy(Get(s, TraceId)))
  }

  /** `_resolve_reusable_context`. */
  function Reusable(s: State, followUp: bool, history: Option<Context>): Context {
    if !followUp then NO_CONTEXT else
      var known := Context(Get(s, Environment), Get(s, TraceId), Get(s, RequestTime));
      var context :=
        if HistoryNeeded(s, followUp) && history.Some?
        then Context(FillIn(known.environment, history.value.environment), FillIn(known.traceId, history.value.traceId),
                     FillIn(known.requestTime, history.value.requestTime))
        else known;
      if Truthy(context.environment) && Truthy(context.traceId) then context else NO_CONTEXT
  }

  function WalkOf(s: State, ev: EvidenceMap, x: Call, inherited: Context, c: Config): Outcome {
    if Pending(s) then Walk(Interrupt, s, ev, x.answers, c, Some(Resume(x.report, x.run, inherited)))
    else Walk(Understand, s + Initial(x.report, x.conversation, x.run, inherited, x.startedAt, c), ev, x.answers, c, None)
  }

  datatype Memory = Memory(threads: Threads, evidence: EvidenceMap)

  predicate IsCancel(x: Call) { Strip(x.report) == CANCEL_REPORT }

  function SnapshotOf(w: Memory, x: Call): State { Snapshot(w.threads, x.conversation, x.checkedAt) }

  /** The history lookup raised. */
  predicate HistoryFails(w: Memory, x: Call) { HistoryNeeded(SnapshotOf(w, x), x.followUp) && x.history.Err? }

  function InheritedBy(w: Memory, x: Call): Context {
    Reusable(SnapshotOf(w, x), x.followUp, if x.history.Ok? then x.history.value else None)
  }

  /** The walk of the graph in this call. */
  function OutcomeOf(w: Memory, x: Call, c: Config): Outcome {
    WalkOf(SnapshotOf(w, x), w.evidence, x, InheritedBy(w, x), c)
  }

  function AfterDiagnose(w: Memory, x: Call, c: Config): Memory {
    if IsCancel(x) then Memory(w.threads - {x.conversation}, w.evidence)
    else
      var kept := Opened(w.threads, x.conversation, x.checkedAt);
      if HistoryFails(w, x) then Memory(kept, w.evidence)
      else
        var o := OutcomeOf(w, x, c);
        Memory(kept[x.conversation := o.state], if o.ending.Interrupted? then o.evidence else o.evidence - {x.run})
  }

  function TextOr(v: Value, other: string): string { if Truthy(v) && v.Text? then v.text else other }

  function ToResult(s: State, ending: Ending): Reply {
    if ending.Raised? then Error
    else
      Diagnosis(
        if ending.Interrupted? then "clarification_required" else TextOr(Get(s, Status), "completed"),
        if ending.Interrupted? then TextOr(Get(s, ClarificationQuestion), "请补充诊断信息。")
        else TextOr(Get(s, Answer), ""),
        TextsOf(Get(s, MissingFields)), CitedOf(Get(s, Citations)), Get(s, EvidenceGrade), TextsOf(Get(s, Warnings)))
  }

  function ReplyTo(w: Memory, x: Call, c: Config): Reply {
    if IsCancel(x) then Cancelled
    else if HistoryFails(w, x) then Error
    else ToResult(OutcomeOf(w, x, c).state, OutcomeOf(w, x, c).ending)
  }

  function EventsOf(w: Memory, x: Call, c: Config): seq<Event> {
    if IsCancel(x) || HistoryFails(w, x) then [] else OutcomeOf(w, x, c).events
  }

  function AfterHasPending(threads: Threads, conversation: string, now: int): Threads {
    if Pending(ThreadOf(threads, conversation)) then Opened(threads, conversation, now) else threads
  }

  lemma {:induction false} AfterJoins(before: seq<Event>, events: seq<Event>, o: Outcome)
    ensures After(before, After(events, o)) == After(before + events, o)
  {
    assert before + (events + o.events) == before + events + o.events;
  }

  class BugDiagnosisGraphService {
    const config: Config
    /** The checkpoints. */
    var threads: Threads
    var evidence: EvidenceMap

    /** The retry loop of `_query_trace_logs`. */
    method QueryPlatform(logs: seq<LogAnswer>) returns (o: LogOutcome)
      ensures o == Retry(logs, config.retries, 0, None)
    {
      var error: Option<string> := None;
      var attempt := 0;
      while attempt <= config.retries
        invariant 0 <= attempt && (attempt == 0 || attempt <= config.retries)
        invariant Retry(logs, config.retries, attempt, error) == Retry(logs, config.retries, 0, None)
        decreases config.retries + 1 - attempt
      {
        match AnswerAt(logs, attempt)
        case Found(l) => return LogOutcome(attempt + 1, Some(l), error);
        case Failed(name, retryable) =>
          error := Some(name);
          if attempt >= config.retries || !retryable { return LogOutcome(attempt + 1, None, error); }
        attempt := attempt + 1;
      }
      return LogOutcome(attempt, None, error);
    }

    /** `_query_trace_logs`. */
    method QueryNode(s: State, a: Answers) returns (visit: Visit)
      ensures visit == VisitQuery(s, evidence, a, config)
    {
      if Truthy(Get(s, RequestTime)) && !a.timeReadable { return Broke(evidence, []); }
      var o := QueryPlatform(a.logs);
      var run := TextOf(Get(s, RunId));
      visit := Updated(QueryTraceLogs(o),
                       if o.found.Some? then evidence[run := EntryOf(evidence, run).(logs := o.found)] else evidence,
                       Repeat(Queried(Get(s, Environment), Get(s, TraceId), Get(s, RequestTime)), o.calls));
    }

    /** One node, merged into the state; `go` is false when the graph pauses or a node raises. */
    method VisitOnce(node: Node, s: State, a: Answers, resume: Option<Resume>)
      returns (s': State, go: bool, raised: bool, ghost events: seq<Event>)
      requires node != End
      modifies this`evidence
      ensures !go ==> Walk(node, s, old(evidence), a, config, resume) ==
                        Outcome(s', evidence, events, if raised then Raised else Interrupted)
      ensures go ==> Walk(node, s, old(evidence), a, config, resume) ==
                       After(events, Walk(Successor(node, s'), s', evidence, a, config, Left(node, resume)))
      ensures go && node.Interrupt? ==> resume.Some?
    {
      var visit;
      if node == Query { visit := QueryNode(s, a); } else { visit := VisitNode(node, s, evidence, a, config, resume); }
      match visit
      case Paused => return s, false, false, [];
      case Broke(ev, es) =>
        evidence := ev;
        return s, false, true, es;
      case Updated(u, ev, es) =>
        evidence := ev;
        return s + u, true, false, es;
    }

    /** `graph.ainvoke`: visits nodes along the edges until the end, a pause or an exception. */
    method Invoke(start: Node, s0: State, a: Answers, resume0: Option<Resume>)
      returns (s: State, ending: Ending, ghost events: seq<Event>)
      requires start != End
      modifies this`evidence
      ensures Outcome(s, evidence, events, ending) == Walk(start, s0, old(evidence), a, config, resume0)
    {
      var node, resume := start, resume0;
      s, events := s0, [];
      ghost var whole := Walk(start, s0, evidence, a, config, resume0);
      assert [] + whole.events == whole.events;
      assert whole == After(events, whole);
      while node != End
        invariant whole == After(events, Walk(node, s, evidence, a, config, resume))
        decreases resume.Some?, Rank(node)
      {
        ghost var before := events;
        var s', go, raised, es := VisitOnce(node, s, a, resume);
        s, events := s', events + es;
        if !go {
          return s, if raised then Raised else Interrupted, events;
        }
        node, resume := Successor(node, s), Left(node, resume);
        AfterJoins(before, es, Walk(node, s, evidence, a, config, resume));
      }
      assert events + [] == events;
      ending := Finished;
    }

    /** `diagnose`. */
    method Diagnose(x: Call) returns (reply: Reply, ghost events: seq<Event>)
      modifies this
      ensures Memory(threads, evidence) == AfterDiagnose(old(Memory(threads, evidence)), x, config)
      ensures reply == ReplyTo(old(Memory(threads, evidence)), x, config)
      ensures events == EventsOf(old(Memory(threads, evidence)), x, config)
    {
      events := [];
      if Strip(x.report) == CANCEL_REPORT {
        threads := threads - {x.conversation};
        return Cancelled, events;
      }
      var snapshot := ThreadOf(threads, x.conversation);
      if snapshot != map[] && Expired(snapshot, x.checkedAt) {
        threads := threads - {x.conversation};
        snapshot := map[];
      }
      var history: Option<Context> := None;
      if HistoryNeeded(snapshot, x.followUp) && x.history.Err? { return Error, events; }
      if x.history.Ok? { history := x.history.value; }
      var inherited := Reusable(snapshot, x.followUp, history);
      var s, ending;
      if Pending(snapshot) {
        s, ending, events := Invoke(Interrupt, snapshot, x.answers, Some(Resume(x.report, x.run, inherited)));
      } else {
        s := snapshot + Initial(x.report, x.conversation, x.run, inherited, x.startedAt, config);
        s, ending, events := Invoke(Understand, s, x.answers, None);
      }
      threads := threads[x.conversation := s];
      if ending != Interrupted { evidence := evidence - {x.run}; }
      reply := ToResult(s, ending);
    }

    /** `has_pending`. */
    method HasPending(conversation: string, now: int) returns (pending: bool)
      modifies this`threads
      ensures threads == AfterHasPending(old(threads), conversation, now)
      ensures pending <==> Pending(Snapshot(old(threads), conversation, now))
    {
      var snapshot := ThreadOf(threads, conversation);
      pending := snapshot != map[] && Pending(snapshot);
      if pending && Expired(snapshot, now) {
        threads := threads - {conversation};
        pending := false;
      }
    }
  }
}

/** What holds in every run of the service. */
module BugDiagnosisRuns {
  import opened Common
  import opened BugGraph
  import opened BugGraphProofs
  import opened BugDiagnosis

  /** Environment and trace are absent or really given. */
  predicate Known(v: Value) { v == Nothing || Truthy(v) }

  ghost predicate PendingOk(s: State, c: Config) {
    Pending(s) ==>
      var v := ViewOf(s);
      && Clean(v) && Known(v.environment) && Known(v.trace)
      && v.missing == Texts(Missing(v.environment, v.trace)) && v.missing != Texts([])
      && v.question == Text(Question(Missing(v.environment, v.trace)))
      && v.interrupted.Moment? && v.expires == Moment(v.interrupted.at + c.ttl)
  }

  ghost predicate Inv(w: Memory, c: Config) {
    forall t :: t in w.threads ==> PendingOk(w.threads[t], c)
  }

  /** Where a walk begins that finds the state `s` and inherits `k`. */
  ghost function StartFrom(s: State, k: Context, x: Call, c: Config): View {
    if Pending(s) then Resumed(ViewOf(s), Resume(x.report, x.run, k))
    else
      View(Text(x.run), k.environment, k.traceId, k.requestTime, Texts([]), Text(""), Text("running"), Nothing,
           Moment(x.startedAt + c.ttl), NO_FINDINGS)
  }

  /** Where the walk of a call begins. */
  ghost function StartView(w: Memory, x: Call, c: Config): View {
    StartFrom(SnapshotOf(w, x), InheritedBy(w, x), x, c)
  }

  lemma {:induction false} SnapshotOk(w: Memory, x: Call, c: Config)
    requires Inv(w, c)
    ensures PendingOk(SnapshotOf(w, x), c)
    ensures Pending(SnapshotOf(w, x)) ==> x.conversation in w.threads && w.threads[x.conversation] == SnapshotOf(w, x)
    ensures Known(InheritedBy(w, x).environment) && Known(InheritedBy(w, x).traceId)
  {
  }

  lemma {:induction false} ResumedCallRuns(w: Memory, x: Call, c: Config)
    requires Clean(ViewOf(SnapshotOf(w, x))) && Pending(SnapshotOf(w, x))
    ensures Runs(StartView(w, x, c), w.evidence, x.answers, c, OutcomeOf(w, x, c))
  {
    var s, r := SnapshotOf(w, x), Resume(x.report, x.run, InheritedBy(w, x));
    FromInterrupt(s, w.evidence, x.answers, c, r);
    assert StartView(w, x, c) == Resumed(ViewOf(s), r);
    assert OutcomeOf(w, x, c) == Walk(Interrupt, s, w.evidence, x.answers, c, Some(r));
  }

  /** The state that a fresh diagnosis starts from. */
  ghost function FreshState(s: State, k: Context, x: Call, c: Config): State {
    s + Initial(x.report, x.conversation, x.run, k, x.startedAt, c)
  }

  lemma {:induction false} FreshStart(s: State, k: Context, x: Call, c: Config)
    requires !Pending(s)
    ensures StartFrom(s, k, x, c) ==
              View(Text(x.run), k.environment, k.traceId, k.requestTime, Texts([]), Text(""), Text("running"), Nothing,
                   Moment(x.startedAt + c.ttl), NO_FINDINGS)
  {
  }

  lemma {:induction false} FreshView(s: State, k: Context, x: Call, c: Config)
    requires !Pending(s)
    ensures ViewOf(FreshState(s, k, x, c)) == StartFrom(s, k, x, c)
  {
    InitialViewOver(s, x.report, x.conversation, x.run, k, x.startedAt, c);
    FreshStart(s, k, x, c);
  }

  lemma {:induction false} FreshRuns(s: State, k: Context, ev: EvidenceMap, x: Call, c: Config)
    requires !Pending(s)
    ensures Runs(StartFrom(s, k, x, c), ev, x.answers, c, WalkOf(s, ev, x, k, c))
  {
    FreshView(s, k, x, c);
    FromUnderstand(FreshState(s, k, x, c), ev, x.answers, c);
  }

  lemma {:induction false} FreshCallRuns(w: Memory, x: Call, c: Config)
    requires !Pending(SnapshotOf(w, x))
    ensures Runs(StartView(w, x, c), w.evidence, x.answers, c, OutcomeOf(w, x, c))
  {
    FreshRuns(SnapshotOf(w, x), InheritedBy(w, x), w.evidence, x, c);
  }

  /** Every call that reaches the graph is described by `Runs`, from a clean start. */
  lemma {:induction false} CallRuns(w: Memory, x: Call, c: Config)
    requires Inv(w, c)
    ensures var v := StartView(w, x, c);
            && Clean(v) && Known(v.environment) && Known(v.trace) && v.status == Text("running")
            && Runs(v, w.evidence, x.answers, c, OutcomeOf(w, x, c))
  {
    SnapshotOk(w, x, c);
    if Pending(SnapshotOf(w, x)) { ResumedCallRuns(w, x, c); } else { FreshCallRuns(w, x, c); }
  }

  lemma {:induction false} AskedPendingOk(v: View, o: Outcome, ev: EvidenceMap, a: Answers, c: Config)
    requires Clean(v) && Known(v.environment) && Known(v.trace) && v.missing != Texts([])
    requires v.missing == Texts(Missing(v.environment, v.trace))
    requires v.question == Text(Question(Missing(v.environment, v.trace)))
    requires AsksBack(v, o, ev, a, c)
    ensures PendingOk(o.state, c) && Pending(o.state)
  {
  }

  lemma {:induction false} DiagnosedNotPending(v: View, ev: EvidenceMap, a: Answers, c: Config, o: Outcome)
    requires Diagnosed(v, ev, a, c, o)
    ensures !Pending(o.state) && !o.ending.Interrupted?
  {
    assert ViewOf(o.state).status != Text("clarification_required");
  }

  lemma {:induction false} OutcomePendingOk(v: View, ev: EvidenceMap, a: Answers, c: Config, o: Outcome)
    requires Clean(v) && Known(v.environment) && Known(v.trace) && v.status == Text("running") && Runs(v, ev, a, c, o)
    ensures PendingOk(o.state, c)
    ensures o.ending.Interrupted? <==> Pending(o.state)
  {
    if a.intake.Ok? && Understood(v, a.intake.value).missing != Texts([])
       && AsksBack(Understood(v, a.intake.value), o, ev, a, c) {
      AskedPendingOk(Understood(v, a.intake.value), o, ev, a, c);
    } else if a.intake.Ok? && Diagnosed(Understood(v, a.intake.value), ev, a, c, o) {
      DiagnosedNotPending(Understood(v, a.intake.value), ev, a, c, o);
    } else {
      assert ViewOf(o.state).status == Text("running");
    }
  }

  // ---- Runs ----

  datatype Action = Diagnoses(call: Call) | Asks(conversation: string, now: int)

  function Apply(w: Memory, act: Action, c: Config): Memory {
    match act
    case Diagnoses(x) => AfterDiagnose(w, x, c)
    case Asks(conversation, now) => w.(threads := AfterHasPending(w.threads, conversation, now))
  }

  function After(acts: seq<Action>, c: Config): Memory {
    if acts == [] then Memory(map[], map[]) else Apply(After(acts[..|acts| - 1], c), acts[|acts| - 1], c)
  }

  lemma {:induction false} StepKeeps(w: Memory, act: Action, c: Config)
    requires Inv(w, c)
    ensures Inv(Apply(w, act, c), c)
  {
    if act.Diagnoses? && !IsCancel(act.call) && !HistoryFails(w, act.call) {
      CallRuns(w, act.call, c);
      OutcomePendingOk(StartView(w, act.call, c), w.evidence, act.call.answers, c, OutcomeOf(w, act.call, c));
    }
  }

  lemma {:induction false} RunKeeps(acts: seq<Action>, c: Config)
    ensures Inv(After(acts, c), c)
  {
    if acts != [] {
      RunKeeps(acts[..|acts| - 1], c);
      StepKeeps(After(acts[..|acts| - 1], c), acts[|acts| - 1], c);
    }
  }

  lemma {:induction false} LastStep(acts: seq<Action>, c: Config)
    requires acts != []
    ensures After(acts, c) == Apply(After(acts[..|acts| - 1], c), acts[|acts| - 1], c)
  {
  }

  // ---- Evidence soundness ----

  /** What a reply may say: status, grade, citations, warnings and answer stand exactly on this call's own
      evidence. */
  ghost predicate Supported(d: Reply, a: Answers, c: Config)
    requires d.Diagnosis?
  {
    var l := LogsOf(a, c);
    match d.status
    case "clarification_required" =>
      && d.grade == Text("none") && d.citations == [] && d.warnings == []
      && ((d.missing == ["environment"] && d.answer == ENVIRONMENT_QUESTION)
          || (d.missing == ["trace_id"] && d.answer == TRACE_QUESTION)
          || (d.missing == ["environment", "trace_id"] && d.answer == BOTH_QUESTION))
    case "unavailable" =>
      && d.grade == Text("none") && d.citations == [] && d.warnings == [] && d.missing == []
      && l.found.None? && d.answer == UNAVAILABLE_ANSWER
    case "no_logs" =>
      && d.grade == Text("none") && d.missing == [] && l.found.Some? && l.found.value.count == 0
      && d.citations == [LogTrace(l.found.value.traceId)] && d.warnings == [] && d.answer == NO_LOGS_ANSWER
    case "completed" =>
      && d.missing == [] && l.found.Some? && l.found.value.count > 0 && CodeStagesAnswer(a)
      && var code, e := a.matches.value, ContractsUsed(a.matches.value, a);
         && d.grade == Text(GradeFor(code, e))
         && d.citations == [LogTrace(l.found.value.traceId)] + CodeCitations(code) + DocumentCitations(e.documents)
                           + SwaggerCitations(e.operations)
         && d.warnings == ContractWarnings(code, a) + ModelWarnings(a)
         && d.answer == if a.diagnosis.Some? && a.diagnosis.value.Ok? then a.diagnosis.value.value else PlainAnswer(code)
    case _ => false
  }

  /** The reply, read off the view. */
  function ReplyOf(v: View, ending: Ending): Reply {
    if ending.Raised? then Error
    else
      Diagnosis(
        if ending.Interrupted? then "clarification_required" else TextOr(v.status, "completed"),
        if ending.Interrupted? then TextOr(v.question, "请补充诊断信息。") else TextOr(v.found.answer, ""),
        TextsOf(v.missing), CitedOf(v.found.cited), v.found.grade, TextsOf(v.found.warnings))
  }

  lemma {:induction false} AskingSupported(v: View, a: Answers, c: Config)
    requires Clean(v) && v.missing.Texts? && v.missing.texts != []
    requires exists environment, trace :: v.missing.texts == Missing(environment, trace)
    requires v.question == Text(Question(v.missing.texts))
    ensures Supported(ReplyOf(v, Interrupted), a, c)
  {
  }

  lemma {:induction false} QueriedSupported(v: View, a: Answers, c: Config)
    requires Clean(v) && v.missing == Texts([])
    requires LogsOf(a, c).found.None? || LogsOf(a, c).found.value.count == 0
    ensures Supported(ReplyOf(QueriedView(v, LogsOf(a, c)), Finished), a, c)
  {
  }

  lemma {:induction false} ConcludedSupported(v: View, a: Answers, c: Config)
    requires Clean(v) && v.missing == Texts([]) && CodeStagesAnswer(a)
    requires LogsOf(a, c).found.Some? && LogsOf(a, c).found.value.count > 0
    ensures Supported(ReplyOf(Concluded(WithMatches(QueriedView(v, LogsOf(a, c)), a.matches.value), a.matches.value, a),
                              Finished), a, c)
  {
    assert [] + ContractWarnings(a.matches.value, a) == ContractWarnings(a.matches.value, a);
  }

  /** The citations point at the matches, documents and operations one by one, in their order. */
  lemma {:induction false} CodeCited(m: seq<Match>, i: nat)
    ensures |CodeCitations(m)| == |m| && (i < |m| ==> CodeCitations(m)[i] == Code(m[i].chunkId))
  {
    if m != [] { CodeCited(m[1..], if i > 0 then i - 1 else 0); }
  }

  lemma {:induction false} DocumentsCited(documents: seq<Option<string>>, i: nat)
    requires None !in documents
    ensures |DocumentCitations(documents)| == |documents|
    ensures i < |documents| ==> documents[i].Some? && DocumentCitations(documents)[i] == Document(documents[i].value)
  {
    if documents != [] { DocumentsCited(documents[1..], if i > 0 then i - 1 else 0); }
  }

  lemma {:induction false} OperationsCited(operations: seq<string>, i: nat)
    ensures |SwaggerCitations(operations)| == |operations|
    ensures i < |operations| ==> SwaggerCitations(operations)[i] == Swagger(operations[i])
  {
    if operations != [] { OperationsCited(operations[1..], if i > 0 then i - 1 else 0); }
  }

  /** Documents count for the grade when one of them has an id. */
  lemma {:induction false} DocumentIdsAre(documents: seq<Option<string>>, id: string)
    ensures id in DocumentIds(documents) <==> id != "" && Some(id) in documents
  {
    if documents != [] { DocumentIdsAre(documents[1..], id); }
  }

  lemma {:induction false} RunSupported(v: View, ev: EvidenceMap, a: Answers, c: Config, o: Outcome)
    requires Clean(v) && Runs(v, ev, a, c, o) && !o.ending.Raised?
    ensures Supported(ToResult(o.state, o.ending), a, c)
  {
    assert ToResult(o.state, o.ending) == ReplyOf(ViewOf(o.state), o.ending);
    var u, l := Understood(v, a.intake.value), LogsOf(a, c);
    if u.missing != Texts([]) {
      AskingSupported(ViewOf(o.state), a, c);
    } else if l.found.None? || l.found.value.count == 0 {
      QueriedSupported(u, a, c);
    } else {
      ConcludedSupported(u, a, c);
    }
  }

  /** In every run, whatever was asked and resumed before on any thread. */
  lemma {:induction false} RepliesAreSupported(acts: seq<Action>, x: Call, c: Config)
    ensures var reply := ReplyTo(After(acts, c), x, c);
            reply.Diagnosis? ==> Supported(reply, x.answers, c)
  {
    var w := After(acts, c);
    RunKeeps(acts, c);
    if ReplyTo(w, x, c).Diagnosis? {
      CallRuns(w, x, c);
      RunSupported(StartView(w, x, c), w.evidence, x.answers, c, OutcomeOf(w, x, c));
    }
  }

  lemma {:induction false} RunAsks(v: View, ev: EvidenceMap, a: Answers, c: Config, o: Outcome)
    requires Clean(v) && Runs(v, ev, a, c, o)
    ensures var d := ReplyOf(ViewOf(o.state), o.ending);
            d.Diagnosis? && d.status == "clarification_required" ==>
              a.intake.Ok? && Texts(d.missing) == Understood(v, a.intake.value).missing
  {
    if a.intake.Ok? && Diagnosed(Understood(v, a.intake.value), ev, a, c, o) {
      DiagnosedNotPending(Understood(v, a.intake.value), ev, a, c, o);
    }
  }

  /** A call asks back for exactly what neither its intake nor what it started from tells. */
  lemma {:induction false} AsksForMissing(acts: seq<Action>, x: Call, c: Config)
    ensures var w := After(acts, c);
            var reply, v := ReplyTo(w, x, c), StartView(w, x, c);
            reply.Diagnosis? && reply.status == "clarification_required" ==>
              && x.answers.intake.Ok?
              && var i := x.answers.intake.value;
                 reply.missing == Missing(Or(i.environment, v.environment), Or(i.traceId, v.trace))
  {
    var w := After(acts, c);
    RunKeeps(acts, c);
    CallRuns(w, x, c);
    var o := OutcomeOf(w, x, c);
    RunAsks(StartView(w, x, c), w.evidence, x.answers, c, o);
    assert ToResult(o.state, o.ending) == ReplyOf(ViewOf(o.state), o.ending);
  }

  /** The grades, spelled out. */
  lemma {:induction false} GradesNeedEvidence(acts: seq<Action>, x: Call, c: Config)
    ensures var reply, a := ReplyTo(After(acts, c), x, c), x.answers;
            reply.Diagnosis? ==>
              && (reply.grade == Text("correlated") || reply.grade == Text("contract_supported") ==>
                    && a.matches.Ok? && a.matches.value != []
                    && LogsOf(a, c).found.Some? && LogsOf(a, c).found.value.count > 0)
              && (reply.grade == Text("contract_supported") ==>
                    && a.contracts.Some? && a.contracts.value.Ok?
                    && (a.contracts.value.value.operations != [] || DocumentIds(a.contracts.value.value.documents) != []))
              && (reply.grade == Text("none") <==> reply.status != "completed")
  {
    RepliesAreSupported(acts, x, c);
  }

  // ---- What the platform is asked about ----

  /** The first value that is given, in the order of the list. */
  function FirstGiven(values: seq<Value>): Value {
    if values == [] then Nothing else if Truthy(values[0]) then values[0] else FirstGiven(values[1..])
  }

  /** The thread, unless it has expired when the message comes. */
  ghost function LiveThread(w: Memory, x: Call): State {
    if x.conversation !in w.threads then map[]
    else
      var t := w.threads[x.conversation];
      var e := Get(t, ExpiresAt);
      if Truthy(e) && !(e.Moment? && e.at <= x.checkedAt) then t else map[]
  }

  /** The earlier diagnosis: a follow-up asks for it when the thread lacks the environment or the trace. */
  ghost function Earlier(w: Memory, x: Call): Context {
    var t := LiveThread(w, x);
    if x.followUp && !(Truthy(Get(t, Environment)) && Truthy(Get(t, TraceId))) && x.history.Ok? && x.history.value.Some?
    then x.history.value.value else Context(Nothing, Nothing, Nothing)
  }

  /** A follow-up takes over the context of the thread and the earlier diagnosis when they give both the
      environment and the trace. */
  ghost predicate TakesOver(w: Memory, x: Call) {
    var t, h := LiveThread(w, x), Earlier(w, x);
    && x.followUp && (Truthy(Get(t, Environment)) || Truthy(h.environment))
    && (Truthy(Get(t, TraceId)) || Truthy(h.traceId))
  }

  ghost predicate Resumes(w: Memory, x: Call) { Get(LiveThread(w, x), Status) == Text("clarification_required") }

  /** A field of a diagnosis: what the intake says, then what the thread says if the call resumes it or
      takes it over, then what the earlier diagnosis says if the call takes that over. */
  ghost function Told(intake: Value, thread: Value, earlier: Value, takesOver: bool, resumes: bool): Value {
    FirstGiven([intake] + (if takesOver || resumes then [thread] else []) + (if takesOver then [earlier] else []))
  }

  /** The query is about the environment, the trace and the request time that were told. */
  ghost predicate AsTold(e: Event, w: Memory, x: Call)
    requires e.Queried?
  {
    && x.answers.intake.Ok?
    && var i, t, h, over, resumes := x.answers.intake.value, LiveThread(w, x), Earlier(w, x), TakesOver(w, x), Resumes(w, x);
       && e.environment == Told(i.environment, Get(t, Environment), h.environment, over, resumes)
       && e.trace == Told(i.traceId, Get(t, TraceId), h.traceId, over, resumes)
       && var time := Told(i.requestTime, Get(t, RequestTime), h.requestTime, over, resumes);
          if Truthy(time) then e.requestTime == time else !Truthy(e.requestTime)
  }

  /** What a call starts from, for one field. */
  ghost function Started(thread: Value, earlier: Value, takesOver: bool, resumes: bool): Value {
    var inherited := if takesOver then FillIn(thread, earlier) else Nothing;
    if resumes then Or(inherited, thread) else inherited
  }

  lemma {:induction false} ToldIs(intake: Value, thread: Value, earlier: Value, takesOver: bool, resumes: bool)
    ensures var told := Told(intake, thread, earlier, takesOver, resumes);
            var started := Started(thread, earlier, takesOver, resumes);
            && (Truthy(Or(intake, started)) ==> Or(intake, started) == told)
            && (if Truthy(told) then KeepIfEmpty(intake, started) == told else !Truthy(KeepIfEmpty(intake, started)))
  {
    var rest := (if takesOver || resumes then [thread] else []) + (if takesOver then [earlier] else []);
    var all := [intake] + (if takesOver || resumes then [thread] else []) + (if takesOver then [earlier] else []);
    assert all == [intake] + rest && all[1..] == rest;
    GivenOf(thread, earlier, takesOver || resumes, takesOver);
  }

  lemma {:induction false} OneGiven(v: Value)
    ensures FirstGiven([v]) == if Truthy(v) then v else Nothing
  {
    assert [v][1..] == [];
  }

  lemma {:induction false} GivenOf(thread: Value, earlier: Value, first: bool, second: bool)
    requires second ==> first
    ensures FirstGiven((if first then [thread] else []) + (if second then [earlier] else [])) ==
              if first && Truthy(thread) then thread else if second && Truthy(earlier) then earlier else Nothing
  {
    var values := (if first then [thread] else []) + (if second then [earlier] else []);
    if second {
      assert values == [thread, earlier] && values[1..] == [earlier];
      OneGiven(earlier);
    } else if first {
      assert values == [thread];
      OneGiven(thread);
    } else {
      assert values == [];
    }
  }

  lemma {:induction false} LiveIs(w: Memory, x: Call)
    ensures SnapshotOf(w, x) == LiveThread(w, x)
  {
    if x.conversation in w.threads && !Stale(w.threads, x.conversation, x.checkedAt) {
      assert Snapshot(w.threads, x.conversation, x.checkedAt) == w.threads[x.conversation];
    }
  }

  lemma {:induction false} InheritedIs(w: Memory, x: Call)
    ensures var t, h, k := LiveThread(w, x), Earlier(w, x), InheritedBy(w, x);
            if TakesOver(w, x)
            then k == Context(FillIn(Get(t, Environment), h.environment), FillIn(Get(t, TraceId), h.traceId),
                              FillIn(Get(t, RequestTime), h.requestTime))
            else k == Context(Nothing, Nothing, Nothing)
  {
    LiveIs(w, x);
  }

  lemma {:induction false} StartedIs(w: Memory, x: Call, c: Config)
    ensures var v, t, h, over, resumes := StartView(w, x, c), LiveThread(w, x), Earlier(w, x), TakesOver(w, x), Resumes(w, x);
            && v.environment == Started(Get(t, Environment), h.environment, over, resumes)
            && v.trace == Started(Get(t, TraceId), h.traceId, over, resumes)
            && v.time == Started(Get(t, RequestTime), h.requestTime, over, resumes)
  {
    LiveIs(w, x);
    InheritedIs(w, x);
  }

  /** What a diagnosis does after its queries: nothing, a search, or a search and a question. */
  lemma {:induction false} DiagnosedTail(v: View, ev: EvidenceMap, a: Answers, c: Config, o: Outcome)
    returns (tail: seq<Event>)
    requires Diagnosed(v, ev, a, c, o)
    ensures o.events == Repeat(Queried(v.environment, v.trace, v.time), LogsOf(a, c).calls) + tail && |tail| <= 2
    ensures |tail| >= 1 ==>
              && LogsOf(a, c).found.Some?
              && tail[0] == Searched(Number(LogsOf(a, c).found.value.count), LogSignals(LogsOf(a, c).found.value))
    ensures |tail| == 2 ==>
              && tail[1].Asked? && LogsOf(a, c).found.Some? && LogsOf(a, c).found.value.count > 0 && o.ending.Finished?
              && CodeStagesAnswer(a) && tail[1].evidence == EntryOf(o.evidence, TextOf(v.run))
              && tail[1].grade == Text(GradeFor(a.matches.value, ContractsUsed(a.matches.value, a)))
  {
    var l := LogsOf(a, c);
    var queried := Repeat(Queried(v.environment, v.trace, v.time), l.calls);
    if l.found.None? || l.found.value.count == 0 {
      tail := [];
      assert queried + [] == queried;
    } else {
      var searched := [Searched(Number(l.found.value.count), LogSignals(l.found.value))];
      if o.ending.Raised? {
        tail := searched;
      } else {
        tail := searched + AskedWith(a, EntryOf(o.evidence, TextOf(v.run)),
                                     Text(GradeFor(a.matches.value, ContractsUsed(a.matches.value, a))));
      }
    }
  }

  lemma {:induction false} InTail(q: Event, n: nat, tail: seq<Event>, i: nat)
    requires i < n + |tail|
    ensures (Repeat(q, n) + tail)[i] == if i < n then q else tail[i - n]
  {
  }

  lemma {:induction false} QueriedIs(v: View, ev: EvidenceMap, a: Answers, c: Config, o: Outcome, i: nat)
    requires Diagnosed(v, ev, a, c, o) && i < |o.events| && o.events[i].Queried?
    ensures o.events[i] == Queried(v.environment, v.trace, v.time)
  {
    var tail := DiagnosedTail(v, ev, a, c, o);
    InTail(Queried(v.environment, v.trace, v.time), LogsOf(a, c).calls, tail, i);
  }

  lemma {:induction false} UnderstoodAsTold(w: Memory, x: Call, c: Config)
    requires x.answers.intake.Ok?
    ensures var v := Understood(StartView(w, x, c), x.answers.intake.value);
            Truthy(v.environment) && Truthy(v.trace) ==> AsTold(Queried(v.environment, v.trace, v.time), w, x)
  {
    var i, t, h, over, resumes := x.answers.intake.value, LiveThread(w, x), Earlier(w, x), TakesOver(w, x), Resumes(w, x);
    StartedIs(w, x, c);
    ToldIs(i.environment, Get(t, Environment), h.environment, over, resumes);
    ToldIs(i.traceId, Get(t, TraceId), h.traceId, over, resumes);
    ToldIs(i.requestTime, Get(t, RequestTime), h.requestTime, over, resumes);
  }

  /** In every run, each log query is about what this call's intake, the live thread and the earlier
      diagnosis told, each field for itself and in this order. */
  lemma {:induction false} QueriesAsTold(acts: seq<Action>, x: Call, c: Config, i: nat)
    requires i < |EventsOf(After(acts, c), x, c)| && EventsOf(After(acts, c), x, c)[i].Queried?
    ensures AsTold(EventsOf(After(acts, c), x, c)[i], After(acts, c), x)
  {
    var w := After(acts, c);
    RunKeeps(acts, c);
    CallRuns(w, x, c);
    var v, o := StartView(w, x, c), OutcomeOf(w, x, c);
    var u := Understood(v, x.answers.intake.value);
    UnderstoodKnown(v, x.answers.intake.value);
    QueriedIs(u, w.evidence, x.answers, c, o, i);
    UnderstoodAsTold(w, x, c);
  }

  // ---- The order of outside effects ----

  /** Logs are queried only with environment and trace known, code is searched only after such a
      query found logs, and the model is asked only after the code was searched. */
  ghost predicate Lawful(events: seq<Event>) {
    forall i :: 0 <= i < |events| ==> Allowed(events, i)
  }

  ghost predicate Allowed(events: seq<Event>, i: nat)
    requires i < |events|
  {
    match events[i]
    case Queried(environment, trace, _) =>
      Truthy(environment) && Truthy(trace) && forall j :: 0 <= j < i ==> events[j] == events[i]
    case Searched(count, _) => count.Number? && count.n > 0 && i > 0 && events[i - 1].Queried?
    case Asked(evidence, _) =>
      i > 0 && events[i - 1].Searched? && evidence.logs.Some?
      && events[i - 1].logCount == Number(evidence.logs.value.count)
  }

  lemma {:induction false} WithCodeEntry(ev: EvidenceMap, run: string, a: Answers)
    requires a.matches.Ok?
    ensures EntryOf(WithCode(ev, run, a), run).logs == EntryOf(ev, run).logs
    ensures EntryOf(WithCode(ev, run, a), run).code ==
              Some(if a.enriched.Ok? && a.enriched.value != [] then a.enriched.value else a.matches.value)
    ensures EntryOf(WithCode(ev, run, a), run).contracts ==
              if a.matches.value != [] && a.contracts.Some? && a.contracts.value.Ok? then Some(a.contracts.value.value)
              else EntryOf(ev, run).contracts
  {
  }

  lemma {:induction false} QueriesThen(q: Event, n: nat, tail: seq<Event>)
    requires q.Queried? && Truthy(q.environment) && Truthy(q.trace)
    requires tail == [] || (n > 0 && tail[0].Searched? && tail[0].logCount.Number? && tail[0].logCount.n > 0)
    requires |tail| <= 2
    requires |tail| == 2 ==> tail[1].Asked? && tail[1].evidence.logs.Some?
                             && tail[0].logCount == Number(tail[1].evidence.logs.value.count)
    ensures Lawful(Repeat(q, n) + tail)
  {
    var events := Repeat(q, n) + tail;
    forall i | 0 <= i < |events| ensures Allowed(events, i) {
      assert events[i] == if i < n then q else tail[i - n];
      assert i > 0 ==> events[i - 1] == if i - 1 < n then q else tail[i - 1 - n];
    }
  }

  lemma {:induction false} DiagnosedLawful(v: View, ev: EvidenceMap, a: Answers, c: Config, o: Outcome)
    requires Truthy(v.environment) && Truthy(v.trace) && Diagnosed(v, ev, a, c, o)
    ensures Lawful(o.events)
  {
    var l, run, q := LogsOf(a, c), TextOf(v.run), Queried(v.environment, v.trace, v.time);
    var queried := Repeat(q, l.calls);
    RetriesStop(a.logs, c.retries, 0, None);
    if l.found.None? || l.found.value.count == 0 {
      QueriesThen(q, l.calls, []);
      assert queried + [] == queried;
    } else if o.ending.Raised? {
      QueriesThen(q, l.calls, [Searched(Number(l.found.value.count), LogSignals(l.found.value))]);
    } else {
      var ev1 := ev[run := EntryOf(ev, run).(logs := l.found)];
      WithCodeEntry(ev1, run, a);
      QueriesThen(q, l.calls, [Searched(Number(l.found.value.count), LogSignals(l.found.value))]
                              + AskedWith(a, EntryOf(o.evidence, run),
                                          Text(GradeFor(a.matches.value, ContractsUsed(a.matches.value, a)))));
    }
  }

  /** In every run. */
  lemma {:induction false} EffectsAreLawful(acts: seq<Action>, x: Call, c: Config)
    ensures Lawful(EventsOf(After(acts, c), x, c))
  {
    var w := After(acts, c);
    RunKeeps(acts, c);
    if !IsCancel(x) && !HistoryFails(w, x) {
      CallRuns(w, x, c);
      var v, o := StartView(w, x, c), OutcomeOf(w, x, c);
      if o.events != [] {
        UnderstoodKnown(v, x.answers.intake.value);
        DiagnosedLawful(Understood(v, x.answers.intake.value), w.evidence, x.answers, c, o);
      }
    }
  }

  // ---- What the code search is given ----

  /** The frames of the logs, each once, in the order of their first occurrence. */
  ghost predicate FirstOccurrences(r: seq<Frame>, frames: seq<Frame>) {
    && (forall i, j :: 0 <= i < j < |r| ==> r[i] != r[j])
    && (forall f :: f in r <==> f in frames)
    && (forall i, j, k :: 0 <= i < j < |r| && 0 <= k < |frames| && frames[k] == r[j] ==> r[i] in frames[..k])
  }

  lemma {:induction false} DistinctFramesAre(frames: seq<Frame>)
    ensures FirstOccurrences(DistinctFrames(frames), frames)
  {
    if frames != [] {
      var front, last := frames[..|frames| - 1], frames[|frames| - 1];
      DistinctFramesAre(front);
      var before, r := DistinctFrames(front), DistinctFrames(frames);
      assert frames == front + [last];
      forall i, j, k | 0 <= i < j < |r| && 0 <= k < |frames| && frames[k] == r[j] ensures r[i] in frames[..k] {
        if k < |front| {
          assert front[k] == r[j] && frames[..k] == front[..k];
        } else {
          assert frames[..k] == front && r[i] in before;
        }
      }
    }
  }

  /** The code search is given this call's log count and signals. */
  ghost predicate SearchedFor(event: Event, a: Answers, c: Config) {
    event.Searched? ==>
      && LogsOf(a, c).found.Some?
      && var l, x := LogsOf(a, c).found.value, event.signals;
         && event.logCount == Number(l.count) && x.exceptions == Texts(l.exceptionTypes)
         && x.services == Texts(l.services) && x.endpoints == Texts(l.endpoints)
         && x.frames.Frames? && FirstOccurrences(x.frames.frames, l.frames)
  }

  lemma {:induction false} DiagnosedSearches(v: View, ev: EvidenceMap, a: Answers, c: Config, o: Outcome, i: nat)
    requires Diagnosed(v, ev, a, c, o) && i < |o.events| && o.events[i].Searched?
    ensures LogsOf(a, c).found.Some?
    ensures o.events[i] == Searched(Number(LogsOf(a, c).found.value.count), LogSignals(LogsOf(a, c).found.value))
  {
    var tail := DiagnosedTail(v, ev, a, c, o);
    InTail(Queried(v.environment, v.trace, v.time), LogsOf(a, c).calls, tail, i);
  }

  /** In every run. */
  lemma {:induction false} SearchesAsLogged(acts: seq<Action>, x: Call, c: Config, i: nat)
    requires i < |EventsOf(After(acts, c), x, c)|
    ensures SearchedFor(EventsOf(After(acts, c), x, c)[i], x.answers, c)
  {
    var w := After(acts, c);
    RunKeeps(acts, c);
    CallRuns(w, x, c);
    var u, o := Understood(StartView(w, x, c), x.answers.intake.value), OutcomeOf(w, x, c);
    if o.events[i].Searched? {
      DiagnosedSearches(u, w.evidence, x.answers, c, o, i);
      DistinctFramesAre(LogsOf(x.answers, c).found.value.frames);
    }
  }

  lemma {:induction false} UnderstoodKnown(v: View, i: Intake)
    requires Known(v.environment) && Known(v.trace)
    ensures Known(Understood(v, i).environment) && Known(Understood(v, i).trace)
    ensures Understood(v, i).missing == Texts([]) ==>
              Truthy(Understood(v, i).environment) && Truthy(Understood(v, i).trace)
  {
  }

  lemma {:induction false} DiagnosedBounded(v: View, ev: EvidenceMap, a: Answers, c: Config, o: Outcome)
    requires Diagnosed(v, ev, a, c, o)
    ensures LogsOf(a, c).calls <= |o.events| <= LogsOf(a, c).calls + 2
    ensures forall i :: LogsOf(a, c).calls <= i < |o.events| ==> !o.events[i].Queried?
    ensures LogsOf(a, c).calls <= if c.retries < 0 then 0 else c.retries + 1
  {
    RetriesStop(a.logs, c.retries, 0, None);
  }

  /** The log platform is called at most `log_retry_count + 1` times in one diagnosis. */
  lemma {:induction false} QueriesBounded(acts: seq<Action>, x: Call, c: Config)
    ensures var events := EventsOf(After(acts, c), x, c);
            |events| <= (if c.retries < 0 then 0 else c.retries + 1) + 2
            && forall i :: (if c.retries < 0 then 0 else c.retries + 1) <= i < |events| ==> !events[i].Queried?
  {
    var w := After(acts, c);
    RunKeeps(acts, c);
    if !IsCancel(x) && !HistoryFails(w, x) {
      CallRuns(w, x, c);
      var v, o := StartView(w, x, c), OutcomeOf(w, x, c);
      if o.events != [] { DiagnosedBounded(Understood(v, x.answers.intake.value), w.evidence, x.answers, c, o); }
    }
  }

  // ---- Nothing of an earlier diagnosis survives ----

  /** A diagnosis that is not a resume comes out the same whatever the thread held, except for what
      was inherited. */
  lemma {:induction false} FreshIgnoresThread(w: Memory, w': Memory, x: Call, c: Config)
    requires !Pending(SnapshotOf(w, x)) && !Pending(SnapshotOf(w', x))
    requires InheritedBy(w, x) == InheritedBy(w', x) && w.evidence == w'.evidence
    ensures OutcomeOf(w, x, c) == OutcomeOf(w', x, c)
  {
    var k := InheritedBy(w, x);
    InitialCoversAll(SnapshotOf(w, x), x.report, x.conversation, x.run, k, x.startedAt, c);
    InitialCoversAll(SnapshotOf(w', x), x.report, x.conversation, x.run, k, x.startedAt, c);
  }

  // ---- The evidence map ----

  /** The entry of one run alone. */
  function Own(ev: EvidenceMap, run: string): EvidenceMap { if run in ev then map[run := ev[run]] else map[] }

  ghost predicate RunKept(s: State, u: State) { TextOf(Get(s + u, RunId)) == TextOf(Get(s, RunId)) }

  /** The two visits differ only in the entries of other runs. */
  ghost predicate SameButOthers(visit: Visit, own: Visit, ev: EvidenceMap, run: string) {
    match visit
    case Paused => own.Paused?
    case Broke(ev', events) => own == Broke(Own(ev', run), events) && ev' - {run} == ev - {run}
    case Updated(u, ev', events) => own == Updated(u, Own(ev', run), events) && ev' - {run} == ev - {run}
  }

  lemma {:induction false} WriteOwn(ev: EvidenceMap, run: string, e: Evidence)
    ensures EntryOf(Own(ev, run), run) == EntryOf(ev, run)
    ensures Own(ev[run := e], run) == Own(ev, run)[run := e] && ev[run := e] - {run} == ev - {run}
  {
  }

  lemma {:induction false} QueryOwn(s: State, ev: EvidenceMap, a: Answers, c: Config)
    ensures SameButOthers(VisitQuery(s, ev, a, c), VisitQuery(s, Own(ev, TextOf(Get(s, RunId))), a, c), ev,
                          TextOf(Get(s, RunId)))
  {
    var run := TextOf(Get(s, RunId));
    WriteOwn(ev, run, EntryOf(ev, run).(logs := LogsOf(a, c).found));
  }

  lemma {:induction false} InspectOwn(s: State, ev: EvidenceMap, a: Answers)
    ensures SameButOthers(VisitInspect(s, ev, a), VisitInspect(s, Own(ev, TextOf(Get(s, RunId))), a), ev,
                          TextOf(Get(s, RunId)))
  {
    var run := TextOf(Get(s, RunId));
    if a.contracts.Some? && a.contracts.value.Ok? {
      WriteOwn(ev, run, EntryOf(ev, run).(contracts := Some(a.contracts.value.value)));
    }
  }

  /** A visit to a node reads and writes only the entry of its run. */
  lemma {:induction false} VisitOwn(node: Node, s: State, ev: EvidenceMap, a: Answers, c: Config)
    ensures SameButOthers(VisitNode(node, s, ev, a, c, None),
                          VisitNode(node, s, Own(ev, TextOf(Get(s, RunId))), a, c, None), ev, TextOf(Get(s, RunId)))
  {
    var run := TextOf(Get(s, RunId));
    var entry := EntryOf(ev, run);
    WriteOwn(ev, run, entry);
    match node
    case Query => QueryOwn(s, ev, a, c);
    case Search => if a.matches.Ok? { WriteOwn(ev, run, entry.(code := Some(a.matches.value))); }
    case Enrich => if a.enriched.Ok? { WriteOwn(ev, run, entry.(code := Some(a.enriched.value))); }
    case Inspect => InspectOwn(s, ev, a);
    case _ =>
  }

  /** The same for a whole walk: its result depends on no other entry, and changes none. */
  lemma {:induction false} WalkOwn(node: Node, s: State, ev: EvidenceMap, a: Answers, c: Config)
    ensures var run := TextOf(Get(s, RunId));
            var o, own := Walk(node, s, ev, a, c, None), Walk(node, s, Own(ev, run), a, c, None);
            own == o.(evidence := Own(o.evidence, run)) && o.evidence - {run} == ev - {run}
    decreases Rank(node)
  {
    VisitOwn(node, s, ev, a, c);
    var visit := VisitNode(node, s, ev, a, c, None);
    if !node.End? && visit.Updated? {
      RunStays(node, s, ev, a, c);
      WalkOwn(Successor(node, s + visit.update), s + visit.update, visit.evidence, a, c);
    }
  }

  lemma {:induction false} RunStays(node: Node, s: State, ev: EvidenceMap, a: Answers, c: Config)
    ensures var visit := VisitNode(node, s, ev, a, c, None); visit.Updated? ==> RunKept(s, visit.update)
  {
    if node.Understand? || node.Validate? || node.Select? || node.Query? {
      RunStaysEarly(node, s, ev, a, c);
    } else {
      RunStaysLate(node, s, ev, a, c);
    }
  }

  lemma {:induction false} RunStaysEarly(node: Node, s: State, ev: EvidenceMap, a: Answers, c: Config)
    requires node.Understand? || node.Validate? || node.Select? || node.Query?
    ensures var visit := VisitNode(node, s, ev, a, c, None); visit.Updated? ==> RunKept(s, visit.update)
  {
    match node
    case Understand =>
      if a.intake.Ok? {
        UnderstandView(s, a.intake.value, a.understoodAt);
        SameRun(s, UnderstandInput(s, a.intake.value, a.understoodAt), Understood(ViewOf(s), a.intake.value));
      }
    case Validate =>
      ValidateView(s, a.validatedAt, c);
      SameRun(s, ValidateRequiredFields(s, a.validatedAt, c), ViewOf(s + ValidateRequiredFields(s, a.validatedAt, c)));
    case Select => RunUntouched(s, SelectProcedure(a.procedure, c));
    case _ =>
      QueryKeys(LogsOf(a, c));
      RunUntouched(s, QueryTraceLogs(LogsOf(a, c)));
  }

  lemma {:induction false} RunStaysLate(node: Node, s: State, ev: EvidenceMap, a: Answers, c: Config)
    requires !node.Understand? && !node.Validate? && !node.Select? && !node.Query?
    ensures var visit := VisitNode(node, s, ev, a, c, None); visit.Updated? ==> RunKept(s, visit.update)
  {
    var visit := VisitNode(node, s, ev, a, c, None);
    if visit.Updated? { RunUntouched(s, visit.update); }
  }

  lemma {:induction false} SameRun(s: State, u: State, v: View)
    requires ViewOf(s + u) == v && v.run == ViewOf(s).run
    ensures RunKept(s, u)
  {
  }

  lemma {:induction false} RunUntouched(s: State, u: State)
    ensures RunId !in u ==> RunKept(s, u)
  {
  }

  /** The id that a diagnosis runs under. */
  function RunOf(w: Memory, x: Call): string {
    if Pending(SnapshotOf(w, x)) then TextOf(Or(Text(x.run), Get(SnapshotOf(w, x), RunId))) else x.run
  }

  lemma {:induction false} ResumedEvidence(w: Memory, x: Call, c: Config)
    requires Pending(SnapshotOf(w, x))
    ensures OutcomeOf(w, x, c).evidence - {RunOf(w, x)} == w.evidence - {RunOf(w, x)}
  {
    var s, r := SnapshotOf(w, x), Resume(x.report, x.run, InheritedBy(w, x));
    var u := InterruptForClarification(s, r);
    assert VisitNode(Interrupt, s, w.evidence, x.answers, c, Some(r)) == Updated(u, w.evidence, []);
    InterruptView(s, r);
    assert TextOf(Get(s + u, RunId)) == RunOf(w, x) by { assert ViewOf(s + u).run == Or(Text(x.run), Get(s, RunId)); }
    WalkOwn(Understand, s + u, w.evidence, x.answers, c);
  }

  lemma {:induction false} FreshEvidence(s: State, k: Context, ev: EvidenceMap, x: Call, c: Config)
    requires !Pending(s)
    ensures WalkOf(s, ev, x, k, c).evidence - {x.run} == ev - {x.run}
  {
    FreshView(s, k, x, c);
    assert ViewOf(FreshState(s, k, x, c)).run == Text(x.run);
    WalkOwn(Understand, FreshState(s, k, x, c), ev, x.answers, c);
  }

  lemma {:induction false} OutcomeEvidence(w: Memory, x: Call, c: Config)
    ensures OutcomeOf(w, x, c).evidence - {RunOf(w, x)} == w.evidence - {RunOf(w, x)}
  {
    if Pending(SnapshotOf(w, x)) {
      ResumedEvidence(w, x, c);
    } else {
      FreshEvidence(SnapshotOf(w, x), InheritedBy(w, x), w.evidence, x, c);
    }
  }

  /** No call changes the evidence of another run, so diagnoses on other conversations may overlap. */
  lemma {:induction false} OthersUntouched(w: Memory, x: Call, c: Config)
    requires x.run != "" || !Pending(SnapshotOf(w, x))
    ensures AfterDiagnose(w, x, c).evidence - {x.run} == w.evidence - {x.run}
  {
    if !IsCancel(x) && !HistoryFails(w, x) { OutcomeEvidence(w, x, c); }
  }

  lemma {:induction false} PauseLeavesNothing(w: Memory, x: Call, c: Config)
    requires Inv(w, c) && OutcomeOf(w, x, c).ending.Interrupted?
    ensures OutcomeOf(w, x, c).evidence == w.evidence
  {
    CallRuns(w, x, c);
    PauseEvidence(StartView(w, x, c), w.evidence, x.answers, c, OutcomeOf(w, x, c));
  }

  lemma {:induction false} PauseEvidence(v: View, ev: EvidenceMap, a: Answers, c: Config, o: Outcome)
    requires Runs(v, ev, a, c, o) && o.ending.Interrupted?
    ensures o.evidence == ev
  {
  }

  lemma {:induction false} OwnRunLeavesNothing(w: Memory, x: Call, c: Config)
    requires Inv(w, c) && x.run !in w.evidence && RunOf(w, x) == x.run
    ensures AfterDiagnose(w, x, c).evidence == w.evidence
  {
    if !IsCancel(x) && !HistoryFails(w, x) {
      assert w.evidence - {x.run} == w.evidence;
      if OutcomeOf(w, x, c).ending.Interrupted? { PauseLeavesNothing(w, x, c); } else { OutcomeEvidence(w, x, c); }
    }
  }

  /** With a fresh run id, a diagnosis that returns or raises leaves the evidence map as it was. */
  lemma {:induction false} FreshRunLeavesNothing(w: Memory, x: Call, c: Config)
    requires Inv(w, c) && x.run !in w.evidence && (x.run != "" || !Pending(SnapshotOf(w, x)))
    ensures AfterDiagnose(w, x, c).evidence == w.evidence
  {
    OwnRunLeavesNothing(w, x, c);
  }

  predicate NamesRun(act: Action) { act.Diagnoses? ==> act.call.run != "" }

  /** Between calls the evidence map is empty, in every run whose calls carry a run id. */
  lemma {:induction false} EvidenceAlwaysEmpty(acts: seq<Action>, c: Config)
    requires forall act :: act in acts ==> NamesRun(act)
    ensures After(acts, c).evidence == map[]
  {
    if acts != [] {
      var before := acts[..|acts| - 1];
      EvidenceAlwaysEmpty(before, c);
      RunKeeps(before, c);
      var act := acts[|acts| - 1];
      assert NamesRun(act);
      if act.Diagnoses? { FreshRunLeavesNothing(After(before, c), act.call, c); }
    }
  }

  /** The code that the model is shown. */
  function CodeShown(a: Answers): Option<seq<Match>> {
    if a.enriched.Ok? && a.enriched.value != [] then Some(a.enriched.value)
    else if a.matches.Ok? then Some(a.matches.value) else None
  }

  /** A question to the model is about the logs, code and contracts that this call obtained, and their
      grade. */
  ghost predicate AskedExactly(event: Event, a: Answers, c: Config) {
    event.Asked? ==>
      && LogsOf(a, c).found.Some? && a.matches.Ok?
      && var code := a.matches.value;
         && event.evidence.logs == LogsOf(a, c).found && event.evidence.code == CodeShown(a)
         && event.evidence.contracts ==
              (if code != [] && a.contracts.Some? && a.contracts.value.Ok? then Some(a.contracts.value.value) else None)
         && event.grade == Text(GradeFor(code, ContractsUsed(code, a)))
  }

  lemma {:induction false} DiagnosedAsks(v: View, ev: EvidenceMap, a: Answers, c: Config, o: Outcome, i: nat)
    requires Diagnosed(v, ev, a, c, o) && TextOf(v.run) !in ev && i < |o.events|
    ensures AskedExactly(o.events[i], a, c)
  {
    var tail := DiagnosedTail(v, ev, a, c, o);
    InTail(Queried(v.environment, v.trace, v.time), LogsOf(a, c).calls, tail, i);
    if o.events[i].Asked? { EntryShown(v, ev, a, c, o); }
  }

  /** The entry of a completed diagnosis that began with none. */
  lemma {:induction false} EntryShown(v: View, ev: EvidenceMap, a: Answers, c: Config, o: Outcome)
    requires Diagnosed(v, ev, a, c, o) && TextOf(v.run) !in ev && o.ending.Finished? && CodeStagesAnswer(a)
    requires LogsOf(a, c).found.Some? && LogsOf(a, c).found.value.count > 0
    ensures var e, code := EntryOf(o.evidence, TextOf(v.run)), a.matches.value;
            && e.logs == LogsOf(a, c).found && e.code == CodeShown(a)
            && e.contracts ==
                 if code != [] && a.contracts.Some? && a.contracts.value.Ok? then Some(a.contracts.value.value) else None
  {
    var l, run := LogsOf(a, c), TextOf(v.run);
    WithCodeEntry(ev[run := EntryOf(ev, run).(logs := l.found)], run, a);
  }

  /** Between calls that carry run ids, the model is asked about exactly what the call itself found. */
  lemma {:induction false} AsksExactly(acts: seq<Action>, x: Call, c: Config, i: nat)
    requires forall act :: act in acts ==> NamesRun(act)
    requires i < |EventsOf(After(acts, c), x, c)|
    ensures AskedExactly(EventsOf(After(acts, c), x, c)[i], x.answers, c)
  {
    var w := After(acts, c);
    EvidenceAlwaysEmpty(acts, c);
    RunKeeps(acts, c);
    CallRuns(w, x, c);
    DiagnosedAsks(Understood(StartView(w, x, c), x.answers.intake.value), w.evidence, x.answers, c, OutcomeOf(w, x, c), i);
  }

  lemma {:induction false} DiagnosedEntry(v: View, ev: EvidenceMap, a: Answers, c: Config, o: Outcome)
    requires Diagnosed(v, ev, a, c, o)
    ensures LogsOf(a, c).found.Some? ==> TextOf(v.run) in o.evidence && o.events != []
    ensures LogsOf(a, c).found.None? ==> o.evidence == ev
  {
    RetriesStop(a.logs, c.retries, 0, None);
  }

  /** A run writes its entry exactly when it obtained logs. */
  lemma {:induction false} RunsEntry(v: View, ev: EvidenceMap, a: Answers, c: Config, o: Outcome)
    requires Runs(v, ev, a, c, o) && TextOf(v.run) !in ev
    ensures TextOf(v.run) in o.evidence <==> o.events != [] && LogsOf(a, c).found.Some?
  {
    if a.intake.Ok? && Diagnosed(Understood(v, a.intake.value), ev, a, c, o) {
      DiagnosedEntry(Understood(v, a.intake.value), ev, a, c, o);
    }
  }

  lemma {:induction false} LeftBehind(ev: EvidenceMap, ev': EvidenceMap, run: string, popped: string)
    requires ev' - {run} == ev - {run} && run !in ev && popped !in ev && run != popped
    ensures ev' - {popped} == ev <==> run !in ev'
  {
    if run !in ev' { assert ev' == ev' - {run} && ev == ev - {run} && ev - {popped} == ev; }
  }

  lemma {:induction false} StartRun(w: Memory, x: Call, c: Config)
    ensures TextOf(StartView(w, x, c).run) == RunOf(w, x)
  {
  }

  /** A resume without a run id goes on under the id of the interrupted call, and then leaves that
      entry behind exactly when it obtained logs. */
  lemma {:induction false} EmptyRunLeaks(w: Memory, x: Call, c: Config)
    requires Inv(w, c) && !IsCancel(x) && !HistoryFails(w, x)
    requires Pending(SnapshotOf(w, x)) && x.run == "" && "" !in w.evidence
    requires RunOf(w, x) != "" && RunOf(w, x) !in w.evidence
    ensures AfterDiagnose(w, x, c).evidence == w.evidence <==>
              !(EventsOf(w, x, c) != [] && LogsOf(x.answers, c).found.Some?)
  {
    EntryLeft(w, x, c);
    CallRuns(w, x, c);
    StartRun(w, x, c);
    RunsEntry(StartView(w, x, c), w.evidence, x.answers, c, OutcomeOf(w, x, c));
  }

  lemma {:induction false} EntryLeft(w: Memory, x: Call, c: Config)
    requires Inv(w, c) && !IsCancel(x) && !HistoryFails(w, x)
    requires x.run !in w.evidence && RunOf(w, x) !in w.evidence && RunOf(w, x) != x.run
    ensures AfterDiagnose(w, x, c).evidence == w.evidence <==> RunOf(w, x) !in OutcomeOf(w, x, c).evidence
  {
    OutcomeEvidence(w, x, c);
    if OutcomeOf(w, x, c).ending.Interrupted? {
      PauseLeavesNothing(w, x, c);
    } else {
      LeftBehind(w.evidence, OutcomeOf(w, x, c).evidence, RunOf(w, x), x.run);
    }
  }

  /** What a caller can check before the call: it ends without the graph, it names its run (a resume
      without a name goes on under the stored id), or the platform is never called. */
  predicate NothingToLeave(w: Memory, x: Call, c: Config) {
    || IsCancel(x) || HistoryFails(w, x) || x.run != "" || !Pending(SnapshotOf(w, x))
    || TextOf(Get(SnapshotOf(w, x), RunId)) == "" || c.retries < 0
  }

  /** Whatever the world answers, a call leaves the evidence map as it was, exactly under this guard. */
  lemma {:induction false} LeavesNothingExactly(w: Memory, x: Call, c: Config)
    requires Inv(w, c) && x.run !in w.evidence && RunOf(w, x) !in w.evidence
    ensures (forall a: Answers :: AfterDiagnose(w, x.(answers := a), c).evidence == w.evidence) <==>
              NothingToLeave(w, x, c)
  {
    if NothingToLeave(w, x, c) {
      forall a: Answers ensures AfterDiagnose(w, x.(answers := a), c).evidence == w.evidence {
        GuardedLeavesNothing(w, x.(answers := a), c);
      }
    } else {
      UnguardedLeaves(w, x.(answers := EmptyLogs()), c);
      assert AfterDiagnose(w, x.(answers := EmptyLogs()), c).evidence != w.evidence;
    }
  }

  lemma {:induction false} GuardedLeavesNothing(w: Memory, x: Call, c: Config)
    requires Inv(w, c) && x.run !in w.evidence && RunOf(w, x) !in w.evidence && NothingToLeave(w, x, c)
    ensures AfterDiagnose(w, x, c).evidence == w.evidence
  {
    if IsCancel(x) || HistoryFails(w, x) {
    } else if RunOf(w, x) == x.run {
      OwnRunLeavesNothing(w, x, c);
    } else {
      EntryLeft(w, x, c);
      CallRuns(w, x, c);
      StartRun(w, x, c);
      RunsEntry(StartView(w, x, c), w.evidence, x.answers, c, OutcomeOf(w, x, c));
      RetriesStop(x.answers.logs, c.retries, 0, None);
    }
  }

  /** Environment and trace are told, and the platform has no logs. */
  function EmptyLogs(): Answers {
    Answers(
      Ok(Intake(Text("test"), Text(""), Text("t"), Nothing, Nothing, Nothing, Text(""), Texts([]), Texts([]))),
      None, true, [Found(Logs("t", 0, false, [], [], [], []))], [], Ok([]), Ok([]), None, None, 0, 0, 0)
  }

  lemma {:induction false} EmptyLogsFound(v: View, ev: EvidenceMap, c: Config, o: Outcome)
    requires Runs(v, ev, EmptyLogs(), c, o) && c.retries >= 0
    ensures TextOf(v.run) in o.evidence && !o.ending.Interrupted?
  {
    var a := EmptyLogs();
    assert AnswerAt(a.logs, 0) == Found(Logs("t", 0, false, [], [], [], []));
    assert LogsOf(a, c) == LogOutcome(1, Some(Logs("t", 0, false, [], [], [], [])), None);
    assert Understood(v, a.intake.value).missing == Texts([]);
  }

  lemma {:induction false} UnguardedLeaves(w: Memory, x: Call, c: Config)
    requires Inv(w, c) && x.run !in w.evidence && RunOf(w, x) !in w.evidence && !NothingToLeave(w, x, c)
    requires x.answers == EmptyLogs()
    ensures RunOf(w, x) in AfterDiagnose(w, x, c).evidence
  {
    CallRuns(w, x, c);
    StartRun(w, x, c);
    EmptyLogsFound(StartView(w, x, c), w.evidence, c, OutcomeOf(w, x, c));
  }

  /** A call that tells nothing, and so is asked back. */
  function Vague(): Call {
    Call("chat", "first", "", false, Ok(None), 0, 0,
         EmptyLogs().(intake := Ok(Intake(Nothing, Text(""), Nothing, Nothing, Nothing, Nothing, Text(""),
                                          Texts([]), Texts([])))))
  }

  /** Its answer, with no run id. */
  function Unnamed(): Call { Call("chat", "", "", false, Ok(None), 0, 0, EmptyLogs()) }

  const MINUTE := Config(60, 0, true)

  lemma {:induction false} VagueAsks(v: View, o: Outcome)
    requires Runs(v, map[], Vague().answers, MINUTE, o) && v.environment == Nothing && v.trace == Nothing
    ensures o.ending.Interrupted? && o.evidence == map[] && ViewOf(o.state).status == Text("clarification_required")
    ensures ViewOf(o.state).run == v.run && ViewOf(o.state).expires == Moment(60)
  {
    assert Understood(v, Vague().answers.intake.value).missing == Texts(["environment", "trace_id"]);
  }

  lemma {:induction false} VagueCallPauses()
    ensures var w := After([Diagnoses(Vague())], MINUTE);
            && w.evidence == map[] && "chat" in w.threads && Pending(w.threads["chat"])
            && ViewOf(w.threads["chat"]).run == Text("first") && ViewOf(w.threads["chat"]).expires == Moment(60)
  {
    var w0, x := Memory(map[], map[]), Vague();
    var acts := [Diagnoses(x)];
    LastStep(acts, MINUTE);
    assert acts[..0] == [];
    assert SnapshotOf(w0, x) == map[] && InheritedBy(w0, x) == NO_CONTEXT;
    FreshStart(map[], NO_CONTEXT, x, MINUTE);
    CallRuns(w0, x, MINUTE);
    VagueAsks(StartView(w0, x, MINUTE), OutcomeOf(w0, x, MINUTE));
  }

  /** The thread is asked back under the first run id, for a minute. */
  ghost predicate AskedBack(w: Memory) {
    && w.evidence == map[] && "chat" in w.threads && Pending(w.threads["chat"])
    && ViewOf(w.threads["chat"]).run == Text("first") && ViewOf(w.threads["chat"]).expires == Moment(60)
  }

  lemma {:induction false} UnnamedResumes(w: Memory)
    requires AskedBack(w)
    ensures SnapshotOf(w, Unnamed()) == w.threads["chat"] && RunOf(w, Unnamed()) == "first"
  {
    var s := w.threads["chat"];
    assert Get(s, ExpiresAt) == ViewOf(s).expires && Get(s, RunId) == ViewOf(s).run;
    assert !Expired(s, 0);
  }

  lemma {:induction false} UnnamedUnguarded(w: Memory)
    requires AskedBack(w)
    ensures !NothingToLeave(w, Unnamed(), MINUTE)
  {
    UnnamedResumes(w);
    assert Get(w.threads["chat"], RunId) == ViewOf(w.threads["chat"]).run;
    assert |Strip("")| < |CANCEL_REPORT|;
  }

  lemma {:induction false} UnnamedLeaves(w: Memory)
    requires AskedBack(w) && Inv(w, MINUTE)
    ensures "first" in AfterDiagnose(w, Unnamed(), MINUTE).evidence
  {
    UnnamedResumes(w);
    UnnamedUnguarded(w);
    UnguardedLeaves(w, Unnamed(), MINUTE);
  }

  /** Two calls after which an entry is left for good: the guard can fail. */
  lemma {:induction false} EntryStays()
    ensures !NothingToLeave(After([Diagnoses(Vague())], MINUTE), Unnamed(), MINUTE)
    ensures "first" in After([Diagnoses(Vague()), Diagnoses(Unnamed())], MINUTE).evidence
  {
    VagueCallPauses();
    var acts := [Diagnoses(Vague()), Diagnoses(Unnamed())];
    RunKeeps([Diagnoses(Vague())], MINUTE);
    UnnamedUnguarded(After([Diagnoses(Vague())], MINUTE));
    UnnamedLeaves(After([Diagnoses(Vague())], MINUTE));
    LastStep(acts, MINUTE);
    assert acts[..1] == [Diagnoses(Vague())];
  }

  // ---- The clarification loop ----

  function MissingIn(s: State): set<string> { set f | f in TextsOf(Get(s, MissingFields)) }

  lemma {:induction false} RunsMissing(v: View, ev: EvidenceMap, a: Answers, c: Config, o: Outcome)
    requires Runs(v, ev, a, c, o)
    requires v.missing.Texts? && forall f :: f in Missing(v.environment, v.trace) ==> f in v.missing.texts
    ensures MissingIn(o.state) <= set f | f in v.missing.texts
  {
    var out := ViewOf(o.state);
    assert out.missing == v.missing || (a.intake.Ok? && out.missing == Understood(v, a.intake.value).missing);
    if a.intake.Ok? {
      var i := a.intake.value;
      assert forall f :: f in Missing(Or(i.environment, v.environment), Or(i.traceId, v.trace)) ==>
                           f in Missing(v.environment, v.trace);
    }
  }

  /** The step goes on with the conversation: it resumes it, or does not concern it. */
  predicate Continues(w: Memory, act: Action, conversation: string) {
    match act
    case Asks(other, now) => other != conversation || !Stale(w.threads, conversation, now)
    case Diagnoses(x) => x.conversation != conversation || (!IsCancel(x) && Pending(SnapshotOf(w, x)))
  }

  lemma {:induction false} StepMissing(w: Memory, act: Action, conversation: string, c: Config)
    requires Inv(w, c) && conversation in w.threads && Continues(w, act, conversation)
    ensures conversation in Apply(w, act, c).threads
    ensures MissingIn(Apply(w, act, c).threads[conversation]) <= MissingIn(w.threads[conversation])
  {
    if act.Diagnoses? && act.call.conversation == conversation {
      var x := act.call;
      SnapshotOk(w, x, c);
      if !HistoryFails(w, x) {
        CallRuns(w, x, c);
        RunsMissing(StartView(w, x, c), w.evidence, x.answers, c, OutcomeOf(w, x, c));
      }
    }
  }

  /** All the steps from the n-th on go on with the conversation. */
  ghost predicate AllContinue(acts: seq<Action>, n: nat, conversation: string, c: Config) {
    forall i :: n <= i < |acts| ==> Continues(After(acts[..i], c), acts[i], conversation)
  }

  lemma {:induction false} ContinueBefore(acts: seq<Action>, n: nat, conversation: string, c: Config)
    requires n < |acts| && AllContinue(acts, n, conversation, c)
    ensures AllContinue(acts[..|acts| - 1], n, conversation, c)
    ensures Continues(After(acts[..|acts| - 1], c), acts[|acts| - 1], conversation)
  {
    var before := acts[..|acts| - 1];
    forall i | n <= i < |before| ensures Continues(After(before[..i], c), before[i], conversation) {
      assert before[..i] == acts[..i];
    }
  }

  /** Over any sequence of resumes, with anything else in between on other conversations, the set of
      missing fields never grows. */
  lemma {:induction false} MissingShrinks(acts: seq<Action>, n: nat, conversation: string, c: Config)
    requires n <= |acts| && conversation in After(acts[..n], c).threads && AllContinue(acts, n, conversation, c)
    ensures conversation in After(acts, c).threads
    ensures MissingIn(After(acts, c).threads[conversation]) <= MissingIn(After(acts[..n], c).threads[conversation])
    decreases |acts|
  {
    if n == |acts| {
      assert acts[..n] == acts;
    } else {
      var before, last := acts[..|acts| - 1], acts[|acts| - 1];
      assert before[..n] == acts[..n];
      ContinueBefore(acts, n, conversation, c);
      MissingShrinks(before, n, conversation, c);
      RunKeeps(before, c);
      StepMissing(After(before, c), last, conversation, c);
      LastStep(acts, c);
    }
  }

  /** A pending thread is resumed exactly by the messages that come before the interrupt time plus the
      time to live. */
  lemma {:induction false} ResumesOnlyInTime(acts: seq<Action>, x: Call, c: Config)
    requires x.conversation in After(acts, c).threads && Pending(After(acts, c).threads[x.conversation])
    ensures var w, s := After(acts, c), After(acts, c).threads[x.conversation];
            && Get(s, InterruptedAt).Moment?
            && (Pending(SnapshotOf(w, x)) <==> x.checkedAt < Get(s, InterruptedAt).at + c.ttl)
            && (x.conversation in AfterHasPending(w.threads, x.conversation, x.checkedAt) <==>
                  x.checkedAt < Get(s, InterruptedAt).at + c.ttl)
  {
    RunKeeps(acts, c);
    var s := After(acts, c).threads[x.conversation];
    assert PendingOk(s, c);
    assert Status in s;
  }
}
