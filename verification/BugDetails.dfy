/**
 What a call leaves in the thread besides its findings (knowledge/bug_graph/service.py): the report and
 its supplements, what the intake told, the procedure, the signals and the matches.
 */
module BugDiagnosisDetails {
  import opened Common
  import opened BugGraph
  import opened BugGraphProofs
  import opened BugDiagnosis
  import opened BugDiagnosisRuns

  /** The rank of the last node that writes the field; 13 when only a start or a resume writes it. */
  function LastWrite(f: Field): nat {
    match f
    case ConversationId | OriginalMessage | LatestMessage | CreatedAt | RunId => 13
    case EnvironmentEvidence | Symptoms | DomainHints | Service | Endpoint | RequestTime | RequestTimeEvidence
       | NormalizedProblem | Environment | TraceId | MissingFields | ClarificationQuestion => 12
    case InterruptedAt | ExpiresAt => 11
    case SelectedProcedureId | SelectedProcedureVersion | ProcedureCapabilities | ProcedureObserveOnly => 9
    case ExceptionTypes | LogServices | LogEndpoints | StackFrames => 7
    case CodeMatches | EntityHints => 6
    case _ => 0
  }

  lemma {:induction false} UnderstandLeaves(s: State, i: Intake, now: int, f: Field)
    requires LastWrite(f) > 12
    ensures f !in UnderstandInput(s, i, now)
  {
  }

  lemma {:induction false} ValidateLeaves(s: State, now: int, c: Config, f: Field)
    requires LastWrite(f) > 11
    ensures f !in ValidateRequiredFields(s, now, c)
  {
  }

  lemma {:induction false} SelectLeaves(p: Option<Procedure>, c: Config, f: Field)
    requires LastWrite(f) > 9
    ensures f !in SelectProcedure(p, c)
  {
  }

  lemma {:induction false} QueryLeaves(o: LogOutcome, f: Field)
    requires LastWrite(f) > 8
    ensures f !in QueryTraceLogs(o)
  {
    if o.found.Some? && o.found.value.count > 0 { FoundLeaves(o, f); }
  }

  lemma {:induction false} FoundLeaves(o: LogOutcome, f: Field)
    requires LastWrite(f) > 8 && o.found.Some? && o.found.value.count > 0
    ensures f !in QueryTraceLogs(o)
  {
  }

  lemma {:induction false} ExtractLeaves(l: Logs, f: Field)
    requires LastWrite(f) > 7
    ensures f !in ExtractLogSignals(l)
  {
  }

  lemma {:induction false} SearchLeaves(s: State, m: seq<Match>, hints: seq<string>, f: Field)
    requires LastWrite(f) > 6
    ensures f !in SearchBranchCode(s, m, hints)
  {
  }

  lemma {:induction false} InspectLeaves(s: State, ev: EvidenceMap, a: Answers, f: Field)
    requires LastWrite(f) > 4
    ensures var visit := VisitInspect(s, ev, a); visit.Updated? ==> f !in visit.update
  {
  }

  lemma {:induction false} GenerateLeaves(s: State, d: Option<Result<string, ()>>, f: Field)
    requires LastWrite(f) > 5
    ensures f !in GenerateDiagnosis(s, d)
  {
  }

  lemma {:induction false} LastLeave(node: Node, s: State, ev: EvidenceMap, a: Answers, c: Config, f: Field)
    requires LastWrite(f) > 5 && (node.Enrich? || node.Grade? || node.Finalize? || node.End?)
    ensures var visit := VisitNode(node, s, ev, a, c, None); visit.Updated? ==> f !in visit.update
  {
  }

  /** A node writes no field whose last writer comes before it. */
  lemma {:induction false} VisitLeaves(node: Node, s: State, ev: EvidenceMap, a: Answers, c: Config, f: Field)
    requires Rank(node) < LastWrite(f) && !node.Interrupt?
    ensures var visit := VisitNode(node, s, ev, a, c, None); visit.Updated? ==> f !in visit.update
  {
    LastWriteLeast(f);
    match node
    case Understand => if a.intake.Ok? { UnderstandLeaves(s, a.intake.value, a.understoodAt, f); }
    case Validate => ValidateLeaves(s, a.validatedAt, c, f);
    case Select => SelectLeaves(a.procedure, c, f);
    case Query => QueryLeaves(LogsOf(a, c), f);
    case Extract =>
      var run := TextOf(Get(s, RunId));
      if EntryOf(ev, run).logs.Some? { ExtractLeaves(ev[run].logs.value, f); }
    case Search => if a.matches.Ok? { SearchLeaves(s, a.matches.value, a.entityHints, f); }
    case Inspect => InspectLeaves(s, ev, a, f);
    case Generate => GenerateLeaves(s, a.diagnosis, f);
    case _ => LastLeave(node, s, ev, a, c, f);
  }

  lemma {:induction false} LastWriteLeast(f: Field)
    ensures LastWrite(f) == 0 || LastWrite(f) >= 6
  {
  }

  lemma {:induction false} LeftGet(s: State, u: State, f: Field)
    ensures f !in u ==> Get(s + u, f) == Get(s, f)
  {
  }

  lemma {:induction false} WalkLeaves(node: Node, s: State, ev: EvidenceMap, a: Answers, c: Config, f: Field)
    requires Rank(node) < LastWrite(f)
    ensures Get(Walk(node, s, ev, a, c, None).state, f) == Get(s, f)
    decreases Rank(node)
  {
    var visit := VisitNode(node, s, ev, a, c, None);
    if !node.End? && visit.Updated? {
      VisitLeaves(node, s, ev, a, c, f);
      LeftGet(s, visit.update, f);
      WalkLeaves(Successor(node, s + visit.update), s + visit.update, visit.evidence, a, c, f);
    }
  }

  /** The fields that are written after the given rank only by nodes before it are the same. */
  ghost predicate LaterKept(t: State, s: State, rank: nat) { forall f :: LastWrite(f) > rank ==> Get(t, f) == Get(s, f) }

  lemma {:induction false} WalkKeeps(node: Node, s: State, ev: EvidenceMap, a: Answers, c: Config)
    ensures LaterKept(Walk(node, s, ev, a, c, None).state, s, Rank(node))
  {
    forall f | LastWrite(f) > Rank(node) ensures Get(Walk(node, s, ev, a, c, None).state, f) == Get(s, f) {
      WalkLeaves(node, s, ev, a, c, f);
    }
  }

  // ---- The report ----

  lemma {:induction false} InitialOriginal(report: string, conversation: string, run: string, x: Context, now: int, c: Config)
    ensures Get(Initial(report, conversation, run, x, now, c), OriginalMessage) == Text(Strip(report))
  {
  }

  lemma {:induction false} InitialLatest(report: string, conversation: string, run: string, x: Context, now: int, c: Config)
    ensures Get(Initial(report, conversation, run, x, now, c), LatestMessage) == Text(Strip(report))
  {
  }

  lemma {:induction false} InitialProblem(report: string, conversation: string, run: string, x: Context, now: int, c: Config)
    ensures var s := Initial(report, conversation, run, x, now, c);
            NormalizedProblem in s && s[NormalizedProblem] == Text(Strip(report))
  {
  }

  lemma {:induction false} InitialConversation(report: string, conversation: string, run: string, x: Context, now: int,
                                               c: Config)
    ensures Get(Initial(report, conversation, run, x, now, c), ConversationId) == Text(conversation)
  {
  }

  lemma {:induction false} InitialCreated(report: string, conversation: string, run: string, x: Context, now: int, c: Config)
    ensures Get(Initial(report, conversation, run, x, now, c), CreatedAt) == Moment(now)
  {
  }

  /** What the thread says about the report. */
  datatype Story = Story(original: Value, latest: Value, problem: Value, conversation: Value, created: Value)

  function StoryOf(s: State): Story {
    Story(Get(s, OriginalMessage), Get(s, LatestMessage), Get(s, NormalizedProblem), Get(s, ConversationId),
          Get(s, CreatedAt))
  }

  lemma {:induction false} UnderstoodProblem(s: State, i: Intake, now: int)
    ensures NormalizedProblem in UnderstandInput(s, i, now)
    ensures NormalizedProblem in s ==> UnderstandInput(s, i, now)[NormalizedProblem] == s[NormalizedProblem]
  {
    assert NormalizedProblem in IntakeValues(s, i) && NormalizedProblem !in
      Required(Or(i.environment, Get(s, Environment)), Or(i.traceId, Get(s, TraceId)), now);
  }

  lemma {:induction false} ProblemStays(s: State, ev: EvidenceMap, a: Answers, c: Config)
    requires NormalizedProblem in s
    ensures Get(Walk(Understand, s, ev, a, c, None).state, NormalizedProblem) == s[NormalizedProblem]
  {
    if a.intake.Ok? {
      var u := UnderstandInput(s, a.intake.value, a.understoodAt);
      UnderstoodProblem(s, a.intake.value, a.understoodAt);
      StepTo(Understand, Validate, s, ev, a, c, None, u, ev, []);
      WalkLeaves(Validate, s + u, ev, a, c, NormalizedProblem);
    }
  }

  lemma {:induction false} StoryStays(s: State, ev: EvidenceMap, a: Answers, c: Config)
    requires NormalizedProblem in s
    ensures StoryOf(Walk(Understand, s, ev, a, c, None).state) == StoryOf(s)
  {
    ProblemStays(s, ev, a, c);
    WalkLeaves(Understand, s, ev, a, c, OriginalMessage);
    WalkLeaves(Understand, s, ev, a, c, LatestMessage);
    WalkLeaves(Understand, s, ev, a, c, ConversationId);
    WalkLeaves(Understand, s, ev, a, c, CreatedAt);
  }

  lemma {:induction false} InitialStory(s: State, k: Context, x: Call, c: Config)
    ensures var t := FreshState(s, k, x, c);
            && NormalizedProblem in t
            && StoryOf(t) == Story(Text(Strip(x.report)), Text(Strip(x.report)), Text(Strip(x.report)),
                                   Text(x.conversation), Moment(x.startedAt))
  {
    InitialCoversAll(s, x.report, x.conversation, x.run, k, x.startedAt, c);
    InitialOriginal(x.report, x.conversation, x.run, k, x.startedAt, c);
    InitialLatest(x.report, x.conversation, x.run, k, x.startedAt, c);
    InitialProblem(x.report, x.conversation, x.run, k, x.startedAt, c);
    InitialConversation(x.report, x.conversation, x.run, k, x.startedAt, c);
    InitialCreated(x.report, x.conversation, x.run, k, x.startedAt, c);
  }

  lemma {:induction false} InterruptStory(s: State, r: Resume)
    ensures var u := InterruptForClarification(s, r);
            && (NormalizedProblem in s ==> NormalizedProblem in s + u)
            && StoryOf(s + u) ==
                 StoryOf(s).(original := Text(Strip(TextOf(Get(s, OriginalMessage)) + SUPPLEMENT + Strip(r.message))),
                             latest := Text(Strip(r.message)))
  {
  }

  /** The state in which a call enters the intake. */
  ghost function Entered(w: Memory, x: Call, c: Config): State {
    var s, k := SnapshotOf(w, x), InheritedBy(w, x);
    if Pending(s) then s + InterruptForClarification(s, Resume(x.report, x.run, k)) else FreshState(s, k, x, c)
  }

  lemma {:induction false} EnteredWalk(w: Memory, x: Call, c: Config)
    ensures OutcomeOf(w, x, c) == Walk(Understand, Entered(w, x, c), w.evidence, x.answers, c, None)
  {
    var s, k := SnapshotOf(w, x), InheritedBy(w, x);
    if Pending(s) {
      var r := Resume(x.report, x.run, k);
      StepTo(Interrupt, Understand, s, w.evidence, x.answers, c, Some(r), InterruptForClarification(s, r), w.evidence, []);
    }
  }

  /** Every thread knows its problem. */
  ghost predicate AllProblems(w: Memory) { forall t :: t in w.threads ==> NormalizedProblem in w.threads[t] }

  lemma {:induction false} EnteredProblem(w: Memory, x: Call, c: Config)
    requires AllProblems(w)
    ensures NormalizedProblem in Entered(w, x, c)
  {
    LiveIs(w, x);
    if Pending(SnapshotOf(w, x)) {
      InterruptStory(SnapshotOf(w, x), Resume(x.report, x.run, InheritedBy(w, x)));
    } else {
      InitialStory(SnapshotOf(w, x), InheritedBy(w, x), x, c);
    }
  }

  lemma {:induction false} WalkHasProblem(node: Node, s: State, ev: EvidenceMap, a: Answers, c: Config)
    requires NormalizedProblem in s
    ensures NormalizedProblem in Walk(node, s, ev, a, c, None).state
    decreases Rank(node)
  {
    var visit := VisitNode(node, s, ev, a, c, None);
    if !node.End? && visit.Updated? {
      WalkHasProblem(Successor(node, s + visit.update), s + visit.update, visit.evidence, a, c);
    }
  }

  lemma {:induction false} StepProblems(w: Memory, act: Action, c: Config)
    requires AllProblems(w)
    ensures AllProblems(Apply(w, act, c))
  {
    if act.Diagnoses? && !IsCancel(act.call) && !HistoryFails(w, act.call) {
      EnteredProblem(w, act.call, c);
      EnteredWalk(w, act.call, c);
      WalkHasProblem(Understand, Entered(w, act.call, c), w.evidence, act.call.answers, c);
    }
  }

  lemma {:induction false} RunProblems(acts: seq<Action>, c: Config)
    ensures AllProblems(BugDiagnosisRuns.After(acts, c))
  {
    if acts != [] {
      RunProblems(acts[..|acts| - 1], c);
      StepProblems(BugDiagnosisRuns.After(acts[..|acts| - 1], c), acts[|acts| - 1], c);
    }
  }

  /** What a call makes of the report: a fresh one begins the story, a resume adds its message to it and keeps
      the problem that the first report stated. */
  ghost function ToldStory(w: Memory, x: Call): Story {
    var t := LiveThread(w, x);
    if Get(t, Status) == Text("clarification_required") then
      StoryOf(t).(original := Text(Strip(TextOf(Get(t, OriginalMessage)) + "\n补充信息：" + Strip(x.report))),
                  latest := Text(Strip(x.report)))
    else
      Story(Text(Strip(x.report)), Text(Strip(x.report)), Text(Strip(x.report)), Text(x.conversation),
            Moment(x.startedAt))
  }

  lemma {:induction false} EnteredStory(w: Memory, x: Call, c: Config)
    ensures StoryOf(Entered(w, x, c)) == ToldStory(w, x)
  {
    LiveIs(w, x);
    if Pending(SnapshotOf(w, x)) {
      InterruptStory(SnapshotOf(w, x), Resume(x.report, x.run, InheritedBy(w, x)));
    } else {
      InitialStory(SnapshotOf(w, x), InheritedBy(w, x), x, c);
    }
  }

  /** In every run, whatever a call finds or however it ends, this is the story it leaves. */
  lemma {:induction false} StoryIsTold(acts: seq<Action>, x: Call, c: Config)
    requires !IsCancel(x) && !HistoryFails(BugDiagnosisRuns.After(acts, c), x)
    ensures var w, w' := BugDiagnosisRuns.After(acts, c), AfterDiagnose(BugDiagnosisRuns.After(acts, c), x, c);
            x.conversation in w'.threads && StoryOf(w'.threads[x.conversation]) == ToldStory(w, x)
  {
    var w := BugDiagnosisRuns.After(acts, c);
    RunProblems(acts, c);
    EnteredProblem(w, x, c);
    EnteredStory(w, x, c);
    EnteredWalk(w, x, c);
    StoryStays(Entered(w, x, c), w.evidence, x.answers, c);
  }

  // ---- What the intake told ----

  /** What the intake says, or what the field held where it says nothing. */
  ghost function OrBefore(said: Value, before: Value): Value {
    if !Truthy(said) && Truthy(before) then before else said
  }

  lemma {:induction false} IntakeTells(s: State, i: Intake, now: int)
    ensures var u := UnderstandInput(s, i, now);
            && Service in u && u[Service] == OrBefore(i.service, Get(s, Service))
            && Endpoint in u && u[Endpoint] == OrBefore(i.endpoint, Get(s, Endpoint))
            && RequestTimeEvidence in u
            && u[RequestTimeEvidence] == OrBefore(i.requestTimeEvidence, Get(s, RequestTimeEvidence))
  {
    IntakeGives(s, i, now, Service);
    IntakeGives(s, i, now, Endpoint);
    IntakeGives(s, i, now, RequestTimeEvidence);
  }

  lemma {:induction false} IntakeGives(s: State, i: Intake, now: int, f: Field)
    requires f.Service? || f.Endpoint? || f.RequestTimeEvidence? || f.EnvironmentEvidence? || f.Symptoms? || f.DomainHints?
    ensures f in UnderstandInput(s, i, now) && UnderstandInput(s, i, now)[f] == IntakeValue(s, i, f)
  {
    assert f in IntakeValues(s, i);
  }

  lemma {:induction false} IntakeShows(s: State, i: Intake, now: int)
    ensures var u := UnderstandInput(s, i, now);
            && EnvironmentEvidence in u && u[EnvironmentEvidence] == i.environmentEvidence
            && Symptoms in u && u[Symptoms] == i.symptoms && DomainHints in u && u[DomainHints] == i.domainHints
  {
    IntakeGives(s, i, now, EnvironmentEvidence);
    IntakeGives(s, i, now, Symptoms);
    IntakeGives(s, i, now, DomainHints);
  }

  /** What the thread says after a call whose intake answered. */
  ghost predicate IntakeKept(i: Intake, service: Value, endpoint: Value, timeEvidence: Value, t: State) {
    && Get(t, Service) == OrBefore(i.service, service)
    && Get(t, Endpoint) == OrBefore(i.endpoint, endpoint)
    && Get(t, RequestTimeEvidence) == OrBefore(i.requestTimeEvidence, timeEvidence)
    && Get(t, EnvironmentEvidence) == i.environmentEvidence && Get(t, Symptoms) == i.symptoms
    && Get(t, DomainHints) == i.domainHints
  }

  lemma {:induction false} IntakeLasts(t: State, s: State, i: Intake, now: int)
    requires LaterKept(t, s + UnderstandInput(s, i, now), 11)
    ensures IntakeKept(i, Get(s, Service), Get(s, Endpoint), Get(s, RequestTimeEvidence), t)
  {
    IntakeTells(s, i, now);
    IntakeShows(s, i, now);
    assert LastWrite(Service) > 11 && LastWrite(Endpoint) > 11 && LastWrite(RequestTimeEvidence) > 11;
    assert LastWrite(EnvironmentEvidence) > 11 && LastWrite(Symptoms) > 11 && LastWrite(DomainHints) > 11;
  }

  lemma {:induction false} WalkTells(s: State, ev: EvidenceMap, a: Answers, c: Config)
    requires a.intake.Ok?
    ensures IntakeKept(a.intake.value, Get(s, Service), Get(s, Endpoint), Get(s, RequestTimeEvidence),
                       Walk(Understand, s, ev, a, c, None).state)
  {
    var u := UnderstandInput(s, a.intake.value, a.understoodAt);
    StepTo(Understand, Validate, s, ev, a, c, None, u, ev, []);
    WalkKeeps(Validate, s + u, ev, a, c);
    IntakeLasts(Walk(Understand, s, ev, a, c, None).state, s, a.intake.value, a.understoodAt);
  }

  lemma {:induction false} InitialService(report: string, conversation: string, run: string, x: Context, now: int, c: Config)
    ensures Get(Initial(report, conversation, run, x, now, c), Service) == Nothing
  {
  }

  lemma {:induction false} InitialEndpoint(report: string, conversation: string, run: string, x: Context, now: int, c: Config)
    ensures Get(Initial(report, conversation, run, x, now, c), Endpoint) == Nothing
  {
  }

  lemma {:induction false} InitialTimeEvidence(report: string, conversation: string, run: string, x: Context, now: int,
                                               c: Config)
    ensures Get(Initial(report, conversation, run, x, now, c), RequestTimeEvidence) == Text("")
  {
  }

  lemma {:induction false} InterruptLeaves(s: State, r: Resume, f: Field)
    requires f.Service? || f.Endpoint? || f.RequestTimeEvidence?
    ensures f !in InterruptForClarification(s, r)
  {
  }

  lemma {:induction false} InterruptLeavesIntake(s: State, r: Resume)
    ensures var t := s + InterruptForClarification(s, r);
            && Get(t, Service) == Get(s, Service) && Get(t, Endpoint) == Get(s, Endpoint)
            && Get(t, RequestTimeEvidence) == Get(s, RequestTimeEvidence)
  {
    InterruptLeaves(s, r, Service);
    InterruptLeaves(s, r, Endpoint);
    InterruptLeaves(s, r, RequestTimeEvidence);
    LeftGet(s, InterruptForClarification(s, r), Service);
    LeftGet(s, InterruptForClarification(s, r), Endpoint);
    LeftGet(s, InterruptForClarification(s, r), RequestTimeEvidence);
  }

  /** A field before the intake: what the resumed thread holds, or nothing. */
  ghost function FieldBefore(w: Memory, x: Call, f: Field): Value {
    if Resumes(w, x) then Get(LiveThread(w, x), f) else Nothing
  }

  lemma {:induction false} EnteredFields(w: Memory, x: Call, c: Config)
    ensures var s := Entered(w, x, c);
            && Get(s, Service) == FieldBefore(w, x, Service) && Get(s, Endpoint) == FieldBefore(w, x, Endpoint)
            && (Get(s, RequestTimeEvidence) == FieldBefore(w, x, RequestTimeEvidence)
                || (!Resumes(w, x) && Get(s, RequestTimeEvidence) == Text("")))
  {
    var s, k := SnapshotOf(w, x), InheritedBy(w, x);
    LiveIs(w, x);
    if Pending(s) {
      InterruptLeavesIntake(s, Resume(x.report, x.run, k));
    } else {
      InitialCoversAll(s, x.report, x.conversation, x.run, k, x.startedAt, c);
      InitialService(x.report, x.conversation, x.run, k, x.startedAt, c);
      InitialEndpoint(x.report, x.conversation, x.run, k, x.startedAt, c);
      InitialTimeEvidence(x.report, x.conversation, x.run, k, x.startedAt, c);
    }
  }

  /** Whatever a call finds or however it ends, the thread keeps what its intake told. */
  lemma {:induction false} IntakeIsKept(w: Memory, x: Call, c: Config)
    requires !IsCancel(x) && !HistoryFails(w, x) && x.answers.intake.Ok?
    ensures x.conversation in AfterDiagnose(w, x, c).threads
    ensures IntakeKept(x.answers.intake.value, FieldBefore(w, x, Service), FieldBefore(w, x, Endpoint),
                       FieldBefore(w, x, RequestTimeEvidence), AfterDiagnose(w, x, c).threads[x.conversation])
  {
    EnteredFields(w, x, c);
    EnteredWalk(w, x, c);
    WalkTells(Entered(w, x, c), w.evidence, x.answers, c);
  }

  // ---- What a completed diagnosis leaves ----

  /** The procedure, the signals of the logs, the matches and the entity hints. */
  ghost predicate Documented(t: State, a: Answers, c: Config) {
    && LogsOf(a, c).found.Some? && a.matches.Ok?
    && SignalsOf(t) == LogSignals(LogsOf(a, c).found.value)
    && Get(t, CodeMatches) == Matches(a.matches.value) && Get(t, EntityHints) == Texts(a.entityHints)
    && (a.procedure.Some? ==> HasProcedure(t, a.procedure.value, c))
  }

  ghost predicate Completes(o: Outcome) { o.ending.Finished? && Get(o.state, Status) == Text("completed") }

  /** A field that a node wrote last is so at the end. */
  lemma {:induction false} Lasts(next: Node, s: State, u: State, ev: EvidenceMap, a: Answers, c: Config, f: Field)
    requires f in u && Rank(next) < LastWrite(f)
    ensures Get(Walk(next, s + u, ev, a, c, None).state, f) == u[f]
  {
    WalkLeaves(next, s + u, ev, a, c, f);
  }

  lemma {:induction false} SearchGives(s: State, m: seq<Match>, hints: seq<string>)
    ensures var u := SearchBranchCode(s, m, hints);
            CodeMatches in u && u[CodeMatches] == Matches(m) && EntityHints in u && u[EntityHints] == Texts(hints)
  {
  }

  /** The update names the procedure. */
  ghost predicate NamesProcedure(u: State, p: Procedure, c: Config) {
    && SelectedProcedureId in u && u[SelectedProcedureId] == Text(p.id)
    && SelectedProcedureVersion in u && u[SelectedProcedureVersion] == Number(p.version)
    && ProcedureCapabilities in u && u[ProcedureCapabilities] == Texts(p.capabilities)
    && ProcedureObserveOnly in u && u[ProcedureObserveOnly] == Flag(c.observeOnly)
  }

  lemma {:induction false} ProcedureGives(p: Procedure, c: Config)
    ensures NamesProcedure(SelectProcedure(Some(p), c), p, c)
  {
  }

  lemma {:induction false} TwoLast(next: Node, s: State, u: State, ev: EvidenceMap, a: Answers, c: Config, f: Field, g: Field)
    requires f in u && g in u && Rank(next) < LastWrite(f) && Rank(next) < LastWrite(g)
    ensures var t := Walk(next, s + u, ev, a, c, None).state; Get(t, f) == u[f] && Get(t, g) == u[g]
  {
    Lasts(next, s, u, ev, a, c, f);
    Lasts(next, s, u, ev, a, c, g);
  }

  lemma {:induction false} SearchAnswers(s: State, ev: EvidenceMap, a: Answers, c: Config)
    requires Completes(Walk(Search, s, ev, a, c, None))
    ensures a.matches.Ok? && EntryOf(ev, TextOf(Get(s, RunId))).logs.Some?
  {
  }

  lemma {:induction false} SearchStep(s: State, ev: EvidenceMap, a: Answers, c: Config) returns (ev1: EvidenceMap)
    requires a.matches.Ok? && EntryOf(ev, TextOf(Get(s, RunId))).logs.Some?
    ensures Walk(Search, s, ev, a, c, None).state ==
              Walk(Enrich, s + SearchBranchCode(s, a.matches.value, a.entityHints), ev1, a, c, None).state
  {
    var u, run := SearchBranchCode(s, a.matches.value, a.entityHints), TextOf(Get(s, RunId));
    ev1 := ev[run := EntryOf(ev, run).(code := Some(a.matches.value))];
    StepTo(Search, Enrich, s, ev, a, c, None, u, ev1, [Searched(Get(s, LogCount), SignalsOf(s))]);
  }

  lemma {:induction false} MatchesLast(s: State, u: State, ev: EvidenceMap, a: Answers, c: Config, m: seq<Match>)
    requires CodeMatches in u && u[CodeMatches] == Matches(m) && EntityHints in u && u[EntityHints] == Texts(a.entityHints)
    ensures var t := Walk(Enrich, s + u, ev, a, c, None).state;
            Get(t, CodeMatches) == Matches(m) && Get(t, EntityHints) == Texts(a.entityHints)
  {
    TwoLast(Enrich, s, u, ev, a, c, CodeMatches, EntityHints);
  }

  lemma {:induction false} FromSearchOn(s: State, ev: EvidenceMap, a: Answers, c: Config)
    requires Completes(Walk(Search, s, ev, a, c, None))
    ensures a.matches.Ok?
    ensures var t := Walk(Search, s, ev, a, c, None).state;
            Get(t, CodeMatches) == Matches(a.matches.value) && Get(t, EntityHints) == Texts(a.entityHints)
  {
    SearchAnswers(s, ev, a, c);
    var ev1 := SearchStep(s, ev, a, c);
    SearchGives(s, a.matches.value, a.entityHints);
    MatchesLast(s, SearchBranchCode(s, a.matches.value, a.entityHints), ev1, a, c, a.matches.value);
  }

  lemma {:induction false} SignalsKept(t: State, s: State)
    requires LaterKept(t, s, 6)
    ensures SignalsOf(t) == SignalsOf(s)
  {
    assert LastWrite(ExceptionTypes) > 6 && LastWrite(StackFrames) > 6;
    assert LastWrite(LogServices) > 6 && LastWrite(LogEndpoints) > 6;
  }

  lemma {:induction false} SignalsLast(s: State, ev: EvidenceMap, a: Answers, c: Config)
    ensures SignalsOf(Walk(Search, s, ev, a, c, None).state) == SignalsOf(s)
  {
    WalkKeeps(Search, s, ev, a, c);
    SignalsKept(Walk(Search, s, ev, a, c, None).state, s);
  }

  lemma {:induction false} FromExtractOn(s: State, ev: EvidenceMap, a: Answers, c: Config)
    requires Completes(Walk(Extract, s, ev, a, c, None))
    requires EntryOf(ev, TextOf(Get(s, RunId))).logs.Some?
    ensures var t := Walk(Extract, s, ev, a, c, None).state;
            && a.matches.Ok? && Get(t, CodeMatches) == Matches(a.matches.value)
            && Get(t, EntityHints) == Texts(a.entityHints)
            && SignalsOf(t) == LogSignals(EntryOf(ev, TextOf(Get(s, RunId))).logs.value)
  {
    var l := EntryOf(ev, TextOf(Get(s, RunId))).logs.value;
    var u := ExtractLogSignals(l);
    StepTo(Extract, Search, s, ev, a, c, None, u, ev, []);
    FromSearchOn(s + u, ev, a, c);
    ExtractSignals(s, l);
    SignalsLast(s + u, ev, a, c);
  }

  /** A query that finds nothing leads to no completed diagnosis. */
  lemma {:induction false} EmptyQueryEnds(s: State, ev: EvidenceMap, a: Answers, c: Config)
    requires !(Truthy(Get(s, RequestTime)) && !a.timeReadable)
    requires LogsOf(a, c).found.None? || LogsOf(a, c).found.value.count == 0
    ensures !Completes(Walk(Query, s, ev, a, c, None))
  {
    var l, run := LogsOf(a, c), TextOf(Get(s, RunId));
    var u := QueryTraceLogs(l);
    var queried := Repeat(Queried(Get(s, Environment), Get(s, TraceId), Get(s, RequestTime)), l.calls);
    var ev1 := if l.found.Some? then ev[run := EntryOf(ev, run).(logs := l.found)] else ev;
    QueryKeys(l);
    StepTo(Query, Finalize, s, ev, a, c, None, u, ev1, queried);
    FromFinalize(s + u, ev1, a, c, None);
    assert Get(Walk(Query, s, ev, a, c, None).state, Status) == ViewOf(s + u).status;
  }

  lemma {:induction false} FromQueryOn(s: State, ev: EvidenceMap, a: Answers, c: Config)
    requires Completes(Walk(Query, s, ev, a, c, None))
    ensures var t := Walk(Query, s, ev, a, c, None).state;
            && LogsOf(a, c).found.Some? && a.matches.Ok? && Get(t, CodeMatches) == Matches(a.matches.value)
            && Get(t, EntityHints) == Texts(a.entityHints) && SignalsOf(t) == LogSignals(LogsOf(a, c).found.value)
  {
    if !(Truthy(Get(s, RequestTime)) && !a.timeReadable) {
      var l, run := LogsOf(a, c), TextOf(Get(s, RunId));
      if l.found.Some? && l.found.value.count > 0 {
        var u := QueryTraceLogs(l);
        var queried := Repeat(Queried(Get(s, Environment), Get(s, TraceId), Get(s, RequestTime)), l.calls);
        var ev1 := ev[run := EntryOf(ev, run).(logs := l.found)];
        QueryKeys(l);
        StepTo(Query, Extract, s, ev, a, c, None, u, ev1, queried);
        FromExtractOn(s + u, ev1, a, c);
      } else {
        EmptyQueryEnds(s, ev, a, c);
      }
    }
  }

  ghost predicate HasProcedure(t: State, p: Procedure, c: Config) {
    && Get(t, SelectedProcedureId) == Text(p.id) && Get(t, SelectedProcedureVersion) == Number(p.version)
    && Get(t, ProcedureCapabilities) == Texts(p.capabilities) && Get(t, ProcedureObserveOnly) == Flag(c.observeOnly)
  }

  lemma {:induction false} ProcedureKept(t: State, s: State, u: State, p: Procedure, c: Config)
    requires LaterKept(t, s + u, 8) && NamesProcedure(u, p, c)
    ensures HasProcedure(t, p, c)
  {
    assert LastWrite(SelectedProcedureId) > 8 && LastWrite(SelectedProcedureVersion) > 8;
    assert LastWrite(ProcedureCapabilities) > 8 && LastWrite(ProcedureObserveOnly) > 8;
  }

  lemma {:induction false} ProcedureLasts(s: State, u: State, ev: EvidenceMap, a: Answers, c: Config, p: Procedure)
    requires NamesProcedure(u, p, c)
    ensures HasProcedure(Walk(Query, s + u, ev, a, c, None).state, p, c)
  {
    WalkKeeps(Query, s + u, ev, a, c);
    ProcedureKept(Walk(Query, s + u, ev, a, c, None).state, s, u, p, c);
  }

  lemma {:induction false} FromSelectOn(s: State, ev: EvidenceMap, a: Answers, c: Config)
    requires Completes(Walk(Select, s, ev, a, c, None))
    ensures Documented(Walk(Select, s, ev, a, c, None).state, a, c)
  {
    StepTo(Select, Query, s, ev, a, c, None, SelectProcedure(a.procedure, c), ev, []);
    FromQueryOn(s + SelectProcedure(a.procedure, c), ev, a, c);
    if a.procedure.Some? {
      ProcedureGives(a.procedure.value, c);
      ProcedureLasts(s, SelectProcedure(a.procedure, c), ev, a, c, a.procedure.value);
    }
  }

  lemma {:induction false} FromUnderstandOn(s: State, ev: EvidenceMap, a: Answers, c: Config)
    requires Completes(Walk(Understand, s, ev, a, c, None))
    ensures Documented(Walk(Understand, s, ev, a, c, None).state, a, c)
  {
    if a.intake.Ok? {
      var u := UnderstandInput(s, a.intake.value, a.understoodAt);
      StepTo(Understand, Validate, s, ev, a, c, None, u, ev, []);
      FromValidateOn(s + u, ev, a, c);
    }
  }

  lemma {:induction false} FromValidateOn(s: State, ev: EvidenceMap, a: Answers, c: Config)
    requires Completes(Walk(Validate, s, ev, a, c, None))
    ensures Documented(Walk(Validate, s, ev, a, c, None).state, a, c)
  {
    var u := ValidateRequiredFields(s, a.validatedAt, c);
    ValidateLeaves(s, a.validatedAt, c, MissingFields);
    LeftGet(s, u, MissingFields);
    if Truthy(Get(s, MissingFields)) {
      StepTo(Validate, Interrupt, s, ev, a, c, None, u, ev, []);
    } else {
      StepTo(Validate, Select, s, ev, a, c, None, u, ev, []);
      FromSelectOn(s + u, ev, a, c);
    }
  }

  lemma {:induction false} FinishedStatus(v: View, ev: EvidenceMap, a: Answers, c: Config, o: Outcome)
    requires Clean(v) && Runs(v, ev, a, c, o) && o.ending.Finished?
    ensures Get(o.state, Status).Text? && Get(o.state, Status).text != ""
  {
    assert Get(o.state, Status) == ViewOf(o.state).status;
  }

  /** In every run, a completed diagnosis leaves its own signals, matches, hints and procedure in the
      thread. */
  lemma {:induction false} CompletedIsDocumented(acts: seq<Action>, x: Call, c: Config)
    requires var reply := ReplyTo(BugDiagnosisRuns.After(acts, c), x, c); reply.Diagnosis? && reply.status == "completed"
    ensures var w' := AfterDiagnose(BugDiagnosisRuns.After(acts, c), x, c);
            x.conversation in w'.threads && Documented(w'.threads[x.conversation], x.answers, c)
  {
    var w := BugDiagnosisRuns.After(acts, c);
    RunKeeps(acts, c);
    CallRuns(w, x, c);
    FinishedStatus(StartView(w, x, c), w.evidence, x.answers, c, OutcomeOf(w, x, c));
    EnteredWalk(w, x, c);
    FromUnderstandOn(Entered(w, x, c), w.evidence, x.answers, c);
  }

  // ---- Cancelling ----

  /** The cancelling message deletes the conversation's thread and does nothing else. */
  lemma {:induction false} CancelDeletes(w: Memory, x: Call, c: Config)
    requires Strip(x.report) == "取消诊断"
    ensures AfterDiagnose(w, x, c) == Memory(w.threads - {x.conversation}, w.evidence)
    ensures ReplyTo(w, x, c) == Cancelled && EventsOf(w, x, c) == []
  {
  }
}
