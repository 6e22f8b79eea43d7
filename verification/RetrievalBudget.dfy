/**
 The retrieval budget of a run (knowledge/agent_runtime/context.py, `reserve_retrieval`).
 */
module RetrievalBudget {
  import opened Common

  /** NFKC normalisation with case folding, and `str.isalnum`. */
  datatype Normal = Normal(fold: string -> string, alnum: char -> bool)

  const SEPARATOR := '\U{1f}'

  /** The separator is no letter and no digit. */
  predicate Proper(n: Normal) { !n.alnum(SEPARATOR) }

  function Filter(s: string, n: Normal): string {
    if s == "" then "" else (if n.alnum(s[0]) then [s[0]] else []) + Filter(s[1..], n)
  }

  function Normalized(s: string, n: Normal): string { Filter(n.fold(s), n) }

  datatype Fields = Fields(query: string, app: string, domain: string, source: string, branch: string, task: string)

  function NormalFields(f: Fields, n: Normal): Fields {
    Fields(Normalized(f.query, n), Normalized(f.app, n), Normalized(f.domain, n), Normalized(f.source, n),
           Normalized(f.branch, n), Normalized(f.task, n))
  }

  function Joined(f: Fields): string {
    f.query + [SEPARATOR] + (f.app + [SEPARATOR] + (f.domain + [SEPARATOR] + (f.source + [SEPARATOR]
      + (f.branch + [SEPARATOR] + f.task))))
  }

  function Signature(f: Fields, n: Normal): string { Joined(NormalFields(f, n)) }

  datatype Verdict = Allowed | Duplicate | BudgetExhausted

  datatype Limits = Limits(calls: int, identical: int)

  function CountOf(signatures: map<string, nat>, s: string): nat { if s in signatures then signatures[s] else 0 }

  function Judge(signatures: map<string, nat>, calls: nat, s: string, l: Limits): Verdict {
    if CountOf(signatures, s) >= l.identical then Duplicate else if calls >= l.calls then BudgetExhausted else Allowed
  }

  class AgentRunContext {
    var signatures: map<string, nat>
    var calls: nat

    constructor ()
      ensures signatures == map[] && calls == 0
    {
      signatures, calls := map[], 0;
    }

    method ReserveRetrieval(f: Fields, n: Normal, l: Limits) returns (v: Verdict)
      modifies this
      ensures v == Judge(old(signatures), old(calls), Signature(f, n), l)
      ensures var count := if Signature(f, n) in old(signatures) then old(signatures)[Signature(f, n)] else 0;
              && (v == Duplicate <==> count >= l.identical)
              && (v == BudgetExhausted <==> count < l.identical && old(calls) >= l.calls)
      ensures v.Allowed? ==>
                && calls == old(calls) + 1 <= l.calls
                && signatures == old(signatures)[Signature(f, n) := CountOf(old(signatures), Signature(f, n)) + 1]
                && signatures[Signature(f, n)] <= l.identical
      ensures !v.Allowed? ==> calls == old(calls) && signatures == old(signatures)
    {
      var s := Signature(f, n);
      var count := if s in signatures then signatures[s] else 0;
      if count >= l.identical { return Duplicate; }
      if calls >= l.calls { return BudgetExhausted; }
      signatures := signatures[s := count + 1];
      calls := calls + 1;
      return Allowed;
    }
  }

  // ---- Signatures tell fields apart ----

  predicate Clear(s: string) { SEPARATOR !in s }

  lemma {:induction false} FilterClear(s: string, n: Normal)
    requires Proper(n)
    ensures Clear(Filter(s, n))
  {
    if s != "" { FilterClear(s[1..], n); }
  }

  lemma {:induction false} JoinedAt(a: string, x: string, i: nat)
    ensures i < |a| ==> (a + [SEPARATOR] + x)[i] in a
    ensures i == |a| ==> (a + [SEPARATOR] + x)[i] == SEPARATOR
  {
  }

  lemma {:induction false} SplitSame(a: string, x: string, b: string, y: string)
    requires Clear(a) && Clear(b) && a + [SEPARATOR] + x == b + [SEPARATOR] + y
    ensures a == b && x == y
  {
    var s := a + [SEPARATOR] + x;
    JoinedAt(a, x, |a|);
    JoinedAt(b, y, |b|);
    JoinedAt(b, y, |a|);
    JoinedAt(a, x, |b|);
    assert |a| == |b|;
    assert a == s[..|a|] && b == s[..|b|];
    assert x == s[|a| + 1..] && y == s[|b| + 1..];
  }

  /** The texts hold the same letters and digits in the same order. */
  predicate SameAlnum(s: string, t: string, n: Normal)
    decreases |s| + |t|
  {
    if s != "" && !n.alnum(s[0]) then SameAlnum(s[1..], t, n)
    else if t != "" && !n.alnum(t[0]) then SameAlnum(s, t[1..], n)
    else if s == "" || t == "" then s == t
    else s[0] == t[0] && SameAlnum(s[1..], t[1..], n)
  }

  lemma {:induction false} FirstDropped(s: string, n: Normal)
    requires s != "" && !n.alnum(s[0])
    ensures Filter(s, n) == Filter(s[1..], n)
  {
    assert [] + Filter(s[1..], n) == Filter(s[1..], n);
  }

  lemma {:induction false} FirstKept(s: string, t: string, n: Normal)
    requires s != "" && t != "" && n.alnum(s[0]) && n.alnum(t[0])
    ensures Filter(s, n) == Filter(t, n) <==> s[0] == t[0] && Filter(s[1..], n) == Filter(t[1..], n)
  {
    var x, y := Filter(s[1..], n), Filter(t[1..], n);
    assert ([s[0]] + x)[0] == s[0] && ([t[0]] + y)[0] == t[0];
    assert ([s[0]] + x)[1..] == x && ([t[0]] + y)[1..] == y;
  }

  lemma {:induction false} SameAlnumIs(s: string, t: string, n: Normal)
    ensures SameAlnum(s, t, n) <==> Filter(s, n) == Filter(t, n)
    decreases |s| + |t|
  {
    if s != "" && !n.alnum(s[0]) {
      FirstDropped(s, n);
      SameAlnumIs(s[1..], t, n);
    } else if t != "" && !n.alnum(t[0]) {
      FirstDropped(t, n);
      SameAlnumIs(s, t[1..], n);
    } else if s != "" && t != "" {
      FirstKept(s, t, n);
      SameAlnumIs(s[1..], t[1..], n);
    }
  }

  lemma {:induction false} SignatureOfNormal(f: Fields, g: Fields, n: Normal)
    requires Proper(n)
    ensures Signature(f, n) == Signature(g, n) <==> NormalFields(f, n) == NormalFields(g, n)
  {
    var a, b := NormalFields(f, n), NormalFields(g, n);
    FieldsClear(f, n);
    FieldsClear(g, n);
    if Joined(a) == Joined(b) {
      var a4, b4 := a.branch + [SEPARATOR] + a.task, b.branch + [SEPARATOR] + b.task;
      var a3, b3 := a.source + [SEPARATOR] + a4, b.source + [SEPARATOR] + b4;
      var a2, b2 := a.domain + [SEPARATOR] + a3, b.domain + [SEPARATOR] + b3;
      SplitSame(a.query, a.app + [SEPARATOR] + a2, b.query, b.app + [SEPARATOR] + b2);
      SplitSame(a.app, a2, b.app, b2);
      SplitSame(a.domain, a3, b.domain, b3);
      SplitSame(a.source, a4, b.source, b4);
      SplitSame(a.branch, a.task, b.branch, b.task);
    }
  }

  /** Two requests have one signature exactly when each of their fields, case-folded, holds the same letters
      and digits. */
  lemma {:induction false} SignatureExactly(f: Fields, g: Fields, n: Normal)
    requires Proper(n)
    ensures Signature(f, n) == Signature(g, n) <==>
              && SameAlnum(n.fold(f.query), n.fold(g.query), n) && SameAlnum(n.fold(f.app), n.fold(g.app), n)
              && SameAlnum(n.fold(f.domain), n.fold(g.domain), n) && SameAlnum(n.fold(f.source), n.fold(g.source), n)
              && SameAlnum(n.fold(f.branch), n.fold(g.branch), n) && SameAlnum(n.fold(f.task), n.fold(g.task), n)
  {
    SignatureOfNormal(f, g, n);
    SameAlnumIs(n.fold(f.query), n.fold(g.query), n);
    SameAlnumIs(n.fold(f.app), n.fold(g.app), n);
    SameAlnumIs(n.fold(f.domain), n.fold(g.domain), n);
    SameAlnumIs(n.fold(f.source), n.fold(g.source), n);
    SameAlnumIs(n.fold(f.branch), n.fold(g.branch), n);
    SameAlnumIs(n.fold(f.task), n.fold(g.task), n);
  }

  lemma {:induction false} FieldsClear(f: Fields, n: Normal)
    requires Proper(n)
    ensures var a := NormalFields(f, n);
            Clear(a.query) && Clear(a.app) && Clear(a.domain) && Clear(a.source) && Clear(a.branch)
  {
    FilterClear(n.fold(f.query), n);
    FilterClear(n.fold(f.app), n);
    FilterClear(n.fold(f.domain), n);
    FilterClear(n.fold(f.source), n);
    FilterClear(n.fold(f.branch), n);
  }

  // ---- The sum of the counts ----

  ghost function Total(m: map<string, nat>): nat
    decreases |m|
  {
    if m == map[] then 0 else var s :| s in m; m[s] + Total(m - {s})
  }

  lemma {:induction false} TotalWithout(m: map<string, nat>, s: string)
    requires s in m
    ensures Total(m) == m[s] + Total(m - {s})
    decreases |m|
  {
    var r :| r in m && Total(m) == m[r] + Total(m - {r});
    if r != s {
      TotalWithout(m - {r}, s);
      TotalWithout(m - {s}, r);
      assert m - {r} - {s} == m - {s} - {r};
    }
  }

  lemma {:induction false} TotalMore(m: map<string, nat>, s: string)
    ensures Total(m[s := CountOf(m, s) + 1]) == Total(m) + 1
  {
    var m' := m[s := CountOf(m, s) + 1];
    TotalWithout(m', s);
    if s in m {
      TotalWithout(m, s);
      assert m' - {s} == m - {s};
    } else {
      assert m' - {s} == m;
    }
  }
}

/** The evidence collectors of a run (knowledge/agent_runtime/rag_tools.py, `create_domain_evidence_tool`)
    as interleaved tasks over one budget.  A step runs to the next await. */
module EvidenceCollection {
  import opened Common
  import opened RetrievalBudget

  datatype Source = ProductDocument | CodeSource | SwaggerSource

  /** What a task waits for. */
  datatype Phase =
    | Ready(ticket: nat)       // paid for; the pipeline is not asked yet
    | Asked                    // the pipeline was asked
    | Looked                   // exact symbols were looked up, or that was refused
    | Extra                    // the supplemental search was made, or refused
    | Inspecting               // registered Swagger documents
    | Over(evidence: bool)     // answered, failed or timed out

  datatype Task = Task(collector: nat, source: Source, phase: Phase)

  datatype Collector = Collector(domain: string, task: string, query: string, branch: string, closed: bool)

  /** `ticket` is the place in the log of the reservation that pays for a call. */
  datatype Event =
    | Reserved(collector: nat, source: Source, signature: string)
    | Searched(collector: nat, source: Source, ticket: nat)
    | Fetched(collector: nat, source: Source, ticket: nat)

  datatype World = World(
    signatures: map<string, nat>, calls: nat, domains: seq<string>, collectors: seq<Collector>, tasks: seq<Task>,
    log: seq<Event>)

  datatype Settings = Settings(app: string, normal: Normal, limits: Limits)

  const START := World(map[], 0, [], [], [], [])

  function SourceName(s: Source): string {
    match s case ProductDocument => "product_document" case CodeSource => "code" case SwaggerSource => "swagger"
  }

  function RequestOf(w: World, c: nat, query: string, source: Source, branch: string, k: Settings): string
    requires c < |w.collectors|
  {
    Signature(Fields(query, k.app, w.collectors[c].domain, SourceName(source), branch, w.collectors[c].task), k.normal)
  }

  /** One reservation of a collector. */
  function Reserve(w: World, c: nat, source: Source, s: string, l: Limits): World {
    if Judge(w.signatures, w.calls, s, l).Allowed?
    then w.(signatures := w.signatures[s := CountOf(w.signatures, s) + 1], calls := w.calls + 1,
            log := w.log + [Reserved(c, source, s)])
    else w
  }

  predicate Grants(w: World, s: string, l: Limits) { Judge(w.signatures, w.calls, s, l).Allowed? }

  /** What is planned for each task type. */
  function Plan(task: string, mentionsApi: bool): seq<Source> {
    match task
    case "how_to" => [ProductDocument, CodeSource]
    case "api_contract" => [CodeSource, SwaggerSource]
    case "code_lookup" => [CodeSource]
    case "requirement_analysis" => [ProductDocument, CodeSource] + if mentionsApi then [SwaggerSource] else []
    case "metric_query" => [ProductDocument]
    case _ => [ProductDocument, CodeSource]
  }

  /** Product documents are planned but for contracts and code lookups, code but for metrics, Swagger for
      contracts and for requirements that mention an API; each at most once, in this order. */
  lemma {:induction false} PlanIs(task: string, mentionsApi: bool)
    ensures var plan := Plan(task, mentionsApi);
            && (ProductDocument in plan <==> task != "api_contract" && task != "code_lookup")
            && (CodeSource in plan <==> task != "metric_query")
            && (SwaggerSource in plan <==> task == "api_contract" || (task == "requirement_analysis" && mentionsApi))
            && (forall i, j :: 0 <= i < j < |plan| ==>
                  plan[i] != plan[j] && !plan[i].SwaggerSource? && !plan[j].ProductDocument?)
  {
    var plan := Plan(task, mentionsApi);
    assert task == "requirement_analysis" && mentionsApi ==> plan == [ProductDocument, CodeSource, SwaggerSource];
    assert task == "requirement_analysis" && !mentionsApi ==> plan == [ProductDocument, CodeSource];
  }

  /** A planned modality is reserved; when that is granted, a task is made for it. */
  function PlanOne(w: World, c: nat, query: string, source: Source, branch: string, k: Settings): World
    requires c < |w.collectors|
  {
    var s := RequestOf(w, c, query, source, branch, k);
    if !Grants(w, s, k.limits) then w
    else
      Reserve(w, c, source, s, k.limits).(
      tasks := w.tasks + [Task(c, source, if source.SwaggerSource? then Inspecting else Ready(|w.log|))])
  }

  function PlanAll(w: World, c: nat, plan: seq<Source>, k: Settings): (r: World)
    requires c < |w.collectors|
    ensures r.collectors == w.collectors
  {
    if plan == [] then w
    else
      var w1 := PlanAll(w, c, plan[..|plan| - 1], k);
      var source := plan[|plan| - 1];
      PlanOne(w1, c, w.collectors[c].query, source, if source.CodeSource? then w.collectors[c].branch else "", k)
  }

  lemma {:induction false} PlanOneAdds(w: World, c: nat, query: string, source: Source, branch: string, k: Settings)
    requires c < |w.collectors|
    ensures var n := if Grants(w, RequestOf(w, c, query, source, branch, k), k.limits) then 1 else 0;
            var w' := PlanOne(w, c, query, source, branch, k);
            |w'.tasks| == |w.tasks| + n && w'.calls == w.calls + n && w'.collectors == w.collectors
  {
  }

  /** The reservation loop of `collect_domain_evidence`. */
  method ReservePlan(w: World, c: nat, plan: seq<Source>, k: Settings)
    returns (r: World, allowed: seq<Source>, skipped: seq<Source>)
    requires c < |w.collectors|
    ensures r == PlanAll(w, c, plan, k)
    ensures |allowed| + |skipped| == |plan|
    ensures |r.tasks| == |w.tasks| + |allowed| && r.calls == w.calls + |allowed|
  {
    r, allowed, skipped := w, [], [];
    var i := 0;
    while i < |plan|
      invariant 0 <= i <= |plan| && r == PlanAll(w, c, plan[..i], k)
      invariant |allowed| + |skipped| == i
      invariant |r.tasks| == |w.tasks| + |allowed| && r.calls == w.calls + |allowed|
    {
      var source := plan[i];
      var branch := if source.CodeSource? then w.collectors[c].branch else "";
      PlanStep(w, c, plan, i, k);
      PlanOneAdds(r, c, w.collectors[c].query, source, branch, k);
      if Grants(r, RequestOf(r, c, w.collectors[c].query, source, branch, k), k.limits) {
        allowed := allowed + [source];
      } else {
        skipped := skipped + [source];
      }
      r := PlanOne(r, c, w.collectors[c].query, source, branch, k);
      i := i + 1;
    }
    assert plan[..i] == plan;
  }

  lemma {:induction false} PlanStep(w: World, c: nat, plan: seq<Source>, i: nat, k: Settings)
    requires c < |w.collectors| && i < |plan|
    ensures PlanAll(w, c, plan[..i + 1], k) ==
              PlanOne(PlanAll(w, c, plan[..i], k), c, w.collectors[c].query, plan[i],
                      if plan[i].CodeSource? then w.collectors[c].branch else "", k)
  {
    assert plan[..i + 1][..i] == plan[..i];
  }

  datatype Action =
    | Collect(domain: string, query: string, task: string, branch: string, mentionsApi: bool)
    | Search(id: nat)
    | Refer(id: nat, types: string)
    | Supplement(id: nat, types: string)
    | End(id: nat, evidence: bool)
    | Gather(collector: nat)

  function WithPhase(w: World, t: nat, p: Phase): World
    requires t < |w.tasks|
  {
    w.(tasks := w.tasks[t := w.tasks[t].(phase := p)])
  }

  /** Only code tasks of an API contract follow up on the types that the first answer names. */
  predicate FollowsUp(w: World, t: nat)
    requires t < |w.tasks|
  {
    w.tasks[t].source.CodeSource? && w.tasks[t].collector < |w.collectors|
    && w.collectors[w.tasks[t].collector].task == "api_contract"
  }

  /** A reservation and, when it is granted, the call it pays for. */
  function ReserveAndCall(w: World, t: nat, query: string, fetch: bool, k: Settings): World
    requires t < |w.tasks| && w.tasks[t].collector < |w.collectors|
  {
    var c, source := w.tasks[t].collector, w.tasks[t].source;
    var s := RequestOf(w, c, query, source, w.collectors[c].branch, k);
    if !Grants(w, s, k.limits) then w
    else
      var w1 := Reserve(w, c, source, s, k.limits);
      w1.(log := w1.log + [if fetch then Fetched(c, source, |w.log|) else Searched(c, source, |w.log|)])
  }

  predicate AllOver(w: World, c: nat) {
    forall t :: 0 <= t < |w.tasks| && w.tasks[t].collector == c ==> w.tasks[t].phase.Over?
  }

  predicate SomeEvidence(w: World, c: nat) {
    exists t :: 0 <= t < |w.tasks| && w.tasks[t].collector == c && w.tasks[t].phase == Over(true)
  }

  function Apply(w: World, a: Action, k: Settings): World {
    match a
    case Collect(domain, query, task, branch, mentionsApi) =>
      if domain in w.domains then w
      else
        var w1 := w.(domains := w.domains + [domain],
                     collectors := w.collectors + [Collector(domain, task, query, branch, false)]);
        PlanAll(w1, |w.collectors|, Plan(task, mentionsApi), k)
    case Search(t) =>
      if t < |w.tasks| && w.tasks[t].phase.Ready?
      then WithPhase(w, t, Asked).(
           log := w.log + [Searched(w.tasks[t].collector, w.tasks[t].source, w.tasks[t].phase.ticket)])
      else w
    case Refer(t, types) =>
      if t < |w.tasks| && w.tasks[t].phase.Asked? && FollowsUp(w, t) && types != ""
      then
        var w1 := ReserveAndCall(w, t, "exact symbol " + types, true, k);
        w1.(tasks := w1.tasks[t := w1.tasks[t].(phase := Looked)])
      else w
    case Supplement(t, types) =>
      if t < |w.tasks| && w.tasks[t].phase.Looked? && FollowsUp(w, t)
      then
        var w1 := ReserveAndCall(w, t, types + " field definition", false, k);
        w1.(tasks := w1.tasks[t := w1.tasks[t].(phase := Extra)])
      else w
    case End(t, evidence) => if t < |w.tasks| then WithPhase(w, t, Over(evidence)) else w
    case Gather(c) =>
      if c < |w.collectors| && !w.collectors[c].closed && AllOver(w, c)
      then
        var w1 := w.(collectors := w.collectors[c := w.collectors[c].(closed := true)]);
        if w.collectors[c].task == "api_contract" && !SomeEvidence(w, c)
        then PlanOne(w1, c, w.collectors[c].query, ProductDocument, "", k)
        else w1
      else w
  }

  function After(acts: seq<Action>, k: Settings): World {
    if acts == [] then START else Apply(After(acts[..|acts| - 1], k), acts[|acts| - 1], k)
  }

  // ---- Counting ----

  function Reservations(log: seq<Event>): nat {
    if log == [] then 0 else Reservations(log[..|log| - 1]) + if log[|log| - 1].Reserved? then 1 else 0
  }

  function ReservationsOf(log: seq<Event>, s: string): nat {
    if log == [] then 0
    else ReservationsOf(log[..|log| - 1], s)
         + if log[|log| - 1].Reserved? && log[|log| - 1].signature == s then 1 else 0
  }

  /** Calls of `pipeline.search` and `get_chunks`. */
  function Calls(log: seq<Event>): nat {
    if log == [] then 0 else Calls(log[..|log| - 1]) + if log[|log| - 1].Reserved? then 0 else 1
  }

  predicate IsCall(e: Event, ticket: nat) { !e.Reserved? && e.ticket == ticket }

  /** The call at `i` is paid by its own collector's reservation for its source. */
  predicate PaidAt(log: seq<Event>, i: nat)
    requires i < |log|
  {
    !log[i].Reserved? ==>
      log[i].ticket < i && log[log[i].ticket].Reserved?
      && log[log[i].ticket].collector == log[i].collector && log[log[i].ticket].source == log[i].source
  }

  ghost predicate Paid(log: seq<Event>) {
    && (forall i :: 0 <= i < |log| ==> PaidAt(log, i))
    && (forall i, j, ticket :: 0 <= i < j < |log| && IsCall(log[i], ticket) ==> !IsCall(log[j], ticket))
  }

  ghost predicate Unspent(log: seq<Event>, ticket: nat, c: nat, source: Source) {
    && ticket < |log| && log[ticket].Reserved? && log[ticket].collector == c && log[ticket].source == source
    && forall i :: 0 <= i < |log| ==> !IsCall(log[i], ticket)
  }

  predicate ReadyWith(t: Task, ticket: nat) { t.phase.Ready? && t.phase.ticket == ticket }

  ghost predicate TasksOk(w: World) {
    && (forall t :: 0 <= t < |w.tasks| ==> w.tasks[t].collector < |w.collectors|)
    && (forall t :: 0 <= t < |w.tasks| && w.tasks[t].phase.Ready? ==>
          Unspent(w.log, w.tasks[t].phase.ticket, w.tasks[t].collector, w.tasks[t].source))
    && (forall t, u, ticket :: 0 <= t < u < |w.tasks| && ReadyWith(w.tasks[t], ticket) ==> !ReadyWith(w.tasks[u], ticket))
  }

  ghost predicate BudgetOk(w: World, l: Limits) {
    && w.calls == Reservations(w.log) && Total(w.signatures) == w.calls
    && (w.calls == 0 || w.calls <= l.calls)
    && (forall s :: CountOf(w.signatures, s) == ReservationsOf(w.log, s))
    && (forall s :: CountOf(w.signatures, s) == 0 || CountOf(w.signatures, s) <= l.identical)
  }

  ghost predicate DomainsOk(w: World) {
    && |w.domains| == |w.collectors|
    && (forall i :: 0 <= i < |w.domains| ==> w.collectors[i].domain == w.domains[i])
    && (forall i, j :: 0 <= i < j < |w.domains| ==> w.domains[i] != w.domains[j])
  }

  ghost predicate Inv(w: World, l: Limits) { Paid(w.log) && TasksOk(w) && BudgetOk(w, l) && DomainsOk(w) }

  lemma {:induction false} LogMore(log: seq<Event>, e: Event)
    ensures Reservations(log + [e]) == Reservations(log) + if e.Reserved? then 1 else 0
    ensures Calls(log + [e]) == Calls(log) + if e.Reserved? then 0 else 1
    ensures forall s :: ReservationsOf(log + [e], s) ==
              ReservationsOf(log, s) + if e.Reserved? && e.signature == s then 1 else 0
  {
    assert (log + [e])[..|log|] == log;
  }

  lemma {:induction false} PaidMore(log: seq<Event>, e: Event)
    requires Paid(log) && (e.Reserved? || Unspent(log, e.ticket, e.collector, e.source))
    ensures Paid(log + [e])
  {
    var log' := log + [e];
    forall i | 0 <= i < |log'| ensures PaidAt(log', i) {
      if i < |log| { assert PaidAt(log, i); }
    }
  }

  lemma {:induction false} UnspentMore(log: seq<Event>, e: Event, ticket: nat, c: nat, source: Source)
    requires Unspent(log, ticket, c, source) && !IsCall(e, ticket)
    ensures Unspent(log + [e], ticket, c, source)
  {
  }

  /** Another event that spends no ticket of a waiting task. */
  lemma {:induction false} TasksKeep(w: World, e: Event)
    requires TasksOk(w)
    requires forall t :: 0 <= t < |w.tasks| && w.tasks[t].phase.Ready? ==> !IsCall(e, w.tasks[t].phase.ticket)
    ensures TasksOk(w.(log := w.log + [e]))
  {
    forall t | 0 <= t < |w.tasks| && w.tasks[t].phase.Ready?
      ensures Unspent(w.log + [e], w.tasks[t].phase.ticket, w.tasks[t].collector, w.tasks[t].source)
    {
      UnspentMore(w.log, e, w.tasks[t].phase.ticket, w.tasks[t].collector, w.tasks[t].source);
    }
  }

  lemma {:induction false} ReserveBudget(w: World, c: nat, source: Source, s: string, l: Limits)
    requires BudgetOk(w, l) && Grants(w, s, l)
    ensures BudgetOk(Reserve(w, c, source, s, l), l)
  {
    LogMore(w.log, Reserved(c, source, s));
    TotalMore(w.signatures, s);
    var w' := Reserve(w, c, source, s, l);
    forall r ensures CountOf(w'.signatures, r) == ReservationsOf(w'.log, r) {
      assert CountOf(w.signatures, r) == ReservationsOf(w.log, r);
    }
    forall r ensures CountOf(w'.signatures, r) == 0 || CountOf(w'.signatures, r) <= l.identical {
      assert CountOf(w.signatures, r) == 0 || CountOf(w.signatures, r) <= l.identical;
    }
  }

  lemma {:induction false} ReserveKeeps(w: World, c: nat, source: Source, s: string, l: Limits)
    requires Inv(w, l) && Grants(w, s, l)
    ensures Inv(Reserve(w, c, source, s, l), l)
    ensures Unspent(Reserve(w, c, source, s, l).log, |w.log|, c, source)
    ensures Reserve(w, c, source, s, l).tasks == w.tasks
  {
    var e := Reserved(c, source, s);
    ReserveBudget(w, c, source, s, l);
    PaidMore(w.log, e);
    TasksKeep(w, e);
    forall i | 0 <= i < |w.log| + 1 ensures !IsCall((w.log + [e])[i], |w.log|) {
      if i < |w.log| { assert PaidAt(w.log, i); }
    }
  }

  /** A call that is not a waiting task's spends a ticket. */
  lemma {:induction false} CallKeeps(w: World, e: Event, l: Limits)
    requires Inv(w, l) && !e.Reserved? && Unspent(w.log, e.ticket, e.collector, e.source)
    requires forall t :: 0 <= t < |w.tasks| ==> !ReadyWith(w.tasks[t], e.ticket)
    ensures Inv(w.(log := w.log + [e]), l)
  {
    LogMore(w.log, e);
    PaidMore(w.log, e);
    assert forall t :: 0 <= t < |w.tasks| && w.tasks[t].phase.Ready? ==> ReadyWith(w.tasks[t], w.tasks[t].phase.ticket);
    TasksKeep(w, e);
  }

  lemma {:induction false} PhaseKeeps(w: World, t: nat, p: Phase, l: Limits)
    requires Inv(w, l) && t < |w.tasks| && !p.Ready?
    ensures Inv(WithPhase(w, t, p), l)
  {
    var w' := WithPhase(w, t, p);
    forall u, v, ticket | 0 <= u < v < |w'.tasks| && ReadyWith(w'.tasks[u], ticket)
      ensures !ReadyWith(w'.tasks[v], ticket)
    {
      assert ReadyWith(w.tasks[u], ticket);
      assert v != t ==> w'.tasks[v] == w.tasks[v];
    }
  }

  lemma {:induction false} TaskKeeps(w: World, t: Task, l: Limits)
    requires Inv(w, l) && t.collector < |w.collectors|
    requires t.phase.Ready? ==> Unspent(w.log, t.phase.ticket, t.collector, t.source)
    requires forall u, ticket :: 0 <= u < |w.tasks| && ReadyWith(w.tasks[u], ticket) ==> !ReadyWith(t, ticket)
    ensures Inv(w.(tasks := w.tasks + [t]), l)
  {
  }

  lemma {:induction false} PlanOneKeeps(w: World, c: nat, query: string, source: Source, branch: string, k: Settings)
    requires Inv(w, k.limits) && c < |w.collectors|
    ensures Inv(PlanOne(w, c, query, source, branch, k), k.limits)
  {
    var s := RequestOf(w, c, query, source, branch, k);
    if Grants(w, s, k.limits) {
      ReserveKeeps(w, c, source, s, k.limits);
      var w1 := Reserve(w, c, source, s, k.limits);
      var t := Task(c, source, if source.SwaggerSource? then Inspecting else Ready(|w.log|));
      forall u, ticket | 0 <= u < |w1.tasks| && ReadyWith(w1.tasks[u], ticket) ensures !ReadyWith(t, ticket) {
        assert Unspent(w.log, ticket, w.tasks[u].collector, w.tasks[u].source);
      }
      TaskKeeps(w1, t, k.limits);
    }
  }

  lemma {:induction false} PlanAllKeeps(w: World, c: nat, plan: seq<Source>, k: Settings)
    requires Inv(w, k.limits) && c < |w.collectors|
    ensures Inv(PlanAll(w, c, plan, k), k.limits)
  {
    if plan != [] {
      PlanAllKeeps(w, c, plan[..|plan| - 1], k);
      var source := plan[|plan| - 1];
      PlanOneKeeps(PlanAll(w, c, plan[..|plan| - 1], k), c, w.collectors[c].query, source,
                   if source.CodeSource? then w.collectors[c].branch else "", k);
    }
  }

  lemma {:induction false} FollowUpKeeps(w: World, t: nat, query: string, fetch: bool, k: Settings)
    requires Inv(w, k.limits) && t < |w.tasks|
    ensures Inv(ReserveAndCall(w, t, query, fetch, k), k.limits)
    ensures ReserveAndCall(w, t, query, fetch, k).tasks == w.tasks
  {
    var c, source := w.tasks[t].collector, w.tasks[t].source;
    var s := RequestOf(w, c, query, source, w.collectors[c].branch, k);
    if Grants(w, s, k.limits) {
      ReserveKeeps(w, c, source, s, k.limits);
      var w1 := Reserve(w, c, source, s, k.limits);
      forall u | 0 <= u < |w1.tasks| ensures !ReadyWith(w1.tasks[u], |w.log|) {
        assert w.tasks[u].phase.Ready? ==> Unspent(w.log, w.tasks[u].phase.ticket, w.tasks[u].collector, w.tasks[u].source);
      }
      CallKeeps(w1, if fetch then Fetched(c, source, |w.log|) else Searched(c, source, |w.log|), k.limits);
    }
  }

  lemma {:induction false} SearchKeeps(w: World, t: nat, l: Limits)
    requires Inv(w, l) && t < |w.tasks| && w.tasks[t].phase.Ready?
    ensures Inv(WithPhase(w, t, Asked).(log := w.log + [Searched(w.tasks[t].collector, w.tasks[t].source,
                                                                 w.tasks[t].phase.ticket)]), l)
  {
    var task := w.tasks[t];
    PhaseKeeps(w, t, Asked, l);
    var w1 := WithPhase(w, t, Asked);
    forall u | 0 <= u < |w1.tasks| ensures !ReadyWith(w1.tasks[u], task.phase.ticket) {
      assert ReadyWith(w.tasks[t], task.phase.ticket);
      assert u != t ==> w1.tasks[u] == w.tasks[u];
    }
    CallKeeps(w1, Searched(task.collector, task.source, task.phase.ticket), l);
  }

  lemma {:induction false} CollectKeeps(w: World, x: Collector, mentionsApi: bool, k: Settings)
    requires Inv(w, k.limits) && x.domain !in w.domains
    ensures var w1 := w.(domains := w.domains + [x.domain], collectors := w.collectors + [x]);
            Inv(PlanAll(w1, |w.collectors|, Plan(x.task, mentionsApi), k), k.limits)
  {
    var w1 := w.(domains := w.domains + [x.domain], collectors := w.collectors + [x]);
    assert Inv(w1, k.limits);
    PlanAllKeeps(w1, |w.collectors|, Plan(x.task, mentionsApi), k);
  }

  lemma {:induction false} GatherKeeps(w: World, c: nat, k: Settings)
    requires Inv(w, k.limits) && c < |w.collectors|
    ensures var w1 := w.(collectors := w.collectors[c := w.collectors[c].(closed := true)]);
            Inv(PlanOne(w1, c, w.collectors[c].query, ProductDocument, "", k), k.limits)
  {
    var w1 := w.(collectors := w.collectors[c := w.collectors[c].(closed := true)]);
    assert Inv(w1, k.limits);
    PlanOneKeeps(w1, c, w.collectors[c].query, ProductDocument, "", k);
  }

  /** A follow-up of a task, after which the task goes on. */
  lemma {:induction false} FollowedKeeps(w: World, t: nat, query: string, fetch: bool, p: Phase, k: Settings)
    requires Inv(w, k.limits) && t < |w.tasks| && !p.Ready?
    ensures t < |ReserveAndCall(w, t, query, fetch, k).tasks|
    ensures Inv(WithPhase(ReserveAndCall(w, t, query, fetch, k), t, p), k.limits)
  {
    FollowUpKeeps(w, t, query, fetch, k);
    PhaseKeeps(ReserveAndCall(w, t, query, fetch, k), t, p, k.limits);
  }

  lemma {:induction false} StepKeeps(w: World, a: Action, k: Settings)
    requires Inv(w, k.limits)
    ensures Inv(Apply(w, a, k), k.limits)
  {
    match a
    case Collect(domain, query, task, branch, mentionsApi) =>
      if domain !in w.domains { CollectKeeps(w, Collector(domain, task, query, branch, false), mentionsApi, k); }
    case Search(t) => if t < |w.tasks| && w.tasks[t].phase.Ready? { SearchKeeps(w, t, k.limits); }
    case Refer(t, types) =>
      if t < |w.tasks| && w.tasks[t].phase.Asked? && FollowsUp(w, t) && types != "" {
        FollowedKeeps(w, t, "exact symbol " + types, true, Looked, k);
      }
    case Supplement(t, types) =>
      if t < |w.tasks| && w.tasks[t].phase.Looked? && FollowsUp(w, t) {
        FollowedKeeps(w, t, types + " field definition", false, Extra, k);
      }
    case End(t, evidence) => if t < |w.tasks| { PhaseKeeps(w, t, Over(evidence), k.limits); }
    case Gather(c) =>
      if c < |w.collectors| && !w.collectors[c].closed && AllOver(w, c) { GatherKeeps(w, c, k); }
  }

  lemma {:induction false} RunKeeps(acts: seq<Action>, k: Settings)
    ensures Inv(After(acts, k), k.limits)
  {
    if acts != [] {
      RunKeeps(acts[..|acts| - 1], k);
      StepKeeps(After(acts[..|acts| - 1], k), acts[|acts| - 1], k);
    }
  }

  // ---- Theorems over every interleaving ----

  /** The call count is the sum of the signature counts and within the budget, and no signature is
      used more often than allowed. */
  lemma {:induction false} BudgetKept(acts: seq<Action>, k: Settings, s: string)
    ensures var w := After(acts, k);
            && w.calls == Total(w.signatures) == Reservations(w.log)
            && (w.calls == 0 || w.calls <= k.limits.calls)
            && CountOf(w.signatures, s) == ReservationsOf(w.log, s)
            && (CountOf(w.signatures, s) == 0 || CountOf(w.signatures, s) <= k.limits.identical)
  {
    RunKeeps(acts, k);
  }

  /** Every search and every chunk lookup has its own granted reservation, made before it by the same
      collector for the same source. */
  lemma {:induction false} EveryCallPaid(acts: seq<Action>, k: Settings)
    ensures Paid(After(acts, k).log)
  {
    RunKeeps(acts, k);
  }

  function Tickets(log: seq<Event>): set<nat> {
    if log == [] then {}
    else Tickets(log[..|log| - 1]) + if log[|log| - 1].Reserved? then {} else {log[|log| - 1].ticket}
  }

  function ReservedAt(log: seq<Event>): set<nat> {
    if log == [] then {} else ReservedAt(log[..|log| - 1]) + if log[|log| - 1].Reserved? then {|log| - 1} else {}
  }

  lemma {:induction false} ReservedAtIs(log: seq<Event>)
    ensures |ReservedAt(log)| == Reservations(log)
    ensures forall i :: i in ReservedAt(log) <==> 0 <= i < |log| && log[i].Reserved?
  {
    if log != [] { ReservedAtIs(log[..|log| - 1]); }
  }

  predicate Spent(log: seq<Event>, t: nat) { exists i :: 0 <= i < |log| && IsCall(log[i], t) }

  lemma {:induction false} TicketsAre(log: seq<Event>)
    requires Paid(log)
    ensures |Tickets(log)| == Calls(log)
    ensures forall t :: t in Tickets(log) <==> Spent(log, t)
    ensures Tickets(log) <= ReservedAt(log)
  {
    if log != [] {
      var front, last := log[..|log| - 1], log[|log| - 1];
      assert Paid(front) by {
        forall i | 0 <= i < |front| ensures PaidAt(front, i) { assert PaidAt(log, i); }
      }
      TicketsAre(front);
      ReservedAtIs(front);
      assert PaidAt(log, |log| - 1);
      if !last.Reserved? {
        assert IsCall(last, last.ticket);
        assert !Spent(front, last.ticket);
      }
      forall t ensures t in Tickets(log) <==> Spent(log, t) { TicketsExist(log, t); }
    }
  }

  lemma {:induction false} TicketsExist(log: seq<Event>, t: nat)
    requires log != []
    ensures Spent(log, t) <==> Spent(log[..|log| - 1], t) || IsCall(log[|log| - 1], t)
  {
    var front := log[..|log| - 1];
    if Spent(front, t) {
      var i :| 0 <= i < |front| && IsCall(front[i], t);
      assert IsCall(log[i], t);
    }
    if Spent(log, t) && !IsCall(log[|log| - 1], t) {
      var i :| 0 <= i < |log| && IsCall(log[i], t);
      assert IsCall(front[i], t);
    }
  }

  /** The collectors together never make more pipeline calls than the budget allows. */
  lemma {:induction false} CallsWithinBudget(acts: seq<Action>, k: Settings)
    ensures Calls(After(acts, k).log) <= After(acts, k).calls
    ensures Calls(After(acts, k).log) == 0 || Calls(After(acts, k).log) <= k.limits.calls
  {
    RunKeeps(acts, k);
    var log := After(acts, k).log;
    TicketsAre(log);
    ReservedAtIs(log);
    SubsetSize(Tickets(log), ReservedAt(log));
  }

  /** Evidence is collected once per domain and run. */
  lemma {:induction false} OncePerDomain(acts: seq<Action>, k: Settings, i: nat, j: nat)
    requires i < j < |After(acts, k).collectors|
    ensures After(acts, k).collectors[i].domain != After(acts, k).collectors[j].domain
  {
    RunKeeps(acts, k);
  }

  // ---- What is reserved ----

  /** The signature is that of the query, with the collector's domain, task type and, for code, branch. */
  ghost predicate SignedWith(e: Event, x: Collector, query: string, k: Settings)
    requires e.Reserved?
  {
    var source := match e.source
                  case ProductDocument => "product_document"
                  case CodeSource => "code"
                  case SwaggerSource => "swagger";
    var branch := if e.source.CodeSource? then x.branch else "";
    e.signature == Signature(Fields(query, k.app, x.domain, source, branch, x.task), k.normal)
  }

  /** The query is the collector's own, or one of its two follow-ups on code. */
  ghost predicate SignedFor(e: Event, x: Collector, k: Settings)
    requires e.Reserved?
  {
    || SignedWith(e, x, x.query, k)
    || (e.source.CodeSource? && x.task == "api_contract"
        && exists types: string :: SignedWith(e, x, "exact symbol " + types, k)
                                   || SignedWith(e, x, types + " field definition", k))
  }

  ghost predicate SignedAt(w: World, i: nat, k: Settings)
    requires i < |w.log|
  {
    w.log[i].Reserved? ==>
      w.log[i].collector < |w.collectors| && SignedFor(w.log[i], w.collectors[w.log[i].collector], k)
  }

  ghost predicate AllSigned(w: World, k: Settings) { forall i :: 0 <= i < |w.log| ==> SignedAt(w, i, k) }

  lemma {:induction false} ClosedSigned(e: Event, x: Collector, k: Settings)
    requires e.Reserved? && SignedFor(e, x, k)
    ensures SignedFor(e, x.(closed := true), k)
  {
    if !SignedWith(e, x, x.query, k) {
      var types :| SignedWith(e, x, "exact symbol " + types, k) || SignedWith(e, x, types + " field definition", k);
      assert SignedWith(e, x.(closed := true), "exact symbol " + types, k)
             || SignedWith(e, x.(closed := true), types + " field definition", k);
    }
  }

  lemma {:induction false} ReserveSigned(w: World, c: nat, source: Source, s: string, k: Settings)
    requires AllSigned(w, k) && c < |w.collectors| && SignedFor(Reserved(c, source, s), w.collectors[c], k)
    ensures AllSigned(Reserve(w, c, source, s, k.limits), k)
  {
    var w' := Reserve(w, c, source, s, k.limits);
    forall i | 0 <= i < |w'.log| ensures SignedAt(w', i, k) {
      if i < |w.log| {
        assert SignedAt(w, i, k) && w'.log[i] == w.log[i];
      }
    }
  }

  lemma {:induction false} MoreSigned(w: World, w': World, e: Event, k: Settings)
    requires AllSigned(w, k) && w'.log == w.log + [e] && !e.Reserved? && w'.collectors == w.collectors
    ensures AllSigned(w', k)
  {
    forall i | 0 <= i < |w'.log| ensures SignedAt(w', i, k) {
      if i < |w.log| { assert SignedAt(w, i, k) && w'.log[i] == w.log[i]; }
    }
  }

  lemma {:induction false} SameSigned(w: World, w': World, k: Settings)
    requires AllSigned(w, k) && w'.log == w.log && |w.collectors| <= |w'.collectors|
    requires forall c :: 0 <= c < |w.collectors| ==>
               w'.collectors[c] == w.collectors[c] || w'.collectors[c] == w.collectors[c].(closed := true)
    ensures AllSigned(w', k)
  {
    forall i | 0 <= i < |w'.log| ensures SignedAt(w', i, k) {
      assert SignedAt(w, i, k);
      if w.log[i].Reserved? { ClosedSigned(w.log[i], w.collectors[w.log[i].collector], k); }
    }
  }

  lemma {:induction false} PlanOneSigned(w: World, c: nat, source: Source, k: Settings)
    requires AllSigned(w, k) && c < |w.collectors|
    ensures AllSigned(PlanOne(w, c, w.collectors[c].query, source,
                              if source.CodeSource? then w.collectors[c].branch else "", k), k)
  {
    var branch := if source.CodeSource? then w.collectors[c].branch else "";
    var s := RequestOf(w, c, w.collectors[c].query, source, branch, k);
    assert SignedWith(Reserved(c, source, s), w.collectors[c], w.collectors[c].query, k);
    ReserveSigned(w, c, source, s, k);
    if Grants(w, s, k.limits) {
      SameSigned(Reserve(w, c, source, s, k.limits), PlanOne(w, c, w.collectors[c].query, source, branch, k), k);
    }
  }

  lemma {:induction false} PlanAllSigned(w: World, c: nat, plan: seq<Source>, k: Settings)
    requires AllSigned(w, k) && c < |w.collectors|
    ensures AllSigned(PlanAll(w, c, plan, k), k)
  {
    if plan != [] {
      PlanAllSigned(w, c, plan[..|plan| - 1], k);
      PlanOneSigned(PlanAll(w, c, plan[..|plan| - 1], k), c, plan[|plan| - 1], k);
    }
  }

  lemma {:induction false} FollowUpSigned(w: World, t: nat, query: string, fetch: bool, types: string, k: Settings)
    requires AllSigned(w, k) && t < |w.tasks| && FollowsUp(w, t)
    requires query == "exact symbol " + types || query == types + " field definition"
    ensures AllSigned(ReserveAndCall(w, t, query, fetch, k), k)
    ensures ReserveAndCall(w, t, query, fetch, k).collectors == w.collectors
  {
    var c, source := w.tasks[t].collector, w.tasks[t].source;
    var s := RequestOf(w, c, query, source, w.collectors[c].branch, k);
    if Grants(w, s, k.limits) {
      assert SignedWith(Reserved(c, source, s), w.collectors[c], query, k);
      ReserveSigned(w, c, source, s, k);
      var call := if fetch then Fetched(c, source, |w.log|) else Searched(c, source, |w.log|);
      MoreSigned(Reserve(w, c, source, s, k.limits), ReserveAndCall(w, t, query, fetch, k), call, k);
    }
  }

  lemma {:induction false} CollectSigned(w: World, a: Action, k: Settings)
    requires AllSigned(w, k) && (a.Collect? || a.Gather?)
    ensures AllSigned(Apply(w, a, k), k)
  {
    match a
    case Collect(domain, query, task, branch, mentionsApi) =>
      if domain !in w.domains {
        var w1 := w.(domains := w.domains + [domain],
                     collectors := w.collectors + [Collector(domain, task, query, branch, false)]);
        SameSigned(w, w1, k);
        PlanAllSigned(w1, |w.collectors|, Plan(task, mentionsApi), k);
      }
    case Gather(c) =>
      if c < |w.collectors| {
        var w1 := w.(collectors := w.collectors[c := w.collectors[c].(closed := true)]);
        SameSigned(w, w1, k);
        PlanOneSigned(w1, c, ProductDocument, k);
      }
  }

  lemma {:induction false} TaskSigned(w: World, a: Action, k: Settings)
    requires AllSigned(w, k) && !a.Collect? && !a.Gather?
    ensures AllSigned(Apply(w, a, k), k)
  {
    match a
    case Search(t) =>
      if t < |w.tasks| && w.tasks[t].phase.Ready? {
        MoreSigned(w, Apply(w, a, k), Searched(w.tasks[t].collector, w.tasks[t].source, w.tasks[t].phase.ticket), k);
      }
    case Refer(t, types) =>
      if t < |w.tasks| && w.tasks[t].phase.Asked? && FollowsUp(w, t) && types != "" {
        FollowUpSigned(w, t, "exact symbol " + types, true, types, k);
        SameSigned(ReserveAndCall(w, t, "exact symbol " + types, true, k), Apply(w, a, k), k);
      }
    case Supplement(t, types) =>
      if t < |w.tasks| && w.tasks[t].phase.Looked? && FollowsUp(w, t) {
        FollowUpSigned(w, t, types + " field definition", false, types, k);
        SameSigned(ReserveAndCall(w, t, types + " field definition", false, k), Apply(w, a, k), k);
      }
    case End(t, evidence) => SameSigned(w, Apply(w, a, k), k);
  }

  /** In every interleaving each reservation is signed for its own collector: its domain, task type, source
      and branch, and its query or a follow-up on it. */
  lemma {:induction false} ReservedAsAsked(acts: seq<Action>, k: Settings)
    ensures AllSigned(After(acts, k), k)
  {
    if acts != [] {
      var before, last := After(acts[..|acts| - 1], k), acts[|acts| - 1];
      ReservedAsAsked(acts[..|acts| - 1], k);
      if last.Collect? || last.Gather? { CollectSigned(before, last, k); } else { TaskSigned(before, last, k); }
    }
  }

  /** When a collector ends, it makes one more reservation only for an API contract none of whose tasks ended
      with evidence: its own query on product documents. */
  lemma {:induction false} GatherIs(w: World, c: nat, k: Settings)
    requires c < |w.collectors| && !w.collectors[c].closed
    requires forall t :: 0 <= t < |w.tasks| && w.tasks[t].collector == c ==> w.tasks[t].phase.Over?
    ensures var w' := Apply(w, Gather(c), k);
            && |w'.collectors| == |w.collectors| && w'.collectors[c] == w.collectors[c].(closed := true)
            && (w'.log != w.log ==>
                  && w.collectors[c].task == "api_contract"
                  && (forall t :: 0 <= t < |w.tasks| && w.tasks[t].collector == c ==> w.tasks[t].phase == Over(false))
                  && |w'.log| == |w.log| + 1 && w'.log[|w.log|].Reserved? && w'.log[|w.log|].collector == c
                  && w'.log[|w.log|].source == ProductDocument)
  {
  }
}
