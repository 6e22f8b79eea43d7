/**
 The Feishu event table (knowledge/feishu/repository.py) in its SQLite and PostgreSQL versions.
 */
module FeishuEvents {
  import opened Common

  datatype Status = Processing | Completed | Failed

  datatype Row = Row(message: string, chat: string, status: Status, attempt: nat, error: Option<string>)

  type Table = map<string, Row>

  datatype Request = Request(event: string, message: string, chat: string)

  function Trimmed(r: Request): Request { Request(Strip(r.event), Strip(r.message), Strip(r.chat)) }

  predicate Complete(r: Request) { r.event != "" && r.message != "" && r.chat != "" }

  // ---- SQLite: one select, then a branch, in one immediate transaction ----

  predicate Claimable(t: Table, r: Request) {
    r.event !in t || (t[r.event].status == Failed && t[r.event].attempt < 2)
  }

  function AfterClaim(t: Table, r: Request): Table {
    if r.event !in t then t[r.event := Row(r.message, r.chat, Processing, 1, None)]
    else if t[r.event].status == Failed && t[r.event].attempt < 2
    then t[r.event := Row(r.message, r.chat, Processing, t[r.event].attempt + 1, None)]
    else t
  }

  // ---- PostgreSQL: an insert that yields to a conflict, then a conditional update ----

  predicate Inserts(t: Table, r: Request) { r.event !in t }

  function AfterInsert(t: Table, r: Request): Table {
    if Inserts(t, r) then t[r.event := Row(r.message, r.chat, Processing, 1, None)] else t
  }

  predicate Retries(t: Table, r: Request) {
    r.event in t && t[r.event].status == Failed && t[r.event].attempt < 2
  }

  function AfterRetry(t: Table, r: Request): Table {
    if Retries(t, r)
    then t[r.event := t[r.event].(message := r.message, chat := r.chat, status := Processing,
                                  attempt := t[r.event].attempt + 1, error := None)]
    else t
  }

  // ---- complete, fail, initialize ----

  predicate Kept(c: char) { 'A' <= c <= 'Z' || 'a' <= c <= 'z' || '0' <= c <= '9' || c in "_.-" }

  function Filtered(s: string): string {
    if s == "" then "" else (if Kept(s[0]) then [s[0]] else []) + Filtered(s[1..])
  }

  function Sanitized(error: string): (r: string)
    ensures 0 < |r| <= 100
  {
    var kept := Filtered(error);
    if kept == "" then "Error" else if |kept| > 100 then kept[..100] else kept
  }

  /** Of a single character, `Filtered` keeps ASCII letters, digits and `_.-`. */
  lemma {:induction false} FilteredOne(c: char)
    ensures Filtered([c]) ==
              if c == '_' || c == '.' || c == '-' || 'A' <= c <= 'Z' || 'a' <= c <= 'z' || '0' <= c <= '9' then [c] else ""
  {
    assert [c][1..] == "";
  }

  /** `Filtered` works character by character, in order. */
  lemma {:induction false} FilteredJoins(a: string, b: string)
    ensures Filtered(a + b) == Filtered(a) + Filtered(b)
  {
    if a == "" {
      assert a + b == b;
    } else {
      FilteredJoins(a[1..], b);
      FilteredFirst(a, a[0], a[1..]);
      FilteredFirst(a + b, a[0], a[1..] + b);
      var first := if Kept(a[0]) then [a[0]] else [];
      assert first + (Filtered(a[1..]) + Filtered(b)) == first + Filtered(a[1..]) + Filtered(b);
    }
  }

  lemma {:induction false} FilteredFirst(s: string, c: char, rest: string)
    requires s == [c] + rest
    ensures Filtered(s) == (if Kept(c) then [c] else []) + Filtered(rest)
  {
    assert s[1..] == rest;
  }

  /** The stored error: up to one hundred of those characters from the beginning, or "Error". */
  lemma {:induction false} SanitizedIs(error: string)
    ensures Filtered(error) == "" ==> Sanitized(error) == "Error"
    ensures Filtered(error) != "" ==>
              && Sanitized(error) <= Filtered(error)
              && |Sanitized(error)| == if |Filtered(error)| < 100 then |Filtered(error)| else 100
  {
  }

  predicate InProgress(t: Table, event: string) { event in t && t[event].status == Processing }

  function AfterSet(t: Table, event: string, status: Status, error: Option<string>): Table {
    if InProgress(t, event) then t[event := t[event].(status := status, error := error)] else t
  }

  function AfterRestart(t: Table): Table {
    map e | e in t ::
      if t[e].status == Processing then t[e].(status := Failed, error := Some("ServiceRestart")) else t[e]
  }

  class FeishuEventRepository {
    var rows: Table

    /** After a restart no event is processing: those that were have failed, all others are as before. */
    method Initialize()
      modifies this
      ensures rows.Keys == old(rows).Keys && forall e :: e in rows ==> rows[e].status != Processing
      ensures forall e :: e in rows && old(rows)[e].status != Processing ==> rows[e] == old(rows)[e]
      ensures forall e :: e in rows && old(rows)[e].status == Processing ==>
                rows[e] == old(rows)[e].(status := Failed, error := Some("ServiceRestart"))
      ensures rows == AfterRestart(old(rows))
    {
      var left := rows.Keys;
      while left != {}
        invariant left <= rows.Keys == old(rows).Keys
        invariant forall e :: e in left ==> rows[e] == old(rows)[e]
        invariant forall e :: e in rows && e !in left ==> rows[e] == AfterRestart(old(rows))[e]
        decreases left
      {
        var e :| e in left;
        if rows[e].status == Processing {
          rows := rows[e := rows[e].(status := Failed, error := Some("ServiceRestart"))];
        }
        left := left - {e};
      }
      assert rows.Keys == AfterRestart(old(rows)).Keys;
    }

    method Claim(event: string, message: string, chat: string) returns (r: Result<bool, ()>)
      modifies this
      ensures var q := Trimmed(Request(event, message, chat));
              if Complete(q) then r == Ok(Claimable(old(rows), q)) && rows == AfterClaim(old(rows), q)
              else r == Err(()) && rows == old(rows)
      ensures r.Err? <==> Strip(event) == "" || Strip(message) == "" || Strip(chat) == ""
      ensures r.Ok? ==>
                (r.value <==>
                   || Strip(event) !in old(rows)
                   || (old(rows)[Strip(event)].status == Failed && old(rows)[Strip(event)].attempt < 2))
      ensures r.Ok? && r.value ==>
                var before := if Strip(event) in old(rows) then old(rows)[Strip(event)].attempt else 0;
                rows == old(rows)[Strip(event) := Row(Strip(message), Strip(chat), Processing, before + 1, None)]
      ensures r.Err? || !r.value ==> rows == old(rows)
    {
      var event', message', chat' := Strip(event), Strip(message), Strip(chat);
      if event' == "" || message' == "" || chat' == "" { return Err(()); }
      var claimed := false;
      if event' !in rows {
        rows := rows[event' := Row(message', chat', Processing, 1, None)];
        claimed := true;
      } else if rows[event'].status == Failed && rows[event'].attempt < 2 {
        rows := rows[event' := rows[event'].(status := Processing, attempt := rows[event'].attempt + 1, error := None,
                                             message := message', chat := chat')];
        claimed := true;
      }
      return Ok(claimed);
    }

    method MarkComplete(event: string)
      modifies this
      ensures rows == AfterSet(old(rows), event, Completed, None)
      ensures rows == if event in old(rows) && old(rows)[event].status == Processing
                      then old(rows)[event := old(rows)[event].(status := Completed, error := None)] else old(rows)
    {
      if event in rows && rows[event].status == Processing {
        rows := rows[event := rows[event].(status := Completed, error := None)];
      }
    }

    method MarkFailed(event: string, error: string)
      modifies this
      ensures rows == AfterSet(old(rows), event, Failed, Some(Sanitized(error)))
      ensures rows == if event in old(rows) && old(rows)[event].status == Processing
                      then old(rows)[event := old(rows)[event].(status := Failed, error := Some(Sanitized(error)))]
                      else old(rows)
    {
      if event in rows && rows[event].status == Processing {
        rows := rows[event := rows[event].(status := Failed, error := Some(Sanitized(error)))];
      }
    }
  }

  class PostgresFeishuEventRepository {
    var rows: Table

    /** The first statement of `claim`. */
    method Insert(q: Request) returns (inserted: bool)
      modifies this
      ensures inserted == Inserts(old(rows), q) && rows == AfterInsert(old(rows), q)
    {
      inserted := q.event !in rows;
      if inserted { rows := rows[q.event := Row(q.message, q.chat, Processing, 1, None)]; }
    }

    /** The second statement of `claim`. */
    method Retry(q: Request) returns (retried: bool)
      modifies this
      ensures retried == Retries(old(rows), q) && rows == AfterRetry(old(rows), q)
    {
      retried := q.event in rows && rows[q.event].status == Failed && rows[q.event].attempt < 2;
      if retried {
        rows := rows[q.event := rows[q.event].(message := q.message, chat := q.chat, status := Processing,
                                               attempt := rows[q.event].attempt + 1, error := None)];
      }
    }

    method Claim(event: string, message: string, chat: string) returns (r: Result<bool, ()>)
      modifies this
      ensures var q := Trimmed(Request(event, message, chat));
              if Complete(q) then r == Ok(Claimable(old(rows), q)) && rows == AfterClaim(old(rows), q)
              else r == Err(()) && rows == old(rows)
      ensures r.Err? <==> Strip(event) == "" || Strip(message) == "" || Strip(chat) == ""
      ensures r.Ok? ==>
                (r.value <==>
                   || Strip(event) !in old(rows)
                   || (old(rows)[Strip(event)].status == Failed && old(rows)[Strip(event)].attempt < 2))
      ensures r.Ok? && r.value ==>
                var before := if Strip(event) in old(rows) then old(rows)[Strip(event)].attempt else 0;
                rows == old(rows)[Strip(event) := Row(Strip(message), Strip(chat), Processing, before + 1, None)]
      ensures r.Err? || !r.value ==> rows == old(rows)
    {
      var q := Request(Strip(event), Strip(message), Strip(chat));
      if q.event == "" || q.message == "" || q.chat == "" { return Err(()); }
      SameClaim(rows, q);
      var inserted := Insert(q);
      if inserted { return Ok(true); }
      var retried := Retry(q);
      return Ok(retried);
    }
  }

  /** Run without a step in between, the two statements are the SQLite claim. */
  lemma {:induction false} SameClaim(t: Table, q: Request)
    ensures Claimable(t, q) <==> Inserts(t, q) || Retries(t, q)
    ensures AfterClaim(t, q) == if Inserts(t, q) then AfterInsert(t, q) else AfterRetry(AfterInsert(t, q), q)
  {
  }
}

/** Any number of claims, completions, failures and restarts, in any order. */
module FeishuEventRuns {
  import opened Common
  import opened FeishuEvents

  datatype Event = Claimed(event: string) | Done(event: string) | GaveUp(event: string) | Restarted

  /** `Insert` and `Retry` are the two statements of a PostgreSQL claim; other steps may come between. */
  datatype Action =
    | Claim(request: Request)
    | Insert(ticket: nat, request: Request)
    | Retry(ticket: nat)
    | MarkComplete(event: string)
    | MarkFailed(event: string, error: string)
    | Restart

  /** `waiting` holds the claims between their two statements. */
  datatype World = World(rows: Table, waiting: map<nat, Request>, log: seq<Event>)

  const Start := World(map[], map[], [])

  function Apply(w: World, a: Action): World {
    match a
    case Claim(q) =>
      if Claimable(w.rows, q) then w.(rows := AfterClaim(w.rows, q), log := w.log + [Claimed(q.event)]) else w
    case Insert(ticket, q) =>
      if Inserts(w.rows, q) then w.(rows := AfterInsert(w.rows, q), log := w.log + [Claimed(q.event)])
      else w.(waiting := w.waiting[ticket := q])
    case Retry(ticket) =>
      if ticket !in w.waiting then w
      else
        var q := w.waiting[ticket];
        if Retries(w.rows, q)
        then World(AfterRetry(w.rows, q), w.waiting - {ticket}, w.log + [Claimed(q.event)])
        else w.(waiting := w.waiting - {ticket})
    case MarkComplete(e) =>
      if InProgress(w.rows, e) then w.(rows := AfterSet(w.rows, e, Completed, None), log := w.log + [Done(e)]) else w
    case MarkFailed(e, error) =>
      if InProgress(w.rows, e)
      then w.(rows := AfterSet(w.rows, e, Failed, Some(Sanitized(error))), log := w.log + [GaveUp(e)]) else w
    case Restart => w.(rows := AfterRestart(w.rows), log := w.log + [Restarted])
  }

  function After(acts: seq<Action>): World {
    if acts == [] then Start else Apply(After(acts[..|acts| - 1]), acts[|acts| - 1])
  }

  /** How often the event was claimed. */
  function Claims(log: seq<Event>, e: string): nat {
    if log == [] then 0 else Claims(log[..|log| - 1], e) + if log[|log| - 1] == Claimed(e) then 1 else 0
  }

  /** The status that the log gives an event; `None` before its first claim. */
  function StatusFrom(log: seq<Event>, e: string): Option<Status> {
    if log == [] then None
    else
      var before := StatusFrom(log[..|log| - 1], e);
      match log[|log| - 1]
      case Claimed(x) => if x == e then Some(Processing) else before
      case Done(x) => if x == e then Some(Completed) else before
      case GaveUp(x) => if x == e then Some(Failed) else before
      case Restarted => if before == Some(Processing) then Some(Failed) else before
  }

  /** Every claim in the log was made when the event was new, or had failed and was claimed once. */
  ghost predicate ClaimsLawful(log: seq<Event>) {
    forall i :: 0 <= i < |log| && log[i].Claimed? ==> LawfulAt(log[..i], log[i].event)
  }

  ghost predicate LawfulAt(before: seq<Event>, e: string) {
    || StatusFrom(before, e) == None
    || (StatusFrom(before, e) == Some(Failed) && Claims(before, e) == 1)
  }

  /** Completions come from processing. */
  ghost predicate DonesLawful(log: seq<Event>) {
    forall i :: 0 <= i < |log| && (log[i].Done? || log[i].GaveUp?) ==> StatusFrom(log[..i], log[i].event) == Some(Processing)
  }

  ghost predicate RowOk(w: World, e: string) {
    && StatusFrom(w.log, e) == (if e in w.rows then Some(w.rows[e].status) else None)
    && Claims(w.log, e) == (if e in w.rows then w.rows[e].attempt else 0)
    && (e in w.rows ==> 1 <= w.rows[e].attempt <= 2)
  }

  ghost predicate Inv(w: World) {
    && (forall e :: RowOk(w, e))
    && (forall t :: t in w.waiting ==> w.waiting[t].event in w.rows)
    && ClaimsLawful(w.log) && DonesLawful(w.log)
  }

  lemma {:induction false} LogMore(log: seq<Event>, x: Event, e: string)
    ensures Claims(log + [x], e) == Claims(log, e) + if x == Claimed(e) then 1 else 0
    ensures StatusFrom(log + [x], e) ==
              if (x.Claimed? || x.Done? || x.GaveUp?) && x.event == e
              then Some(if x.Claimed? then Processing else if x.Done? then Completed else Failed)
              else if x.Restarted? && StatusFrom(log, e) == Some(Processing) then Some(Failed)
              else StatusFrom(log, e)
  {
    assert (log + [x])[..|log|] == log;
  }

  lemma {:induction false} LogLawful(log: seq<Event>, x: Event)
    requires ClaimsLawful(log) && DonesLawful(log)
    requires x.Claimed? ==> LawfulAt(log, x.event)
    requires x.Done? || x.GaveUp? ==> StatusFrom(log, x.event) == Some(Processing)
    ensures ClaimsLawful(log + [x]) && DonesLawful(log + [x])
  {
    var log' := log + [x];
    forall i | 0 <= i < |log'|
      ensures log'[i].Claimed? ==> LawfulAt(log'[..i], log'[i].event)
      ensures log'[i].Done? || log'[i].GaveUp? ==> StatusFrom(log'[..i], log'[i].event) == Some(Processing)
    {
      if i < |log| {
        assert log'[..i] == log[..i] && log'[i] == log[i];
      } else {
        assert log'[..i] == log && log'[i] == x;
      }
    }
  }

  /** The event that a step adds to the log, if it does anything. */
  function Adds(w: World, a: Action): Option<Event> {
    match a
    case Claim(q) => if Claimable(w.rows, q) then Some(Claimed(q.event)) else None
    case Insert(_, q) => if Inserts(w.rows, q) then Some(Claimed(q.event)) else None
    case Retry(t) => if t in w.waiting && Retries(w.rows, w.waiting[t]) then Some(Claimed(w.waiting[t].event)) else None
    case MarkComplete(e) => if InProgress(w.rows, e) then Some(Done(e)) else None
    case MarkFailed(e, _) => if InProgress(w.rows, e) then Some(GaveUp(e)) else None
    case Restart => Some(Restarted)
  }

  function StatusOf(t: Table, e: string): Option<Status> { if e in t then Some(t[e].status) else None }

  function AttemptOf(t: Table, e: string): nat { if e in t then t[e].attempt else 0 }

  /** What the added event says is what happened to the row. */
  lemma {:induction false} StepTable(w: World, a: Action, e: string)
    ensures var x, t, t' := Adds(w, a), w.rows, Apply(w, a).rows;
            if x == Some(Claimed(e)) then
              && StatusOf(t', e) == Some(Processing) && AttemptOf(t', e) == AttemptOf(t, e) + 1
              && (StatusOf(t, e) == None || (StatusOf(t, e) == Some(Failed) && AttemptOf(t, e) < 2))
            else
              && AttemptOf(t', e) == AttemptOf(t, e)
              && StatusOf(t', e) ==
                   if x == Some(Done(e)) then Some(Completed)
                   else if x == Some(GaveUp(e)) then Some(Failed)
                   else if x == Some(Restarted) && StatusOf(t, e) == Some(Processing) then Some(Failed)
                   else StatusOf(t, e)
  {
    match a
    case Claim(_) =>
    case Insert(_, _) =>
    case Retry(_) =>
    case MarkComplete(_) =>
    case MarkFailed(_, _) =>
    case Restart =>
  }

  lemma {:induction false} StepLog(w: World, a: Action)
    ensures Apply(w, a).log == if Adds(w, a).Some? then w.log + [Adds(w, a).value] else w.log
    ensures Adds(w, a).Some? && (Adds(w, a).value.Done? || Adds(w, a).value.GaveUp?) ==>
              StatusOf(w.rows, Adds(w, a).value.event) == Some(Processing)
  {
  }

  lemma {:induction false} StepRow(w: World, a: Action, e: string)
    requires Inv(w)
    ensures RowOk(Apply(w, a), e)
  {
    assert RowOk(w, e);
    StepTable(w, a, e);
    StepLog(w, a);
    if Adds(w, a).Some? { LogMore(w.log, Adds(w, a).value, e); }
  }

  lemma {:induction false} StepKeeps(w: World, a: Action)
    requires Inv(w)
    ensures Inv(Apply(w, a))
  {
    forall e ensures RowOk(Apply(w, a), e) { StepRow(w, a, e); }
    var x := Adds(w, a);
    StepLog(w, a);
    if x.Some? {
      if !x.value.Restarted? { assert RowOk(w, x.value.event); }
      LogLawful(w.log, x.value);
    }
  }

  lemma {:induction false} RunKeeps(acts: seq<Action>)
    ensures Inv(After(acts))
  {
    if acts != [] {
      RunKeeps(acts[..|acts| - 1]);
      StepKeeps(After(acts[..|acts| - 1]), acts[|acts| - 1]);
    }
  }

  // ---- Theorems over every run ----

  /** An event is claimed at most twice, and its `attempt` is the number of its claims. */
  lemma {:induction false} ClaimedAtMostTwice(acts: seq<Action>, e: string)
    ensures Claims(After(acts).log, e) <= 2
    ensures e in After(acts).rows <==> Claims(After(acts).log, e) > 0
    ensures e in After(acts).rows ==> After(acts).rows[e].attempt == Claims(After(acts).log, e)
  {
    RunKeeps(acts);
    assert RowOk(After(acts), e);
  }

  lemma {:induction false} CompletedStays(log: seq<Event>, i: nat, j: nat, e: string)
    requires ClaimsLawful(log) && DonesLawful(log) && i < j <= |log| && log[i] == Done(e)
    ensures StatusFrom(log[..j], e) == Some(Completed)
    ensures j < |log| ==> log[j] != Claimed(e) && log[j] != Done(e) && log[j] != GaveUp(e)
    decreases j
  {
    assert log[..j][..j - 1] == log[..j - 1];
    if i + 1 < j { CompletedStays(log, i, j - 1, e); }
    assert j < |log| && log[j].Claimed? ==> LawfulAt(log[..j], log[j].event);
  }

  /** After its completion an event is never claimed, completed or failed again. */
  lemma {:induction false} CompletedIsFinal(acts: seq<Action>, i: nat, j: nat, e: string)
    requires i < j < |After(acts).log| && After(acts).log[i] == Done(e)
    ensures After(acts).log[j] != Claimed(e) && After(acts).log[j] != Done(e) && After(acts).log[j] != GaveUp(e)
  {
    RunKeeps(acts);
    CompletedStays(After(acts).log, i, j, e);
  }

  lemma {:induction false} ProcessingStays(log: seq<Event>, i: nat, j: nat, e: string)
    requires i < j <= |log| && log[i] == Claimed(e)
    requires forall k :: i < k < j ==> log[k] != GaveUp(e) && log[k] != Done(e) && !log[k].Restarted?
    ensures StatusFrom(log[..j], e) == Some(Processing)
    decreases j
  {
    assert log[..j][..j - 1] == log[..j - 1];
    if i + 1 < j { ProcessingStays(log, i, j - 1, e); }
  }

  /** Between two claims of an event lies its failure or a restart: it is never claimed while
      another claim is being processed. */
  lemma {:induction false} NeverWhileProcessing(acts: seq<Action>, i: nat, j: nat, e: string)
    requires i < j < |After(acts).log| && After(acts).log[i] == Claimed(e) && After(acts).log[j] == Claimed(e)
    ensures exists k :: i < k < j && (After(acts).log[k] == GaveUp(e) || After(acts).log[k].Restarted?)
  {
    RunKeeps(acts);
    var log := After(acts).log;
    assert LawfulAt(log[..j], e);
    if forall k :: i < k < j ==> log[k] != GaveUp(e) && !log[k].Restarted? {
      if k :| i < k < j && log[k] == Done(e) {
        CompletedStays(log, k, j, e);
      } else {
        ProcessingStays(log, i, j, e);
      }
    }
  }

  /** A PostgreSQL claim, whatever comes between its statements, is one SQLite claim at the moment of
      its last statement. */
  lemma {:induction false} SplitClaimIsAtomic(acts: seq<Action>, ticket: nat)
    requires ticket in After(acts).waiting
    ensures var w := After(acts);
            Apply(w, Retry(ticket)) == Apply(w, Claim(w.waiting[ticket])).(waiting := w.waiting - {ticket})
  {
    RunKeeps(acts);
    SameClaim(After(acts).rows, After(acts).waiting[ticket]);
  }

  lemma {:induction false} InsertIsAtomic(w: World, ticket: nat, q: Request)
    requires Inserts(w.rows, q)
    ensures Apply(w, Insert(ticket, q)) == Apply(w, Claim(q))
  {
    SameClaim(w.rows, q);
  }
}
