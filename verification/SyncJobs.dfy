/**
 The sync-job queue of knowledge/catalog/repository.py.

 Each SQL transaction is one atomic step on the job table.  Timestamps are stored as the texts that
 `_to_iso` writes and are compared as texts, as the SQL does.
 */
module SyncJobs {
  import opened Common
  import opened IsoTime

  datatype State = Queued | Running | Succeeded | Failed

  datatype Job = Job(
    source: string, kind: string, state: State, target: Option<string>, attempt: nat,
    error: Option<string>, worker: Option<string>, availableAt: string, claimedAt: Option<string>,
    finishedAt: Option<string>, createdAt: string, updatedAt: string)

  type Table = map<string, Job>

  datatype Error = InvalidArgument | NotFound | Conflict

  // ---- enqueue_job ----

  function TargetOf(target: Option<string>): Option<string> {
    if target.Some? && Strip(target.value) != "" then Some(Strip(target.value)) else None
  }

  predicate EnqueueValid(kind: string, target: Option<string>) {
    Strip(kind) != "" && (Strip(kind) == "webhook" ==> TargetOf(target).Some?)
  }

  /** The rows that a job with a target commit would repeat. */
  function Repeats(t: Table, source: string, kind: string, target: Option<string>): set<string> {
    set id | id in t && target.Some? && t[id].source == source && t[id].kind == kind && t[id].target == target
  }

  function NewJob(source: string, kind: string, target: Option<string>, available: string, now: string): Job {
    Job(source, kind, Queued, target, 0, None, None, available, None, None, now, now)
  }

  function AfterEnqueue(t: Table, id: string, source: string, kind: string, target: Option<string>,
                        available: string, now: string): Table {
    if !EnqueueValid(kind, target) || Repeats(t, source, Strip(kind), TargetOf(target)) != {} then t
    else t[id := NewJob(source, Strip(kind), TargetOf(target), available, now)]
  }

  // ---- claim_next_job ----

  predicate TextAtMost(a: string, b: string) { !TextLess(b, a) }

  /** The queued rows due at `now`, except those that another transaction has locked. */
  function Due(t: Table, now: string, locked: set<string>): set<string> {
    set id | id in t && id !in locked && t[id].state == Queued && TextAtMost(t[id].availableAt, now)
  }

  /** ORDER BY available_at, created_at, id. */
  predicate Precedes(a: Job, idA: string, b: Job, idB: string) {
    || TextLess(a.availableAt, b.availableAt)
    || (a.availableAt == b.availableAt
        && (TextLess(a.createdAt, b.createdAt) || (a.createdAt == b.createdAt && TextLess(idA, idB))))
  }

  ghost predicate FirstOf(t: Table, ids: set<string>, id: string) {
    && id in ids && id in t
    && forall other :: other in ids && other in t && other != id ==> Precedes(t[id], id, t[other], other)
  }

  function Claimed(j: Job, worker: string, now: string): Job {
    j.(state := Running, attempt := j.attempt + 1, worker := Some(worker), claimedAt := Some(now),
       finishedAt := None, updatedAt := now)
  }

  lemma {:induction false} PrecedesTotal(a: Job, idA: string, b: Job, idB: string)
    ensures Precedes(a, idA, b, idB) || Precedes(b, idB, a, idA) || idA == idB
    ensures !(Precedes(a, idA, b, idB) && Precedes(b, idB, a, idA))
  {
    TextLessTotal(a.availableAt, b.availableAt);
    TextLessTotal(a.createdAt, b.createdAt);
    TextLessTotal(idA, idB);
  }

  lemma {:induction false} TextChain(a: string, b: string, c: string)
    ensures TextLess(a, b) && TextLess(b, c) ==> TextLess(a, c)
  {
    if TextLess(a, b) && TextLess(b, c) { TextLessTransitive(a, b, c); }
  }

  lemma {:induction false} PrecedesTransitive(a: Job, idA: string, b: Job, idB: string, c: Job, idC: string)
    requires Precedes(a, idA, b, idB) && Precedes(b, idB, c, idC)
    ensures Precedes(a, idA, c, idC)
  {
    TextChain(a.availableAt, b.availableAt, c.availableAt);
    TextChain(a.createdAt, b.createdAt, c.createdAt);
    TextChain(idA, idB, idC);
  }

  /** A non-empty set of rows has a first one, and only one. */
  lemma {:induction false} FirstExists(t: Table, ids: set<string>) returns (id: string)
    requires ids != {} && ids <= t.Keys
    ensures FirstOf(t, ids, id)
    ensures forall other :: FirstOf(t, ids, other) ==> other == id
    decreases |ids|
  {
    var some :| some in ids;
    if ids == {some} {
      id := some;
    } else {
      var rest := ids - {some};
      assert ids == {some} + rest;
      var best := FirstExists(t, rest);
      PrecedesTotal(t[some], some, t[best], best);
      if Precedes(t[best], best, t[some], some) {
        id := best;
      } else {
        id := some;
        forall other | other in ids && other != id ensures Precedes(t[id], id, t[other], other) {
          if other != best { PrecedesTransitive(t[some], some, t[best], best, t[other], other); }
        }
      }
    }
    forall other | FirstOf(t, ids, other) ensures other == id {
      if other != id { PrecedesTotal(t[id], id, t[other], other); }
    }
  }

  // ---- _finish_job, requeue_job, requeue_stale_jobs, delete_queued_job ----

  predicate Holds(j: Job, state: State, worker: string, attempt: int) {
    j.state == state && j.worker == Some(worker) && j.attempt == attempt
  }

  predicate LeaseGiven(worker: Option<string>, attempt: Option<int>) {
    worker.Some? && Strip(worker.value) != "" && attempt.Some? && attempt.value > 0
  }

  predicate Finishable(t: Table, id: string, worker: string, attempt: int) {
    Strip(worker) != "" && attempt > 0 && id in t && Holds(t[id], Running, worker, attempt)
  }

  function FinishError(t: Table, id: string, worker: string, attempt: int): Error {
    if Strip(worker) == "" || attempt <= 0 then InvalidArgument
    else if id !in t then NotFound
    else Conflict
  }

  function AfterFinish(t: Table, id: string, state: State, worker: string, attempt: int, error: Option<string>,
                       now: string): Table {
    if Finishable(t, id, worker, attempt)
    then t[id := t[id].(state := state, error := error, finishedAt := Some(now), updatedAt := now)]
    else t
  }

  predicate Requeueable(t: Table, id: string, worker: Option<string>, attempt: Option<int>) {
    && id in t
    && match t[id].state
       case Failed =>
         || (worker.None? && attempt.None?)
         || (LeaseGiven(worker, attempt) && Holds(t[id], Failed, worker.value, attempt.value))
       case Running => LeaseGiven(worker, attempt) && Holds(t[id], Running, worker.value, attempt.value)
       case _ => false
  }

  function AfterRequeue(t: Table, id: string, available: string, worker: Option<string>, attempt: Option<int>,
                        now: string): Table {
    if Requeueable(t, id, worker, attempt)
    then t[id := t[id].(state := Queued, error := None, worker := None, claimedAt := None, finishedAt := None,
                        availableAt := available, updatedAt := now)]
    else t
  }

  /** Running, and claimed at or before the cut-off. */
  predicate ClaimedBy(j: Job, before: string) {
    j.state == Running && j.claimedAt.Some? && TextAtMost(j.claimedAt.value, before)
  }

  function Stale(t: Table, before: string): set<string> { set id | id in t && ClaimedBy(t[id], before) }

  function Recovered(j: Job, now: string): Job {
    j.(state := Queued, worker := None, claimedAt := None, finishedAt := None,
       availableAt := now, updatedAt := now)
  }

  function AfterRecover(t: Table, before: string, now: string): Table {
    map id | id in t :: if id in Stale(t, before) then Recovered(t[id], now) else t[id]
  }

  predicate Deletable(t: Table, id: string) { id in t && t[id].state == Queued }

  function AfterDelete(t: Table, id: string): Table {
    if Deletable(t, id) then t - {id} else t
  }

  /** What no step changes of a row. */
  ghost predicate Untouched(j: Job, j': Job) {
    j'.source == j.source && j'.kind == j.kind && j'.target == j.target && j'.createdAt == j.createdAt
  }

  class CatalogJobs {
    var jobs: Table

    method Enqueue(id: string, source: string, kind: string, target: Option<string>, available: Instant, now: Instant)
      returns (r: Result<string, Error>)
      requires id !in jobs
      modifies this
      ensures jobs == AfterEnqueue(old(jobs), id, source, kind, target, Iso(available), Iso(now))
      ensures r.Err? <==> !EnqueueValid(kind, target)
      ensures r.Ok? && r.value != id ==> r.value in Repeats(old(jobs), source, Strip(kind), TargetOf(target))
      ensures r.Ok? ==> r.value in jobs
      ensures r.Err? <==> Strip(kind) == "" || (Strip(kind) == "webhook" && (target.None? || Strip(target.value) == ""))
      ensures r.Ok? && r.value == id ==>
                && jobs == old(jobs)[id := jobs[id]]
                && jobs[id].source == source && jobs[id].kind == Strip(kind) && jobs[id].state == Queued
                && jobs[id].target == (if target.Some? && Strip(target.value) != "" then Some(Strip(target.value)) else None)
                && jobs[id].attempt == 0 && jobs[id].availableAt == Iso(available)
                && jobs[id].createdAt == jobs[id].updatedAt == Iso(now)
                && jobs[id].error == jobs[id].worker == jobs[id].claimedAt == jobs[id].finishedAt == None
      ensures r.Err? || r.value != id ==> jobs == old(jobs)
      ensures r.Ok? && r.value != id ==>
                && target.Some? && Strip(target.value) != "" && jobs[r.value].source == source
                && jobs[r.value].kind == Strip(kind) && jobs[r.value].target == Some(Strip(target.value))
      ensures r.Ok? && r.value == id && jobs[id].target.Some? ==>
                forall other :: other in old(jobs) ==>
                  !(old(jobs)[other].source == source && old(jobs)[other].kind == Strip(kind)
                    && old(jobs)[other].target == jobs[id].target)
    {
      var name := Strip(kind);
      if name == "" { return Err(InvalidArgument); }
      var commit := TargetOf(target);
      if name == "webhook" && commit.None? { return Err(InvalidArgument); }
      var repeats := Repeats(jobs, source, name, commit);
      if repeats != {} {
        var existing :| existing in repeats;
        return Ok(existing);
      }
      assert forall other :: other in jobs && commit.Some? ==>
               (other in repeats <==>
                  jobs[other].source == source && jobs[other].kind == name && jobs[other].target == commit);
      jobs := jobs[id := NewJob(source, name, commit, Iso(available), Iso(now))];
      return Ok(id);
    }

    /** Both back ends: SQLite never finds a row locked by another transaction, PostgreSQL skips
        those rows. */
    method ClaimNext(worker: string, now: Instant, locked: set<string>) returns (r: Result<Option<string>, Error>)
      modifies this
      ensures r.Err? <==> Strip(worker) == ""
      ensures r.Err? || r.value.None? ==> jobs == old(jobs)
      ensures r.Ok? && r.value.None? ==> Due(old(jobs), Iso(now), locked) == {}
      ensures r.Ok? && r.value.Some? ==>
                && FirstOf(old(jobs), Due(old(jobs), Iso(now), locked), r.value.value)
                && jobs == old(jobs)[r.value.value := Claimed(old(jobs)[r.value.value], Strip(worker), Iso(now))]
      ensures r.Ok? && r.value.Some? ==>
                var j, j' := old(jobs)[r.value.value], jobs[r.value.value];
                && j'.state == Running && j'.attempt == j.attempt + 1 && j'.worker == Some(Strip(worker))
                && j'.claimedAt == Some(Iso(now)) && j'.finishedAt == None && j'.updatedAt == Iso(now)
                && j'.availableAt == j.availableAt && j'.error == j.error && Untouched(j, j')
    {
      var name := Strip(worker);
      if name == "" { return Err(InvalidArgument); }
      var due := Due(jobs, Iso(now), locked);
      if due == {} { return Ok(None); }
      ghost var first := FirstExists(jobs, due);
      var id := SelectFirst(jobs, due);
      jobs := jobs[id := Claimed(jobs[id], name, Iso(now))];
      return Ok(Some(id));
    }

    method Finish(id: string, state: State, worker: string, attempt: int, error: Option<string>, now: Instant)
      returns (r: Result<(), Error>)
      modifies this
      ensures jobs == AfterFinish(old(jobs), id, state, worker, attempt, error, Iso(now))
      ensures r == if Finishable(old(jobs), id, worker, attempt) then Ok(())
                   else Err(FinishError(old(jobs), id, worker, attempt))
      ensures r.Ok? <==>
                && Strip(worker) != "" && attempt > 0 && id in old(jobs) && old(jobs)[id].state == Running
                && old(jobs)[id].worker == Some(worker) && old(jobs)[id].attempt == attempt
      ensures r == Err(InvalidArgument) <==> Strip(worker) == "" || attempt <= 0
      ensures r == Err(NotFound) <==> Strip(worker) != "" && attempt > 0 && id !in old(jobs)
      ensures r.Err? ==> jobs == old(jobs)
      ensures r.Ok? ==>
                var j, j' := old(jobs)[id], jobs[id];
                && jobs == old(jobs)[id := j'] && j'.state == state && j'.error == error
                && j'.finishedAt == Some(Iso(now)) && j'.updatedAt == Iso(now) && j'.worker == j.worker
                && j'.attempt == j.attempt && j'.availableAt == j.availableAt && j'.claimedAt == j.claimedAt
                && Untouched(j, j')
    {
      if Strip(worker) == "" || attempt <= 0 { return Err(InvalidArgument); }
      if id !in jobs { return Err(NotFound); }
      var j := jobs[id];
      if !(j.state == Running && j.worker == Some(worker) && j.attempt == attempt) { return Err(Conflict); }
      jobs := jobs[id := j.(state := state, error := error, finishedAt := Some(Iso(now)), updatedAt := Iso(now))];
      return Ok(());
    }

    method Requeue(id: string, available: Instant, worker: Option<string>, attempt: Option<int>, now: Instant)
      returns (r: Result<(), Error>)
      modifies this
      ensures jobs == AfterRequeue(old(jobs), id, Iso(available), worker, attempt, Iso(now))
      ensures r == if Requeueable(old(jobs), id, worker, attempt) then Ok(())
                   else Err(if id in old(jobs) then Conflict else NotFound)
      ensures r.Ok? <==>
                && id in old(jobs)
                && var j := old(jobs)[id];
                   || (j.state == Failed && worker.None? && attempt.None?)
                   || ((j.state == Failed || j.state == Running) && worker.Some? && Strip(worker.value) != ""
                       && attempt.Some? && attempt.value > 0 && j.worker == worker && j.attempt == attempt.value)
      ensures r.Err? ==> jobs == old(jobs)
      ensures r.Ok? ==>
                var j, j' := old(jobs)[id], jobs[id];
                && jobs == old(jobs)[id := j'] && j'.state == Queued
                && j'.availableAt == Iso(available) && j'.updatedAt == Iso(now) && j'.attempt == j.attempt
                && j'.error == j'.worker == j'.claimedAt == j'.finishedAt == None && Untouched(j, j')
    {
      if id !in jobs { return Err(NotFound); }
      var j := jobs[id];
      var allowed := MayRequeue(j, worker, attempt);
      if !allowed { return Err(Conflict); }
      jobs := jobs[id := j.(state := Queued, error := None, worker := None, claimedAt := None, finishedAt := None,
                            availableAt := Iso(available), updatedAt := Iso(now))];
      return Ok(());
    }

    static method MayRequeue(j: Job, worker: Option<string>, attempt: Option<int>) returns (allowed: bool)
      ensures forall t: Table, id :: id in t && t[id] == j ==> (allowed <==> Requeueable(t, id, worker, attempt))
    {
      if j.state == Failed {
        if worker.None? && attempt.None? { return true; }
        if worker.None? || Strip(worker.value) == "" || attempt.None? || attempt.value <= 0 { return false; }
        return j.worker == worker && j.attempt == attempt.value;
      } else if j.state == Running {
        if worker.None? || Strip(worker.value) == "" || attempt.None? || attempt.value <= 0 { return false; }
        return j.worker == worker && j.attempt == attempt.value;
      } else {
        return false;
      }
    }

    method RequeueStale(before: Instant, now: Instant) returns (count: nat)
      modifies this
      ensures jobs.Keys == old(jobs).Keys
      ensures forall id :: id in jobs && !ClaimedBy(old(jobs)[id], Iso(before)) ==> jobs[id] == old(jobs)[id]
      ensures forall id :: id in jobs && ClaimedBy(old(jobs)[id], Iso(before)) ==>
                && jobs[id].state == Queued && jobs[id].availableAt == Iso(now)
                && jobs[id].worker == jobs[id].claimedAt == jobs[id].finishedAt == None
                && jobs[id].attempt == old(jobs)[id].attempt && jobs[id].error == old(jobs)[id].error
                && jobs[id].updatedAt == Iso(now) && Untouched(old(jobs)[id], jobs[id])
      ensures count == |Stale(old(jobs), Iso(before))|
      ensures jobs == AfterRecover(old(jobs), Iso(before), Iso(now))
    {
      jobs, count := RecoverRows(jobs, Iso(before), Iso(now));
    }

    method DeleteQueued(id: string) returns (deleted: bool)
      modifies this
      ensures jobs == AfterDelete(old(jobs), id) && (deleted <==> Deletable(old(jobs), id))
      ensures deleted <==> id in old(jobs) && old(jobs)[id].state == Queued
      ensures jobs == if deleted then old(jobs) - {id} else old(jobs)
    {
      deleted := id in jobs && jobs[id].state == Queued;
      if deleted { jobs := jobs - {id}; }
    }
  }

  /** One row after another is recovered and counted. */
  method RecoverRows(t: Table, before: string, now: string) returns (r: Table, count: nat)
    ensures r == AfterRecover(t, before, now) && count == |Stale(t, before)|
  {
    r, count := t, 0;
    var left := t.Keys;
    assert Stale(t, before) - t.Keys == {};
    while left != {}
      invariant left <= t.Keys && PartlyRecovered(t, r, left, before, now, count)
      decreases left
    {
      var id :| id in left;
      OneRecovered(t, r, left, before, now, count, id);
      if ClaimedBy(r[id], before) {
        r := r[id := Recovered(r[id], now)];
        count := count + 1;
      }
      left := left - {id};
    }
    AllRecovered(t, r, before, now, count);
  }

  /** The rows that are not left are recovered and counted where they were stale. */
  ghost predicate PartlyRecovered(t: Table, r: Table, left: set<string>, before: string, now: string, count: nat) {
    && r.Keys == t.Keys
    && (forall id :: id in t ==>
          r[id] == if id !in left && ClaimedBy(t[id], before) then Recovered(t[id], now) else t[id])
    && count == |Stale(t, before) - left|
  }

  lemma {:induction false} OneRecovered(t: Table, r: Table, left: set<string>, before: string, now: string, count: nat,
                                        id: string)
    requires left <= t.Keys && PartlyRecovered(t, r, left, before, now, count) && id in left
    ensures ClaimedBy(r[id], before) ==>
              PartlyRecovered(t, r[id := Recovered(r[id], now)], left - {id}, before, now, count + 1)
    ensures !ClaimedBy(r[id], before) ==> PartlyRecovered(t, r, left - {id}, before, now, count)
  {
    OneLessLeft(Stale(t, before), left, id);
  }

  lemma {:induction false} AllRecovered(t: Table, r: Table, before: string, now: string, count: nat)
    requires PartlyRecovered(t, r, {}, before, now, count)
    ensures r == AfterRecover(t, before, now) && count == |Stale(t, before)|
  {
    assert Stale(t, before) - {} == Stale(t, before);
  }

  /** The row that ORDER BY ... LIMIT 1 selects. */
  method SelectFirst(t: Table, ids: set<string>) returns (id: string)
    requires ids != {} && ids <= t.Keys
    ensures FirstOf(t, ids, id)
  {
    id :| id in ids;
    var left := ids - {id};
    while left != {}
      invariant left <= ids && id in ids && id !in left
      invariant FirstOf(t, ids - left, id)
      decreases left
    {
      var other :| other in left;
      PrecedesTotal(t[id], id, t[other], other);
      if Precedes(t[other], other, t[id], id) {
        forall x | x in ids - left && x != other ensures Precedes(t[other], other, t[x], x) {
          if x != id { PrecedesTransitive(t[other], other, t[id], id, t[x], x); }
        }
        id := other;
      }
      left := left - {other};
    }
    assert ids - left == ids;
  }
}

/** Any number of workers and operators over the queue. */
module SyncJobRuns {
  import opened Common
  import opened IsoTime
  import opened SyncJobs

  /** The text is what `_to_iso` writes for some instant. */
  ghost predicate Stamp(s: string, t: Instant) { Valid(t) && s == Iso(t) }

  ghost predicate IsStamp(s: string) { exists t :: Stamp(s, t) }

  /** What happened to leases; a failed call leaves no event. */
  datatype Event =
    | Enqueued(id: string)
    | Granted(id: string, attempt: nat, worker: string)
    | Ended(id: string, attempt: nat, worker: string, state: State)
    | GivenBack(id: string, attempt: nat, worker: string)
    | Reopened(id: string, attempt: nat, byLease: bool)
    | LeasesRecovered(leases: map<string, nat>)
    | Deleted(id: string)

  datatype Action =
    | Enqueue(id: string, source: string, kind: string, target: Option<string>, available: string, at: string)
    | Claim(id: string, worker: string, at: string, locked: set<string>)
    | Finish(id: string, state: State, worker: string, attempt: int, error: Option<string>, at: string)
    | Requeue(id: string, available: string, lessee: Option<string>, lease: Option<int>, at: string)
    | Recover(before: string, at: string)
    | Delete(id: string)

  datatype World = World(jobs: Table, log: seq<Event>, used: set<string>)

  const Start := World(map[], [], {})

  /** Ids are fresh uuids; a claim takes the row that the SQL selects. */
  ghost predicate Enabled(w: World, a: Action) {
    match a
    case Enqueue(id, _, _, _, available, at) => id !in w.used && IsStamp(available) && IsStamp(at)
    case Claim(id, worker, at, locked) => Strip(worker) != "" && IsStamp(at) && FirstOf(w.jobs, Due(w.jobs, at, locked), id)
    case Finish(_, state, _, _, _, at) => (state == Succeeded || state == Failed) && IsStamp(at)
    case Requeue(_, available, _, _, at) => IsStamp(available) && IsStamp(at)
    case Recover(before, at) => IsStamp(before) && IsStamp(at)
    case Delete(_) => true
  }

  function Logged(w: World, jobs: Table, e: Event): World { w.(jobs := jobs, log := w.log + [e]) }

  ghost function Apply(w: World, a: Action): World
    requires Enabled(w, a)
  {
    match a
    case Enqueue(id, source, kind, target, available, at) =>
      var jobs := AfterEnqueue(w.jobs, id, source, kind, target, available, at);
      if id in jobs then Logged(w, jobs, Enqueued(id)).(used := w.used + {id}) else w
    case Claim(id, worker, at, _) =>
      Logged(w, w.jobs[id := Claimed(w.jobs[id], Strip(worker), at)],
             Granted(id, w.jobs[id].attempt + 1, Strip(worker)))
    case Finish(id, state, worker, attempt, error, at) =>
      if Finishable(w.jobs, id, worker, attempt)
      then Logged(w, AfterFinish(w.jobs, id, state, worker, attempt, error, at), Ended(id, attempt, worker, state))
      else w
    case Requeue(id, available, worker, attempt, at) =>
      if Requeueable(w.jobs, id, worker, attempt)
      then Logged(w, AfterRequeue(w.jobs, id, available, worker, attempt, at),
                  if w.jobs[id].state == Running then GivenBack(id, w.jobs[id].attempt, worker.value)
                  else Reopened(id, w.jobs[id].attempt, worker.Some?))
      else w
    case Recover(before, at) =>
      Logged(w, AfterRecover(w.jobs, before, at),
             LeasesRecovered(map id | id in Stale(w.jobs, before) :: w.jobs[id].attempt))
    case Delete(id) =>
      if Deletable(w.jobs, id) then Logged(w, AfterDelete(w.jobs, id), Deleted(id)) else w
  }

  ghost predicate Follows(w: World, w': World) { exists a :: Enabled(w, a) && Apply(w, a) == w' }

  ghost predicate IsRun(worlds: seq<World>) {
    && |worlds| > 0 && worlds[0] == Start
    && forall i, j {:trigger worlds[i], worlds[j]} :: 0 <= i && j == i + 1 && j < |worlds| ==> Follows(worlds[i], worlds[j])
  }

  // ---- Leases ----

  predicate GrantsTo(e: Event, id: string) { e.Granted? && e.id == id }

  /** How often the job was granted. */
  function Grants(log: seq<Event>, id: string): nat {
    if log == [] then 0 else Grants(log[..|log| - 1], id) + if GrantsTo(log[|log| - 1], id) then 1 else 0
  }

  /** The event closes the lease (id, attempt): its worker finished it or gave it back, or it was
      recovered. */
  predicate Closes(e: Event, id: string, attempt: nat) {
    || ((e.Ended? || e.GivenBack?) && e.id == id && e.attempt == attempt)
    || (e.LeasesRecovered? && id in e.leases && e.leases[id] == attempt)
  }

  predicate Touches(e: Event, id: string, attempt: nat) {
    || Closes(e, id, attempt)
    || ((e.Granted? || e.Reopened?) && e.id == id && e.attempt == attempt)
  }

  ghost predicate Closed(log: seq<Event>, id: string, attempt: nat) {
    exists i :: 0 <= i < |log| && Closes(log[i], id, attempt)
  }

  ghost predicate JobOk(log: seq<Event>, id: string, j: Job) {
    && Grants(log, id) == j.attempt
    && (forall i, n :: 0 <= i < |log| && n > j.attempt ==> !Touches(log[i], id, n))
    && (j.state == Running ==>
          && j.worker.Some? && j.claimedAt.Some?
          && Granted(id, j.attempt, j.worker.value) in log
          && !Closed(log, id, j.attempt))
    && (j.state == Failed || j.state == Succeeded ==>
          j.worker.Some? && Ended(id, j.attempt, j.worker.value, j.state) in log)
  }

  ghost predicate JobsOk(w: World) {
    forall id :: id in w.jobs ==> id in w.used && JobOk(w.log, id, w.jobs[id])
  }

  ghost predicate UnusedSilent(w: World) {
    forall id, i, n :: id !in w.used && 0 <= i < |w.log| ==> !Touches(w.log[i], id, n)
  }

  /** No lease is closed twice, granted twice, or reopened by its worker after a recovery. */
  ghost predicate LeasesOnce(log: seq<Event>) {
    forall i, j, id, n {:trigger Touches(log[i], id, n), Touches(log[j], id, n)} ::
      0 <= i < j < |log| ==>
        && !(Closes(log[i], id, n) && Closes(log[j], id, n))
        && !(GrantsLease(log[i], id, n) && GrantsLease(log[j], id, n))
        && !(log[i].LeasesRecovered? && Touches(log[i], id, n) && Touches(log[j], id, n))
  }

  predicate GrantsLease(e: Event, id: string, n: nat) { e.Granted? && e.id == id && e.attempt == n }

  ghost predicate Inv(w: World) { JobsOk(w) && UnusedSilent(w) && LeasesOnce(w.log) }

  lemma {:induction false} GrantsAppend(log: seq<Event>, e: Event, id: string)
    ensures Grants(log + [e], id) == Grants(log, id) + if GrantsTo(e, id) then 1 else 0
  {
    assert (log + [e])[..|log|] == log;
  }

  /** What a new event must respect. */
  ghost predicate Fits(log: seq<Event>, e: Event, id: string, n: nat) {
    && (Closes(e, id, n) ==> !Closed(log, id, n))
    && (GrantsLease(e, id, n) ==> forall i :: 0 <= i < |log| ==> !Touches(log[i], id, n))
    && (Touches(e, id, n) ==> forall i :: 0 <= i < |log| && log[i].LeasesRecovered? ==> !Touches(log[i], id, n))
  }

  lemma {:induction false} AppendKeeps(log: seq<Event>, e: Event)
    requires LeasesOnce(log) && forall id, n :: Fits(log, e, id, n)
    ensures LeasesOnce(log + [e])
  {
    var log' := log + [e];
    forall i, j, id, n | 0 <= i < j < |log'|
      ensures !(Closes(log'[i], id, n) && Closes(log'[j], id, n))
      ensures !(GrantsLease(log'[i], id, n) && GrantsLease(log'[j], id, n))
      ensures !(log'[i].LeasesRecovered? && Touches(log'[i], id, n) && Touches(log'[j], id, n))
    {
      assert Fits(log, e, id, n);
      if j < |log| {
        assert log'[i] == log[i] && log'[j] == log[j];
        assert Touches(log[i], id, n) == Touches(log'[i], id, n);
        assert Touches(log[j], id, n) == Touches(log'[j], id, n);
      } else {
        assert log'[i] == log[i] && log'[j] == e;
        if Closes(e, id, n) { assert !Closes(log[i], id, n); }
      }
    }
  }

  /** An event that does not touch a job leaves what is known of it true. */
  lemma {:induction false} UntouchedOk(log: seq<Event>, e: Event, id: string, j: Job)
    requires JobOk(log, id, j) && !GrantsTo(e, id) && forall n :: !Touches(e, id, n)
    ensures JobOk(log + [e], id, j)
  {
    GrantsAppend(log, e, id);
    var log' := log + [e];
    forall i, n | 0 <= i < |log'| && n > j.attempt ensures !Touches(log'[i], id, n) {
      assert log'[i] == if i < |log| then log[i] else e;
    }
    if Closed(log', id, j.attempt) {
      var i :| 0 <= i < |log'| && Closes(log'[i], id, j.attempt);
      assert log'[i] == if i < |log| then log[i] else e;
      assert Touches(e, id, j.attempt) || Closed(log, id, j.attempt);
    }
  }

  lemma {:induction false} LaterSilent(log: seq<Event>, e: Event, id: string, attempt: nat, attempt': nat)
    requires forall i, n :: 0 <= i < |log| && n > attempt ==> !Touches(log[i], id, n)
    requires attempt' >= attempt && forall n :: n > attempt' ==> !Touches(e, id, n)
    ensures forall i, n :: 0 <= i < |log + [e]| && n > attempt' ==> !Touches((log + [e])[i], id, n)
  {
    forall i, n | 0 <= i < |log + [e]| && n > attempt' ensures !Touches((log + [e])[i], id, n) {
      assert (log + [e])[i] == if i < |log| then log[i] else e;
    }
  }

  /** A lease that was never touched is open when it is granted. */
  lemma {:induction false} GrantOpens(log: seq<Event>, e: Event, id: string, n: nat)
    requires e.Granted? && forall i :: 0 <= i < |log| ==> !Touches(log[i], id, n)
    ensures !Closed(log + [e], id, n)
  {
    var log' := log + [e];
    forall i | 0 <= i < |log'| ensures !Closes(log'[i], id, n) {
      assert log'[i] == if i < |log| then log[i] else e;
      assert i < |log| ==> !Touches(log[i], id, n);
    }
  }

  /** What is known of a job after an event about its present lease. */
  lemma {:induction false} TouchedOk(log: seq<Event>, e: Event, id: string, j: Job, j': Job)
    requires JobOk(log, id, j)
    requires forall n :: n > j'.attempt ==> !Touches(e, id, n)
    requires j'.attempt == j.attempt + if GrantsTo(e, id) then 1 else 0
    requires j'.state == Running ==>
               e == Granted(id, j'.attempt, if j'.worker.Some? then j'.worker.value else "")
               && j'.worker.Some? && j'.claimedAt.Some?
    requires j'.state == Failed || j'.state == Succeeded ==>
               j'.worker.Some? && e == Ended(id, j'.attempt, j'.worker.value, j'.state)
    ensures JobOk(log + [e], id, j')
  {
    GrantsAppend(log, e, id);
    assert (log + [e])[|log|] == e;
    LaterSilent(log, e, id, j.attempt, j'.attempt);
    if j'.state == Running { GrantOpens(log, e, id, j'.attempt); }
  }

  ghost predicate OnlyTouches(e: Event, id: string) {
    && (forall other, n :: other != id ==> !Touches(e, other, n))
    && (forall other :: other != id ==> !GrantsTo(e, other))
  }

  /** A step on one row. */
  lemma {:induction false} OneRowKeeps(w: World, id: string, j': Job, e: Event)
    requires Inv(w) && OnlyTouches(e, id) && id in w.jobs
    requires JobOk(w.log + [e], id, j') && forall n :: Fits(w.log, e, id, n)
    ensures Inv(Logged(w, w.jobs[id := j'], e))
  {
    var w' := Logged(w, w.jobs[id := j'], e);
    forall other, n ensures Fits(w.log, e, other, n) {
      assert other == id || !Touches(e, other, n);
    }
    AppendKeeps(w.log, e);
    forall other | other in w'.jobs ensures other in w'.used && JobOk(w'.log, other, w'.jobs[other]) {
      if other != id { UntouchedOk(w.log, e, other, w.jobs[other]); }
    }
    SilentKeeps(w, e, id);
  }

  lemma {:induction false} SilentKeeps(w: World, e: Event, id: string)
    requires UnusedSilent(w) && OnlyTouches(e, id) && id in w.used
    ensures forall other, i, n :: other !in w.used && 0 <= i < |w.log + [e]| ==> !Touches((w.log + [e])[i], other, n)
  {
    forall other, i, n | other !in w.used && 0 <= i < |w.log + [e]| ensures !Touches((w.log + [e])[i], other, n) {
      assert (w.log + [e])[i] == if i < |w.log| then w.log[i] else e;
    }
  }

  /** A grant of the next attempt fits. */
  lemma {:induction false} GrantingFits(w: World, id: string, e: Event)
    requires Inv(w) && id in w.jobs && e.Granted? && e.id == id && e.attempt == w.jobs[id].attempt + 1
    ensures forall n :: Fits(w.log, e, id, n)
  {
    assert JobOk(w.log, id, w.jobs[id]);
    forall n ensures Fits(w.log, e, id, n) { }
  }

  lemma {:induction false} ClaimKeeps(w: World, a: Action)
    requires Inv(w) && Enabled(w, a) && a.Claim?
    ensures Inv(Apply(w, a))
  {
    var j := w.jobs[a.id];
    var j' := Claimed(j, Strip(a.worker), a.at);
    var e := Granted(a.id, j.attempt + 1, Strip(a.worker));
    assert Apply(w, a) == Logged(w, w.jobs[a.id := j'], e);
    GrantingFits(w, a.id, e);
    TouchedOk(w.log, e, a.id, j, j');
    OneRowKeeps(w, a.id, j', e);
  }

  /** Closing the present lease of a running job fits. */
  lemma {:induction false} ClosingFits(w: World, id: string, e: Event)
    requires Inv(w) && id in w.jobs && w.jobs[id].state == Running
    requires forall n :: Touches(e, id, n) ==> n == w.jobs[id].attempt
    requires !e.Granted?
    ensures forall n :: Fits(w.log, e, id, n)
  {
    assert JobOk(w.log, id, w.jobs[id]);
    forall n ensures Fits(w.log, e, id, n) {
      if Touches(e, id, n) {
        assert !Closed(w.log, id, n);
        forall i | 0 <= i < |w.log| && w.log[i].LeasesRecovered? ensures !Touches(w.log[i], id, n) {
          assert !Closes(w.log[i], id, n);
        }
      }
    }
  }

  lemma {:induction false} FinishKeeps(w: World, a: Action)
    requires Inv(w) && Enabled(w, a) && a.Finish?
    ensures Inv(Apply(w, a))
  {
    if Finishable(w.jobs, a.id, a.worker, a.attempt) {
      var j := w.jobs[a.id];
      var j' := Apply(w, a).jobs[a.id];
      var e := Ended(a.id, a.attempt, a.worker, a.state);
      ClosingFits(w, a.id, e);
      TouchedOk(w.log, e, a.id, j, j');
      OneRowKeeps(w, a.id, j', e);
    }
  }

  /** A failed job's lease was ended, so it was not recovered. */
  lemma {:induction false} ReopeningFits(w: World, id: string, byLease: bool)
    requires Inv(w) && id in w.jobs && w.jobs[id].state == Failed
    ensures forall n :: Fits(w.log, Reopened(id, w.jobs[id].attempt, byLease), id, n)
  {
    var j := w.jobs[id];
    assert JobOk(w.log, id, j);
    var k :| 0 <= k < |w.log| && w.log[k] == Ended(id, j.attempt, j.worker.value, Failed);
    assert Touches(w.log[k], id, j.attempt);
    assert Closes(w.log[k], id, j.attempt);
    forall i | 0 <= i < |w.log| && w.log[i].LeasesRecovered? ensures !Touches(w.log[i], id, j.attempt) {
      assert i < k || k < i;
    }
  }

  lemma {:induction false} RequeueKeeps(w: World, a: Action)
    requires Inv(w) && Enabled(w, a) && a.Requeue?
    ensures Inv(Apply(w, a))
  {
    if Requeueable(w.jobs, a.id, a.lessee, a.lease) {
      var j := w.jobs[a.id];
      var j' := Apply(w, a).jobs[a.id];
      var e := Apply(w, a).log[|w.log|];
      if j.state == Running {
        ClosingFits(w, a.id, e);
      } else {
        ReopeningFits(w, a.id, a.lessee.Some?);
      }
      TouchedOk(w.log, e, a.id, j, j');
      OneRowKeeps(w, a.id, j', e);
    }
  }

  lemma {:induction false} RecoverKeeps(w: World, a: Action)
    requires Inv(w) && Enabled(w, a) && a.Recover?
    ensures Inv(Apply(w, a))
  {
    var w' := Apply(w, a);
    var stale := Stale(w.jobs, a.before);
    var e := w'.log[|w.log|];
    forall id, n ensures Fits(w.log, e, id, n) {
      if id in stale { ClosingFits(w, id, e); }
    }
    AppendKeeps(w.log, e);
    forall id | id in w'.jobs ensures id in w'.used && JobOk(w'.log, id, w'.jobs[id]) {
      if id in stale {
        TouchedOk(w.log, e, id, w.jobs[id], w'.jobs[id]);
      } else {
        UntouchedOk(w.log, e, id, w.jobs[id]);
      }
    }
    forall id, i, n | id !in w.used && 0 <= i < |w'.log| ensures !Touches(w'.log[i], id, n) {
      assert w'.log[i] == if i < |w.log| then w.log[i] else e;
    }
  }

  lemma {:induction false} EnqueueKeeps(w: World, a: Action)
    requires Inv(w) && Enabled(w, a) && a.Enqueue?
    ensures Inv(Apply(w, a))
  {
    var w' := Apply(w, a);
    if w' != w {
      var e := Enqueued(a.id);
      AppendKeeps(w.log, e);
      assert w'.log == w.log + [e];
      forall id | id in w'.jobs ensures id in w'.used && JobOk(w'.log, id, w'.jobs[id]) {
        if id != a.id {
          UntouchedOk(w.log, e, id, w.jobs[id]);
        } else {
          NewJobOk(w, a.id, w'.jobs[id], e);
        }
      }
      forall id, i, n | id !in w'.used && 0 <= i < |w'.log| ensures !Touches(w'.log[i], id, n) {
        assert w'.log[i] == if i < |w.log| then w.log[i] else e;
      }
    }
  }

  lemma {:induction false} SilentGrants(log: seq<Event>, id: string)
    requires forall i, n :: 0 <= i < |log| ==> !Touches(log[i], id, n)
    ensures Grants(log, id) == 0
  {
    if log != [] {
      SilentGrants(log[..|log| - 1], id);
      var last := log[|log| - 1];
      if GrantsTo(last, id) { assert Touches(last, id, last.attempt); }
    }
  }

  lemma {:induction false} NewJobOk(w: World, id: string, j: Job, e: Event)
    requires UnusedSilent(w) && id !in w.used && j.state == Queued && j.attempt == 0 && e == Enqueued(id)
    ensures JobOk(w.log + [e], id, j)
  {
    var log' := w.log + [e];
    forall i, n ensures 0 <= i < |log'| ==> !Touches(log'[i], id, n) {
      if 0 <= i < |log'| { assert log'[i] == if i < |w.log| then w.log[i] else e; }
    }
    SilentGrants(log', id);
  }

  lemma {:induction false} DeleteKeeps(w: World, a: Action)
    requires Inv(w) && Enabled(w, a) && a.Delete?
    ensures Inv(Apply(w, a))
  {
    if Deletable(w.jobs, a.id) {
      var w' := Apply(w, a);
      var e := Deleted(a.id);
      AppendKeeps(w.log, e);
      forall id | id in w'.jobs ensures id in w'.used && JobOk(w'.log, id, w'.jobs[id]) {
        UntouchedOk(w.log, e, id, w.jobs[id]);
      }
      SilentKeeps(w, e, a.id);
    }
  }

  lemma {:induction false} StepKeeps(w: World, w': World)
    requires Inv(w) && Follows(w, w')
    ensures Inv(w')
  {
    var a :| Enabled(w, a) && Apply(w, a) == w';
    match a
    case Enqueue(_, _, _, _, _, _) => EnqueueKeeps(w, a);
    case Claim(_, _, _, _) => ClaimKeeps(w, a);
    case Finish(_, _, _, _, _, _) => FinishKeeps(w, a);
    case Requeue(_, _, _, _, _) => RequeueKeeps(w, a);
    case Recover(_, _) => RecoverKeeps(w, a);
    case Delete(_) => DeleteKeeps(w, a);
  }

  lemma {:induction false} RunKeeps(worlds: seq<World>, n: nat)
    requires IsRun(worlds) && n < |worlds|
    ensures Inv(worlds[n])
  {
    if n > 0 {
      RunKeeps(worlds, n - 1);
      StepKeeps(worlds[n - 1], worlds[n]);
    }
  }

  lemma {:induction false} RowsAreUsed(worlds: seq<World>, n: nat, id: string)
    requires IsRun(worlds) && n < |worlds| && id in worlds[n].jobs
    ensures id in worlds[n].used
  {
    RunKeeps(worlds, n);
  }

  // ---- Theorems over every run ----

  /** A job's attempt is the number of its grants. */
  lemma {:induction false} AttemptCountsGrants(worlds: seq<World>, n: nat, id: string)
    requires IsRun(worlds) && n < |worlds| && id in worlds[n].jobs
    ensures worlds[n].jobs[id].attempt == Grants(worlds[n].log, id)
  {
    RunKeeps(worlds, n);
  }

  /** Each (job, attempt) is granted once, so to one worker. */
  lemma {:induction false} GrantedOnce(worlds: seq<World>, n: nat, i: nat, j: nat)
    requires IsRun(worlds) && n < |worlds| && i < |worlds[n].log| && j < |worlds[n].log|
    requires worlds[n].log[i].Granted? && worlds[n].log[j].Granted?
    requires worlds[n].log[i].id == worlds[n].log[j].id && worlds[n].log[i].attempt == worlds[n].log[j].attempt
    ensures i == j
  {
    RunKeeps(worlds, n);
    var log := worlds[n].log;
    var id, k := log[i].id, log[i].attempt;
    assert Touches(log[i], id, k) && Touches(log[j], id, k);
    assert GrantsLease(log[i], id, k) && GrantsLease(log[j], id, k);
  }

  /** Each (job, attempt) is finished, given back or recovered at most once in all. */
  lemma {:induction false} ClosedOnce(worlds: seq<World>, n: nat, i: nat, j: nat, id: string, k: nat)
    requires IsRun(worlds) && n < |worlds| && i < |worlds[n].log| && j < |worlds[n].log|
    requires Closes(worlds[n].log[i], id, k) && Closes(worlds[n].log[j], id, k)
    ensures i == j
  {
    RunKeeps(worlds, n);
    var log := worlds[n].log;
    assert Touches(log[i], id, k) && Touches(log[j], id, k);
  }

  /** After a lease was recovered, its worker never again finishes, gives back or requeues the job
      under it. */
  lemma {:induction false} RecoveredLeaseIsDead(worlds: seq<World>, n: nat, i: nat, j: nat, id: string, k: nat)
    requires IsRun(worlds) && n < |worlds| && i < j < |worlds[n].log|
    requires worlds[n].log[i].LeasesRecovered? && Closes(worlds[n].log[i], id, k)
    ensures !Touches(worlds[n].log[j], id, k)
  {
    RunKeeps(worlds, n);
    var log := worlds[n].log;
    assert Touches(log[i], id, k);
  }

  /** Seen from the worker: while its recovered lease is in the log, its calls with that attempt
      are refused. */
  lemma {:induction false} RecoveredWorkerRefused(worlds: seq<World>, n: nat, i: nat, id: string, k: nat, worker: string)
    requires IsRun(worlds) && n < |worlds| && i < |worlds[n].log|
    requires worlds[n].log[i].LeasesRecovered? && Closes(worlds[n].log[i], id, k)
    ensures !Finishable(worlds[n].jobs, id, worker, k)
    ensures !Requeueable(worlds[n].jobs, id, Some(worker), Some(k))
  {
    RunKeeps(worlds, n);
    var w := worlds[n];
    if id in w.jobs && w.jobs[id].attempt == k {
      assert JobOk(w.log, id, w.jobs[id]);
      assert Closed(w.log, id, k);
      if w.jobs[id].state == Failed {
        var m :| 0 <= m < |w.log| && w.log[m] == Ended(id, k, w.jobs[id].worker.value, Failed);
        ClosedOnce(worlds, n, i, m, id, k);
      }
    }
  }

  /** Whoever ends a lease is the worker it was granted to. */
  ghost predicate EndersGranted(log: seq<Event>) {
    forall i :: 0 <= i < |log| && (log[i].Ended? || log[i].GivenBack?) ==>
      Granted(log[i].id, log[i].attempt, log[i].worker) in log
  }

  lemma {:induction false} EndersMore(log: seq<Event>, e: Event)
    requires EndersGranted(log)
    requires e.Ended? || e.GivenBack? ==> Granted(e.id, e.attempt, e.worker) in log
    ensures EndersGranted(log + [e])
  {
    var log' := log + [e];
    forall i | 0 <= i < |log'| && (log'[i].Ended? || log'[i].GivenBack?)
      ensures Granted(log'[i].id, log'[i].attempt, log'[i].worker) in log'
    {
      if i < |log| { assert log'[i] == log[i]; }
    }
  }

  /** A step that ends or gives back a lease holds it. */
  lemma {:induction false} StepEvent(w: World, a: Action)
    requires Inv(w) && Enabled(w, a) && Apply(w, a).log != w.log
    ensures var log' := Apply(w, a).log;
            && |log'| == |w.log| + 1 && log' == w.log + [log'[|w.log|]]
            && var e := log'[|w.log|];
               e.Ended? || e.GivenBack? ==> Granted(e.id, e.attempt, e.worker) in w.log
  {
    if a.Finish? || a.Requeue? { assert JobOk(w.log, a.id, w.jobs[a.id]); }
  }

  lemma {:induction false} StepEnders(w: World, w': World)
    requires Inv(w) && Follows(w, w') && EndersGranted(w.log)
    ensures EndersGranted(w'.log)
  {
    var a :| Enabled(w, a) && Apply(w, a) == w';
    if w'.log != w.log {
      StepEvent(w, a);
      EndersMore(w.log, w'.log[|w.log|]);
    }
  }

  lemma {:induction false} EndedByGrantee(worlds: seq<World>, n: nat)
    requires IsRun(worlds) && n < |worlds|
    ensures EndersGranted(worlds[n].log)
  {
    if n > 0 {
      EndedByGrantee(worlds, n - 1);
      RunKeeps(worlds, n - 1);
      StepEnders(worlds[n - 1], worlds[n]);
    }
  }

  lemma {:induction false} SucceededNotLeased(w: World, a: Action, id: string)
    requires Enabled(w, a) && (a.Finish? || a.Requeue? || a.Recover?)
    requires id in w.jobs && w.jobs[id].state == Succeeded
    ensures id in Apply(w, a).jobs && Apply(w, a).jobs[id] == w.jobs[id]
  {
    if a.Recover? { assert id !in Stale(w.jobs, a.before); }
  }

  lemma {:induction false} SucceededNotQueued(w: World, a: Action, id: string)
    requires Enabled(w, a) && (a.Enqueue? || a.Claim? || a.Delete?)
    requires id in w.jobs && w.jobs[id].state == Succeeded && id in w.used
    ensures id in Apply(w, a).jobs && Apply(w, a).jobs[id] == w.jobs[id]
  {
    if a.Claim? { assert a.id in Due(w.jobs, a.at, a.locked); }
  }

  lemma {:induction false} SucceededStep(w: World, w': World, id: string)
    requires Follows(w, w') && id in w.jobs && w.jobs[id].state == Succeeded && id in w.used
    ensures id in w'.jobs && w'.jobs[id] == w.jobs[id]
  {
    var a :| Enabled(w, a) && Apply(w, a) == w';
    if a.Enqueue? || a.Claim? || a.Delete? { SucceededNotQueued(w, a, id); } else { SucceededNotLeased(w, a, id); }
  }

  /** A succeeded job's row never changes again. */
  lemma {:induction false} SucceededIsFinal(worlds: seq<World>, n: nat, m: nat, id: string)
    requires IsRun(worlds) && n <= m < |worlds|
    requires id in worlds[n].jobs && worlds[n].jobs[id].state == Succeeded
    ensures id in worlds[m].jobs && worlds[m].jobs[id] == worlds[n].jobs[id]
    decreases m
  {
    if n < m {
      SucceededIsFinal(worlds, n, m - 1, id);
      RowsAreUsed(worlds, m - 1, id);
      SucceededStep(worlds[m - 1], worlds[m], id);
    }
  }

  predicate SameWork(j: Job, k: Job) { j.source == k.source && j.kind == k.kind && j.target == k.target }

  /** No two rows share source, kind and target commit. */
  ghost predicate NoRepeats(t: Table) {
    forall a, b :: a in t && b in t && t[a].target.Some? && SameWork(t[a], t[b]) ==> a == b
  }

  /** Only an enqueue adds a row, and no other step changes what a row is about. */
  lemma {:induction false} StepKeepsWork(w: World, a: Action, id: string)
    requires Enabled(w, a) && id in Apply(w, a).jobs && !(a.Enqueue? && a.id == id)
    ensures id in w.jobs && SameWork(w.jobs[id], Apply(w, a).jobs[id])
  {
    match a
    case Enqueue(_, _, _, _, _, _) =>
    case Claim(_, _, _, _) =>
    case Finish(_, _, _, _, _, _) =>
    case Requeue(_, _, _, _, _) =>
    case Recover(_, _) =>
    case Delete(_) =>
  }

  lemma {:induction false} EnqueueNoRepeat(t: Table, id: string, source: string, kind: string, target: Option<string>,
                                           available: string, now: string, other: string)
    requires id !in t && other in t
    ensures var t' := AfterEnqueue(t, id, source, kind, target, available, now);
            id in t' && t'[id].target.Some? ==> !SameWork(t'[id], t[other])
  {
    var repeats := Repeats(t, source, Strip(kind), TargetOf(target));
    if repeats == {} { assert other !in repeats; }
  }

  lemma {:induction false} StepNoRepeats(w: World, w': World)
    requires Inv(w) && Follows(w, w') && NoRepeats(w.jobs)
    ensures NoRepeats(w'.jobs)
  {
    var a :| Enabled(w, a) && Apply(w, a) == w';
    forall x, y | x in w'.jobs && y in w'.jobs && w'.jobs[x].target.Some? && SameWork(w'.jobs[x], w'.jobs[y])
      ensures x == y
    {
      PairKept(w, a, x, y);
    }
  }

  lemma {:induction false} PairKept(w: World, a: Action, x: string, y: string)
    requires Inv(w) && Enabled(w, a) && NoRepeats(w.jobs) && x in Apply(w, a).jobs && y in Apply(w, a).jobs
    requires Apply(w, a).jobs[x].target.Some? && SameWork(Apply(w, a).jobs[x], Apply(w, a).jobs[y])
    ensures x == y
  {
    if a.Enqueue? && x != y && (a.id == x || a.id == y) {
      var other := if a.id == x then y else x;
      StepKeepsWork(w, a, other);
      assert a.id !in w.jobs;
      EnqueueNoRepeat(w.jobs, a.id, a.source, a.kind, a.target, a.available, a.at, other);
    } else if x != y {
      StepKeepsWork(w, a, x);
      StepKeepsWork(w, a, y);
    }
  }

  lemma {:induction false} NeverRepeats(worlds: seq<World>, n: nat)
    requires IsRun(worlds) && n < |worlds|
    ensures NoRepeats(worlds[n].jobs)
  {
    if n > 0 {
      NeverRepeats(worlds, n - 1);
      RunKeeps(worlds, n - 1);
      StepNoRepeats(worlds[n - 1], worlds[n]);
    }
  }

  // ---- Timestamps ----

  ghost predicate RowStamped(j: Job) {
    IsStamp(j.availableAt) && IsStamp(j.createdAt) && (j.claimedAt.Some? ==> IsStamp(j.claimedAt.value))
  }

  ghost predicate Stamped(t: Table) { forall id :: id in t ==> RowStamped(t[id]) }

  lemma {:induction false} RowStaysStamped(w: World, a: Action, id: string)
    requires Enabled(w, a) && id in Apply(w, a).jobs && (id in w.jobs ==> RowStamped(w.jobs[id]))
    ensures RowStamped(Apply(w, a).jobs[id])
  {
    if a.Enqueue? || a.Recover? || a.Delete? { ManyStayStamped(w, a, id); } else { LeaseStaysStamped(w, a, id); }
  }

  lemma {:induction false} ManyStayStamped(w: World, a: Action, id: string)
    requires Enabled(w, a) && id in Apply(w, a).jobs && (id in w.jobs ==> RowStamped(w.jobs[id]))
    requires a.Enqueue? || a.Recover? || a.Delete?
    ensures RowStamped(Apply(w, a).jobs[id])
  {
  }

  lemma {:induction false} LeaseStaysStamped(w: World, a: Action, id: string)
    requires Enabled(w, a) && id in Apply(w, a).jobs && (id in w.jobs ==> RowStamped(w.jobs[id]))
    requires a.Claim? || a.Finish? || a.Requeue?
    ensures RowStamped(Apply(w, a).jobs[id])
  {
  }

  lemma {:induction false} StepStamped(w: World, w': World)
    requires Follows(w, w') && Stamped(w.jobs)
    ensures Stamped(w'.jobs)
  {
    var a :| Enabled(w, a) && Apply(w, a) == w';
    forall id | id in w'.jobs ensures RowStamped(w'.jobs[id]) {
      RowStaysStamped(w, a, id);
    }
  }

  lemma {:induction false} AlwaysStamped(worlds: seq<World>, n: nat)
    requires IsRun(worlds) && n < |worlds|
    ensures Stamped(worlds[n].jobs)
  {
    if n > 0 {
      AlwaysStamped(worlds, n - 1);
      StepStamped(worlds[n - 1], worlds[n]);
    }
  }

  /** The instant that a stored text stands for. */
  ghost function When(s: string): (m: nat)
    requires IsStamp(s)
    ensures forall t :: Stamp(s, t) ==> m == Micros(t)
  {
    var t :| Stamp(s, t);
    assert forall u :: Stamp(s, u) ==> u == t by {
      forall u | Stamp(s, u) ensures u == t { IsoOrder(u, t); }
    }
    Micros(t)
  }

  lemma {:induction false} WhenOrder(a: string, b: string)
    requires IsStamp(a) && IsStamp(b)
    ensures TextLess(a, b) <==> When(a) < When(b)
    ensures a == b <==> When(a) == When(b)
  {
    var s :| Stamp(a, s);
    var t :| Stamp(b, t);
    IsoOrder(s, t);
    MicrosOrder(s, t);
  }

  /** In every run the claim takes, among the queued jobs whose time has come, the one first by
      (available_at, created_at, id) as instants. */
  lemma {:induction false} ClaimTakesEarliest(worlds: seq<World>, n: nat, at: string, id: string, other: string)
    requires IsRun(worlds) && n < |worlds| && IsStamp(at)
    requires FirstOf(worlds[n].jobs, Due(worlds[n].jobs, at, {}), id)
    requires other in worlds[n].jobs
    ensures var j, k := worlds[n].jobs[id], worlds[n].jobs[other];
            && RowStamped(j) && RowStamped(k)
            && j.state == Queued && When(j.availableAt) <= When(at)
            && (k.state == Queued && When(k.availableAt) <= When(at) && other != id ==>
                  || When(j.availableAt) < When(k.availableAt)
                  || (When(j.availableAt) == When(k.availableAt) && When(j.createdAt) < When(k.createdAt))
                  || (When(j.availableAt) == When(k.availableAt) && When(j.createdAt) == When(k.createdAt)
                      && TextLess(id, other)))
  {
    AlwaysStamped(worlds, n);
    var j, k := worlds[n].jobs[id], worlds[n].jobs[other];
    assert RowStamped(j) && RowStamped(k);
    WhenOrder(at, j.availableAt);
    WhenOrder(at, k.availableAt);
    WhenOrder(j.availableAt, k.availableAt);
    WhenOrder(j.createdAt, k.createdAt);
    assert id in Due(worlds[n].jobs, at, {});
    assert k.state == Queued && When(k.availableAt) <= When(at) ==> other in Due(worlds[n].jobs, at, {});
  }

  /** In every run stale recovery takes exactly the running jobs claimed at or before the cut-off. */
  lemma {:induction false} RecoversExactlyStale(worlds: seq<World>, n: nat, before: string, id: string)
    requires IsRun(worlds) && n < |worlds| && IsStamp(before) && id in worlds[n].jobs
    ensures var j := worlds[n].jobs[id];
            && (j.state == Running ==> j.claimedAt.Some? && IsStamp(j.claimedAt.value))
            && (id in Stale(worlds[n].jobs, before) <==>
                  j.state == Running && When(j.claimedAt.value) <= When(before))
  {
    RunKeeps(worlds, n);
    AlwaysStamped(worlds, n);
    var j := worlds[n].jobs[id];
    assert JobOk(worlds[n].log, id, j) && RowStamped(j);
    if j.state == Running {
      WhenOrder(before, j.claimedAt.value);
    }
  }

  // ---- Not before its time ----

  /** The event gives the job a new time: a requeue or a recovery. */
  predicate Renews(e: Event, id: string) {
    || ((e.GivenBack? || e.Reopened?) && e.id == id)
    || (e.LeasesRecovered? && id in e.leases)
  }

  /** A step leaves the time of a row as it is, or writes an event that renews it. */
  lemma {:induction false} StepTime(w: World, a: Action, id: string)
    requires Enabled(w, a) && id in w.used && id in Apply(w, a).jobs
    ensures var w' := Apply(w, a);
            && id in w.jobs && id in w'.used && |w.log| <= |w'.log| <= |w.log| + 1 && w'.log[..|w.log|] == w.log
            && (w'.jobs[id].availableAt == w.jobs[id].availableAt
                || (|w'.log| == |w.log| + 1 && Renews(w'.log[|w.log|], id)))
  {
    if a.Recover? { RecoverTime(w, a, id); } else { OtherTime(w, a, id); }
  }

  lemma {:induction false} RecoverTime(w: World, a: Action, id: string)
    requires Enabled(w, a) && a.Recover? && id in w.used && id in Apply(w, a).jobs
    ensures var w' := Apply(w, a);
            && id in w.jobs && id in w'.used && |w'.log| == |w.log| + 1 && w'.log[..|w.log|] == w.log
            && (w'.jobs[id].availableAt == w.jobs[id].availableAt || Renews(w'.log[|w.log|], id))
  {
  }

  lemma {:induction false} OtherTime(w: World, a: Action, id: string)
    requires Enabled(w, a) && !a.Recover? && id in w.used && id in Apply(w, a).jobs
    ensures var w' := Apply(w, a);
            && id in w.jobs && id in w'.used && |w.log| <= |w'.log| <= |w.log| + 1 && w'.log[..|w.log|] == w.log
            && (w'.jobs[id].availableAt == w.jobs[id].availableAt
                || (|w'.log| == |w.log| + 1 && Renews(w'.log[|w.log|], id)))
  {
  }

  /** An event from the `from`-th on renews the job's time. */
  ghost predicate RenewedSince(log: seq<Event>, from: nat, id: string) {
    exists i :: from <= i < |log| && Renews(log[i], id)
  }

  /** The log goes on from `w` to `w'`, and the time of the row stays or is renewed. */
  ghost predicate TimeKept(w: World, w': World, id: string) {
    && id in w.jobs && id in w'.jobs && id in w'.used && |w.log| <= |w'.log| && w'.log[..|w.log|] == w.log
    && (w'.jobs[id].availableAt == w.jobs[id].availableAt || RenewedSince(w'.log, |w.log|, id))
  }

  lemma {:induction false} StepTimeKept(w: World, w': World, id: string)
    requires Follows(w, w') && id in w.used && id in w'.jobs
    ensures TimeKept(w, w', id)
  {
    var a :| Enabled(w, a) && Apply(w, a) == w';
    StepTime(w, a, id);
  }

  lemma {:induction false} TimeKeptOn(u: World, w: World, w': World, id: string)
    requires id in w.jobs && id in w'.jobs && TimeKept(u, w, id) && TimeKept(w, w', id)
    ensures TimeKept(u, w', id)
  {
    assert w'.log[..|u.log|] == w'.log[..|w.log|][..|u.log|];
    if RenewedSince(w.log, |u.log|, id) {
      var i :| |u.log| <= i < |w.log| && Renews(w.log[i], id);
      assert w'.log[i] == w'.log[..|w.log|][i];
    }
  }

  /** A step keeps the id used, and the row as long as it is there. */
  ghost predicate RowKept(w: World, w': World, id: string) {
    id in w.used ==> id in w'.used && (id in w'.jobs ==> TimeKept(w, w', id) && LeaseKept(w, w', id))
  }

  /** The same for all steps between the m-th world and the n-th. */
  ghost predicate RowKeptFrom(worlds: seq<World>, m: nat, n: nat, id: string)
    requires n < |worlds|
  {
    forall i, j {:trigger worlds[i], worlds[j]} :: m <= i && j == i + 1 && j <= n ==> RowKept(worlds[i], worlds[j], id)
  }

  lemma {:induction false} StepRowKept(w: World, w': World, id: string)
    requires Follows(w, w')
    ensures RowKept(w, w', id)
  {
    if id in w.used {
      StepUsed(w, w', id);
      if id in w'.jobs {
        StepTimeKept(w, w', id);
        StepLease(w, w', id);
      }
    }
  }

  lemma {:induction false} RunKeepsRow(worlds: seq<World>, m: nat, n: nat, id: string)
    requires IsRun(worlds) && m <= n < |worlds|
    ensures RowKeptFrom(worlds, m, n, id)
  {
    forall i, j | m <= i && j == i + 1 && j <= n ensures RowKept(worlds[i], worlds[j], id) {
      StepRowKept(worlds[i], worlds[j], id);
    }
  }

  lemma {:induction false} UsedStays(worlds: seq<World>, m: nat, n: nat, id: string)
    requires m <= n < |worlds| && RowKeptFrom(worlds, m, n, id) && id in worlds[m].used
    ensures id in worlds[n].used
    decreases n
  {
    if m < n {
      UsedStays(worlds, m, n - 1, id);
      assert RowKept(worlds[n - 1], worlds[n], id);
    }
  }

  lemma {:induction false} TimeStays(worlds: seq<World>, m: nat, n: nat, id: string)
    requires m <= n < |worlds| && RowKeptFrom(worlds, m, n, id) && id in worlds[m].used && id in worlds[n].jobs
    ensures id in worlds[m].jobs && TimeKept(worlds[m], worlds[n], id)
    decreases n
  {
    if m < n {
      UsedStays(worlds, m, n - 1, id);
      assert RowKept(worlds[n - 1], worlds[n], id);
      TimeStays(worlds, m, n - 1, id);
      TimeKeptOn(worlds[m], worlds[n - 1], worlds[n], id);
    } else {
      SameWorld(worlds[m], id);
    }
  }

  lemma {:induction false} SameWorld(w: World, id: string)
    requires id in w.jobs && id in w.used
    ensures TimeKept(w, w, id)
  {
  }

  lemma {:induction false} StepUsed(w: World, w': World, id: string)
    requires Follows(w, w') && id in w.used
    ensures id in w'.used
  {
  }

  /** The step gives the job the time `a.available`. */
  ghost predicate Schedules(w: World, a: Action) {
    Enabled(w, a) && (a.Enqueue? || a.Requeue?) && Apply(w, a) != w
  }

  lemma {:induction false} Scheduled(w: World, a: Action)
    requires Schedules(w, a) && Inv(w)
    ensures a.id in Apply(w, a).jobs && Apply(w, a).jobs[a.id].availableAt == a.available
  {
  }

  /** A job that was added or requeued for an instant is granted at no instant before, unless it was
      requeued or recovered in between. */
  lemma {:induction false} NotBeforeItsTime(worlds: seq<World>, m: nat, n: nat, a: Action, claim: Action)
    requires IsRun(worlds) && m < n < |worlds|
    requires Schedules(worlds[m], a) && Apply(worlds[m], a) == worlds[m + 1]
    requires claim.Claim? && claim.id == a.id && Enabled(worlds[n], claim)
    ensures IsStamp(claim.at) && IsStamp(a.available)
    ensures When(a.available) <= When(claim.at) || RenewedSince(worlds[n].log, |worlds[m + 1].log|, a.id)
  {
    RunKeeps(worlds, m);
    Scheduled(worlds[m], a);
    RowsAreUsed(worlds, m + 1, a.id);
    RunKeepsRow(worlds, m + 1, n, a.id);
    TimeStays(worlds, m + 1, n, a.id);
    WhenOrder(claim.at, a.available);
    assert a.id in Due(worlds[n].jobs, claim.at, claim.locked);
  }

  // ---- The claim instant ----

  /** The row that runs under the attempt was claimed when it already ran under it, and attempts grow. */
  ghost predicate LeaseKept(w: World, w': World, id: string) {
    && id in w.jobs && id in w'.jobs && w.jobs[id].attempt <= w'.jobs[id].attempt
    && (w'.jobs[id].state == Running && w'.jobs[id].attempt == w.jobs[id].attempt ==>
          w.jobs[id].state == Running && w'.jobs[id].claimedAt == w.jobs[id].claimedAt)
  }

  lemma {:induction false} ActionLease(w: World, a: Action, id: string)
    requires Enabled(w, a) && id in w.jobs && id in w.used && id in Apply(w, a).jobs
    ensures LeaseKept(w, Apply(w, a), id)
  {
  }

  lemma {:induction false} StepLease(w: World, w': World, id: string)
    requires Follows(w, w') && id in w.jobs && id in w.used && id in w'.jobs
    ensures LeaseKept(w, w', id)
  {
    var a :| Enabled(w, a) && Apply(w, a) == w';
    ActionLease(w, a, id);
  }

  lemma {:induction false} LeaseKeptOn(u: World, w: World, w': World, id: string)
    requires LeaseKept(u, w, id) && LeaseKept(w, w', id)
    ensures LeaseKept(u, w', id)
  {
  }

  lemma {:induction false} LeaseStays(worlds: seq<World>, m: nat, n: nat, id: string)
    requires m <= n < |worlds| && RowKeptFrom(worlds, m, n, id)
    requires id in worlds[m].jobs && id in worlds[m].used && id in worlds[n].jobs
    ensures LeaseKept(worlds[m], worlds[n], id)
    decreases n
  {
    if m < n {
      UsedStays(worlds, m, n - 1, id);
      assert RowKept(worlds[n - 1], worlds[n], id);
      LeaseStays(worlds, m, n - 1, id);
      LeaseKeptOn(worlds[m], worlds[n - 1], worlds[n], id);
    }
  }

  /** A lease granted at one instant is recovered by exactly the cut-offs at or after that instant, as long
      as it runs. */
  lemma {:induction false} RecoveredByGrantTime(worlds: seq<World>, m: nat, n: nat, claim: Action, before: string)
    requires IsRun(worlds) && m < n < |worlds| && IsStamp(before)
    requires claim.Claim? && Enabled(worlds[m], claim) && Apply(worlds[m], claim) == worlds[m + 1]
    requires claim.id in worlds[n].jobs && worlds[n].jobs[claim.id].state == Running
    requires worlds[n].jobs[claim.id].attempt == worlds[m + 1].jobs[claim.id].attempt
    ensures IsStamp(claim.at)
    ensures claim.id in Stale(worlds[n].jobs, before) <==> When(claim.at) <= When(before)
  {
    RowsAreUsed(worlds, m + 1, claim.id);
    RunKeepsRow(worlds, m + 1, n, claim.id);
    LeaseStays(worlds, m + 1, n, claim.id);
    RecoversExactlyStale(worlds, n, before, claim.id);
  }
}
