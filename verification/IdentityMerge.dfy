/**
 Merging an anonymous identity into a signed-in one (knowledge/auth/merge.py) over the repository
 updates of knowledge/auth/repository.py.

 Every repository call may raise or the process may die there, before or after its effect.
 */
module IdentityMerge {
  import opened Common

  type Counts = map<string, int>

  const CONVERSATIONS := "conversations"

  datatype JobStatus = Pending | Running | Completed | Failed

  datatype Job = Job(status: JobStatus, result: Counts, error: Option<string>)

  datatype Device = Device(disabled: bool, mergedTo: Option<string>)

  datatype Audit = MergeCompleted(actor: string, details: Counts)

  /** `owners` is `web_conversation_owners`; jobs are unique by source and target. */
  datatype Db = Db(
    owners: map<string, string>, devices: map<string, Device>, users: set<string>, jobs: map<(string, string), Job>,
    audit: seq<Audit>)

  // ---- The repository's updates ----

  function Owned(owners: map<string, string>, owner: string): set<string> {
    set c | c in owners && owners[c] == owner
  }

  function Transferred(owners: map<string, string>, source: string, target: string): map<string, string> {
    map c | c in owners :: if owners[c] == source then target else owners[c]
  }

  /** The first bind decides; later ones only touch the row, or are refused. */
  function Bound(owners: map<string, string>, conversation: string, owner: string): map<string, string> {
    if conversation in owners then owners else owners[conversation := owner]
  }

  function Disabled(devices: map<string, Device>, owner: string, target: string): map<string, Device> {
    if owner in devices && !devices[owner].disabled then devices[owner := Device(true, Some(target))] else devices
  }

  /** The foreign keys of the job table. */
  predicate Known(db: Db, source: string, target: string) { source in db.devices && target in db.users }

  function WithJob(db: Db, source: string, target: string): Db {
    if (source, target) in db.jobs then db else db.(jobs := db.jobs[(source, target) := Job(Pending, map[], None)])
  }

  function UpdatedJob(db: Db, source: string, target: string, job: Job): Db
  {
    if (source, target) in db.jobs then db.(jobs := db.jobs[(source, target) := job]) else db
  }

  /** One row after another is transferred and counted. */
  method TransferRows(owners: map<string, string>, source: string, target: string)
    returns (r: map<string, string>, count: nat)
    ensures r == Transferred(owners, source, target) && count == |Owned(owners, source)|
  {
    r, count := owners, 0;
    var left := owners.Keys;
    assert Owned(owners, source) - owners.Keys == {};
    while left != {}
      invariant left <= owners.Keys && PartlyTransferred(owners, r, left, source, target, count)
      decreases left
    {
      var c :| c in left;
      OneTransferred(owners, r, left, source, target, count, c);
      if r[c] == source {
        r := r[c := target];
        count := count + 1;
      }
      left := left - {c};
    }
    AllTransferred(owners, r, source, target, count);
  }

  /** The rows that are not left are transferred and counted where they were the source's. */
  ghost predicate PartlyTransferred(owners: map<string, string>, r: map<string, string>, left: set<string>,
                                    source: string, target: string, count: nat)
  {
    && r.Keys == owners.Keys
    && (forall c :: c in owners ==> r[c] == if c !in left && owners[c] == source then target else owners[c])
    && count == |Owned(owners, source) - left|
  }

  lemma {:induction false} OneTransferred(owners: map<string, string>, r: map<string, string>, left: set<string>,
                                          source: string, target: string, count: nat, c: string)
    requires left <= owners.Keys && PartlyTransferred(owners, r, left, source, target, count) && c in left
    ensures r[c] == source ==> PartlyTransferred(owners, r[c := target], left - {c}, source, target, count + 1)
    ensures r[c] != source ==> PartlyTransferred(owners, r, left - {c}, source, target, count)
  {
    OneLessLeft(Owned(owners, source), left, c);
  }

  lemma {:induction false} AllTransferred(owners: map<string, string>, r: map<string, string>, source: string,
                                          target: string, count: nat)
    requires PartlyTransferred(owners, r, {}, source, target, count)
    ensures r == Transferred(owners, source, target) && count == |Owned(owners, source)|
  {
    assert Owned(owners, source) - {} == Owned(owners, source);
  }

  class UserAuthRepository {
    var db: Db

    method GetOrCreateMergeJob(source: string, target: string) returns (r: Result<Job, ()>)
      modifies this
      ensures Known(old(db), source, target) ==>
                db == WithJob(old(db), source, target) && r == Ok(db.jobs[(source, target)])
      ensures !Known(old(db), source, target) ==> db == old(db) && r == Err(())
      ensures r.Ok? <==> source in old(db).devices && target in old(db).users
      ensures r.Ok? && (source, target) in old(db).jobs ==> db == old(db) && r.value == old(db).jobs[(source, target)]
      ensures r.Ok? && (source, target) !in old(db).jobs ==>
                r.value == Job(Pending, map[], None) && db == old(db).(jobs := old(db).jobs[(source, target) := r.value])
    {
      if source !in db.devices || target !in db.users { return Err(()); }
      if (source, target) !in db.jobs { db := db.(jobs := db.jobs[(source, target) := Job(Pending, map[], None)]); }
      return Ok(db.jobs[(source, target)]);
    }

    method UpdateMergeJob(source: string, target: string, status: JobStatus, result: Counts, error: Option<string>)
      modifies this
      ensures db == UpdatedJob(old(db), source, target, Job(status, result, error))
      ensures (source, target) in old(db).jobs ==>
                db == old(db).(jobs := old(db).jobs[(source, target) := Job(status, result, error)])
      ensures (source, target) !in old(db).jobs ==> db == old(db)
    {
      if (source, target) in db.jobs {
        db := db.(jobs := db.jobs[(source, target) := Job(status, result, error)]);
      }
    }

    method TransferConversationOwners(source: string, target: string) returns (count: nat)
      modifies this
      ensures db.owners.Keys == old(db).owners.Keys
      ensures forall c :: c in db.owners ==>
                db.owners[c] == if old(db).owners[c] == source then target else old(db).owners[c]
      ensures count == |Owned(old(db).owners, source)|
      ensures db == old(db).(owners := Transferred(old(db).owners, source, target))
    {
      var owners;
      owners, count := TransferRows(db.owners, source, target);
      db := db.(owners := owners);
    }

    method DisableAnonymousDevice(owner: string, mergedTo: string)
      modifies this
      ensures db == old(db).(devices := Disabled(old(db).devices, owner, mergedTo))
      ensures owner in old(db).devices && !old(db).devices[owner].disabled ==>
                db == old(db).(devices := old(db).devices[owner := Device(true, Some(mergedTo))])
      ensures owner !in old(db).devices || old(db).devices[owner].disabled ==> db == old(db)
    {
      if owner in db.devices && !db.devices[owner].disabled {
        db := db.(devices := db.devices[owner := Device(true, Some(mergedTo))]);
      }
    }

    method AppendAuditEvent(event: Audit)
      modifies this
      ensures db == old(db).(audit := old(db).audit + [event])
    {
      db := db.(audit := db.audit + [event]);
    }

    /** `Err` is the PermissionError. */
    method BindConversationOwner(conversation: string, owner: string) returns (r: Result<string, ()>)
      modifies this
      ensures db == old(db).(owners := Bound(old(db).owners, conversation, owner))
      ensures r == if conversation in old(db).owners && old(db).owners[conversation] != owner then Err(()) else Ok(owner)
      ensures conversation in old(db).owners ==> db == old(db)
      ensures conversation !in old(db).owners ==> db == old(db).(owners := old(db).owners[conversation := owner])
    {
      if conversation in db.owners {
        return if db.owners[conversation] == owner then Ok(owner) else Err(());
      }
      db := db.(owners := db.owners[conversation := owner]);
      return Ok(owner);
    }
  }

  // ---- The merge, step by step ----

  /** What goes wrong in a call: an exception, or the end of the process. */
  datatype Fault = Fine | Raises(applied: bool) | Dies(applied: bool)

  predicate Applied(f: Fault) { f.Fine? || f.applied }

  /** The next call of a merge in progress. */
  datatype Stage = Idle | Marking | Remembering | Transferring | Disabling | Completing | Auditing | Handling

  /** A merge of `source` into `target` and what goes on around it. `first` holds the owner that each
      conversation was first bound to, `strays` the conversations bound to the source since the last
      transfer, `moved` the rows moved so far and `last` those of the last transfer. */
  datatype World = World(
    db: Db, stage: Stage, counts: Counts, first: map<string, string>, strays: set<string>, transferred: bool,
    moved: nat, last: nat)

  datatype Action =
    | Start(fault: Fault)
    | Advance(fault: Fault, memory: Counts)
    | Bind(conversation: string, owner: string)

  /** An exception in the guarded part goes to the handler; a dead process does nothing more. */
  function Next(f: Fault, next: Stage): Stage {
    match f case Fine => next case Raises(_) => Handling case Dies(_) => Idle
  }

  function StartMerge(w: World, f: Fault, s: string, t: string): World {
    if !Known(w.db, s, t) then w
    else
      var db := if Applied(f) then WithJob(w.db, s, t) else w.db;
      if f.Fine? && db.jobs[(s, t)].status != Completed then w.(db := db, stage := Marking, counts := map[])
      else w.(db := db)
  }

  function AdvanceMerge(w: World, f: Fault, memory: Counts, s: string, t: string): World {
    match w.stage
    case Idle => w
    case Marking =>
      w.(db := if Applied(f) then UpdatedJob(w.db, s, t, Job(Running, map[], None)) else w.db,
         stage := if f.Fine? then Remembering else Idle)
    case Remembering => w.(counts := memory, stage := Next(f, Transferring))
    case Transferring =>
      var n := |Owned(w.db.owners, s)|;
      var w1 := w.(stage := Next(f, Disabling), counts := w.counts[CONVERSATIONS := n]);
      if Applied(f)
      then w1.(db := w.db.(owners := Transferred(w.db.owners, s, t)), strays := {}, transferred := true,
               moved := w.moved + n, last := n)
      else w1
    case Disabling =>
      w.(db := if Applied(f) then w.db.(devices := Disabled(w.db.devices, s, t)) else w.db, stage := Next(f, Completing))
    case Completing =>
      w.(db := if Applied(f) then UpdatedJob(w.db, s, t, Job(Completed, w.counts, None)) else w.db,
         stage := Next(f, Auditing))
    case Auditing =>
      w.(db := if Applied(f) then w.db.(audit := w.db.audit + [MergeCompleted(t, w.counts)]) else w.db,
         stage := Next(f, Idle))
    case Handling =>
      w.(db := if Applied(f) then UpdatedJob(w.db, s, t, Job(Failed, map[], Some("Error"))) else w.db, stage := Idle)
  }

  function Apply(w: World, a: Action, s: string, t: string): World {
    match a
    case Start(f) => if w.stage.Idle? then StartMerge(w, f, s, t) else w
    case Advance(f, memory) => AdvanceMerge(w, f, memory, s, t)
    case Bind(c, owner) =>
      if c in w.db.owners then w
      else
        w.(db := w.db.(owners := Bound(w.db.owners, c, owner)), first := w.first[c := owner],
           strays := if owner == s then w.strays + {c} else w.strays)
  }

  function After(w: World, acts: seq<Action>, s: string, t: string): World {
    if acts == [] then w else Apply(After(w, acts[..|acts| - 1], s, t), acts[|acts| - 1], s, t)
  }

  /** Before the first attempt: no merge of this pair has completed. */
  ghost predicate Initial(w: World, s: string, t: string) {
    && s != t && w.stage.Idle? && w.first == w.db.owners && w.strays == {} && !w.transferred
    && w.moved == 0 && w.last == 0
    && ((s, t) in w.db.jobs ==> w.db.jobs[(s, t)].status != Completed)
  }

  /** All the faults of one attempt. */
  datatype Faults = Faults(
    create: Fault, mark: Fault, remember: Fault, transfer: Fault, disable: Fault, complete: Fault, audit: Fault,
    handle: Fault)

  function FaultAt(stage: Stage, f: Faults): Fault {
    match stage
    case Idle => f.create case Marking => f.mark case Remembering => f.remember case Transferring => f.transfer
    case Disabling => f.disable case Completing => f.complete case Auditing => f.audit case Handling => f.handle
  }

  function Rank(stage: Stage): nat {
    match stage
    case Marking => 7 case Remembering => 6 case Transferring => 5 case Disabling => 4 case Completing => 3
    case Auditing => 2 case Handling => 1 case Idle => 0
  }

  /** The rest of an attempt without anything in between. */
  function Finish(w: World, f: Faults, memory: Counts, s: string, t: string): World
    decreases Rank(w.stage)
  {
    if w.stage.Idle? then w else Finish(AdvanceMerge(w, FaultAt(w.stage, f), memory, s, t), f, memory, s, t)
  }

  function Attempt(w: World, f: Faults, memory: Counts, s: string, t: string): World {
    Finish(StartMerge(w, f.create, s, t), f, memory, s, t)
  }

  /** How a call of `merge` ends for its caller. */
  datatype Outcome = Returned(job: Job) | Raised | Died

  predicate JobDone(db: Db, s: string, t: string) { (s, t) in db.jobs && db.jobs[(s, t)].status == Completed }

  /** The first fault of the try statement. */
  function FirstFault(f: Faults): Fault {
    if !f.remember.Fine? then f.remember
    else if !f.transfer.Fine? then f.transfer
    else if !f.disable.Fine? then f.disable
    else if !f.complete.Fine? then f.complete
    else f.audit
  }

  /** Everything that a merge without faults does. */
  ghost predicate Merged(before: Db, after: Db, memory: Counts, s: string, t: string, job: Job) {
    var counts := memory[CONVERSATIONS := |Owned(before.owners, s)|];
    && job == Job(Completed, counts, None)
    && after.jobs == before.jobs[(s, t) := job]
    && after.owners == Transferred(before.owners, s, t)
    && after.devices == Disabled(before.devices, s, t)
    && after.audit == before.audit + [MergeCompleted(t, counts)]
    && after.users == before.users
  }

  lemma {:induction false} MergedFrom(before: Db, mid: Db, after: Db, memory: Counts, s: string, t: string, r: Outcome)
    requires mid.owners == before.owners && mid.devices == before.devices && mid.audit == before.audit
    requires mid.users == before.users && (s, t) in mid.jobs && mid.jobs == before.jobs[(s, t) := mid.jobs[(s, t)]]
    ensures r.Returned? && Merged(mid, after, memory, s, t, r.job) ==> Merged(before, after, memory, s, t, r.job)
  {
  }

  class IdentityMergeService {
    const auth: UserAuthRepository

    constructor (auth: UserAuthRepository)
      ensures this.auth == auth
    {
      this.auth := auth;
    }

    /** `merge`, with the answer of the memory repository and the faults of the calls.  `w` is any
        account of what happened before. */
    method Merge(source: string, target: string, f: Faults, memory: Counts, ghost w: World) returns (r: Outcome)
      requires w.db == auth.db && w.stage.Idle?
      modifies auth
      ensures Attempt(w, f, memory, source, target).db == auth.db
      ensures r.Returned? <==>
                && f.create.Fine? && Known(old(auth.db), source, target)
                && (JobDone(old(auth.db), source, target) || (f.mark.Fine? && FirstFault(f).Fine?))
      ensures r.Died? <==>
                || f.create.Dies?
                || (f.create.Fine? && Known(old(auth.db), source, target) && !JobDone(old(auth.db), source, target)
                    && (f.mark.Dies? || (f.mark.Fine? && (FirstFault(f).Dies? || (FirstFault(f).Raises? && f.handle.Dies?)))))
      ensures r.Returned? && JobDone(old(auth.db), source, target) ==>
                auth.db == old(auth.db) && r.job == auth.db.jobs[(source, target)]
      ensures r.Returned? && !JobDone(old(auth.db), source, target) ==>
                Merged(old(auth.db), auth.db, memory, source, target, r.job)
    {
      if !Applied(f.create) { return if f.create.Dies? then Died else Raised; }
      var job := auth.GetOrCreateMergeJob(source, target);
      if f.create.Dies? { return Died; }
      if job.Err? || !f.create.Fine? { return Raised; }
      if job.value.status == Completed { return Returned(job.value); }
      assert !JobDone(old(auth.db), source, target);
      r := Proceed(source, target, f, memory, StartMerge(w, f.create, source, target));
      ghost var before := old(auth.db);
      MergedFrom(before, WithJob(before, source, target), auth.db, memory, source, target, r);
    }

    /** What follows the first repository call. */
    method Proceed(source: string, target: string, f: Faults, memory: Counts, ghost w: World) returns (r: Outcome)
      requires w.db == auth.db && w.stage.Marking? && (source, target) in auth.db.jobs
      modifies auth
      ensures Finish(w, f, memory, source, target).db == auth.db
      ensures r.Returned? <==> f.mark.Fine? && FirstFault(f).Fine?
      ensures r.Died? <==>
                f.mark.Dies? || (f.mark.Fine? && (FirstFault(f).Dies? || (FirstFault(f).Raises? && f.handle.Dies?)))
      ensures r.Returned? ==> Merged(old(auth.db), auth.db, memory, source, target, r.job)
    {
      if Applied(f.mark) { auth.UpdateMergeJob(source, target, Running, map[], None); }
      ghost var w1 := AdvanceMerge(w, f.mark, memory, source, target);
      FinishStep(w, f, memory, source, target);
      if !f.mark.Fine? { return if f.mark.Dies? then Died else Raised; }
      ghost var running := auth.db;
      r := Guarded(source, target, f, memory, w1);
      MergedFrom(old(auth.db), running, auth.db, memory, source, target, r);
    }

    /** The try statement. */
    method Guarded(source: string, target: string, f: Faults, memory: Counts, ghost w: World) returns (r: Outcome)
      requires w.db == auth.db && w.stage.Remembering? && (source, target) in auth.db.jobs
      modifies auth
      ensures Finish(w, f, memory, source, target).db == auth.db
      ensures r.Returned? <==> FirstFault(f).Fine?
      ensures r.Died? <==> FirstFault(f).Dies? || (FirstFault(f).Raises? && f.handle.Dies?)
      ensures r.Returned? ==> Merged(old(auth.db), auth.db, memory, source, target, r.job)
    {
      ghost var w1 := AdvanceMerge(w, f.remember, memory, source, target);
      FinishStep(w, f, memory, source, target);
      if !f.remember.Fine? {
        r := Handle(f.remember, f, source, target, memory, w1);
        return;
      }
      var counts := memory[CONVERSATIONS := 0];
      if Applied(f.transfer) {
        var n := auth.TransferConversationOwners(source, target);
        counts := memory[CONVERSATIONS := n];
      }
      ghost var w2 := AdvanceMerge(w1, f.transfer, memory, source, target);
      FinishStep(w1, f, memory, source, target);
      if !f.transfer.Fine? {
        r := Handle(f.transfer, f, source, target, memory, w2);
        return;
      }
      r := Closing(source, target, f, memory, counts, w2);
    }

    /** The rest of the try statement, once the conversations are transferred. */
    method Closing(source: string, target: string, f: Faults, memory: Counts, counts: Counts, ghost w: World)
      returns (r: Outcome)
      requires w.db == auth.db && w.counts == counts && w.stage.Disabling? && (source, target) in auth.db.jobs
      requires f.remember.Fine? && f.transfer.Fine?
      modifies auth
      ensures Finish(w, f, memory, source, target).db == auth.db
      ensures r.Returned? <==> FirstFault(f).Fine?
      ensures r.Died? <==> FirstFault(f).Dies? || (FirstFault(f).Raises? && f.handle.Dies?)
      ensures r.Returned? ==>
                && r.job == Job(Completed, counts, None)
                && auth.db == old(auth.db).(jobs := old(auth.db).jobs[(source, target) := r.job],
                                            devices := Disabled(old(auth.db).devices, source, target),
                                            audit := old(auth.db).audit + [MergeCompleted(target, counts)])
    {
      if Applied(f.disable) { auth.DisableAnonymousDevice(source, target); }
      ghost var w1 := AdvanceMerge(w, f.disable, memory, source, target);
      FinishStep(w, f, memory, source, target);
      if !f.disable.Fine? {
        r := Handle(f.disable, f, source, target, memory, w1);
        return;
      }
      if Applied(f.complete) { auth.UpdateMergeJob(source, target, Completed, counts, None); }
      ghost var w2 := AdvanceMerge(w1, f.complete, memory, source, target);
      FinishStep(w1, f, memory, source, target);
      if !f.complete.Fine? {
        r := Handle(f.complete, f, source, target, memory, w2);
        return;
      }
      if Applied(f.audit) { auth.AppendAuditEvent(MergeCompleted(target, counts)); }
      ghost var w3 := AdvanceMerge(w2, f.audit, memory, source, target);
      FinishStep(w2, f, memory, source, target);
      if !f.audit.Fine? {
        r := Handle(f.audit, f, source, target, memory, w3);
        return;
      }
      return Returned(Job(Completed, counts, None));
    }

    /** The except clause, when the fault was an exception. */
    method Handle(fault: Fault, f: Faults, source: string, target: string, memory: Counts, ghost w: World)
      returns (r: Outcome)
      requires w.db == auth.db && !fault.Fine? && w.stage == Next(fault, w.stage)
      modifies auth
      ensures Finish(w, f, memory, source, target).db == auth.db
      ensures r == if fault.Dies? || f.handle.Dies? then Died else Raised
    {
      if fault.Dies? { return Died; }
      FinishStep(w, f, memory, source, target);
      if Applied(f.handle) { auth.UpdateMergeJob(source, target, Failed, map[], Some("Error")); }
      return if f.handle.Dies? then Died else Raised;
    }
  }

  lemma {:induction false} FinishStep(w: World, f: Faults, memory: Counts, s: string, t: string)
    requires !w.stage.Idle?
    ensures Finish(w, f, memory, s, t) == Finish(AdvanceMerge(w, FaultAt(w.stage, f), memory, s, t), f, memory, s, t)
  {
  }
}

/** What holds in every run of attempts, failures, process deaths and binds. */
module IdentityMergeRuns {
  import opened Common
  import opened IdentityMerge

  /** Only the source's rows change, and only to the target. */
  ghost predicate OwnersOk(first: map<string, string>, owners: map<string, string>, s: string, t: string) {
    && owners.Keys == first.Keys
    && forall c :: c in owners ==> owners[c] == first[c] || (first[c] == s && owners[c] == t)
  }

  /** The rows that were bound to the source and are the target's now. */
  function MovedRows(first: map<string, string>, owners: map<string, string>, s: string): set<string> {
    set c | c in owners && c in first && first[c] == s && owners[c] != s
  }

  predicate DeviceDone(db: Db, s: string) { s in db.devices ==> db.devices[s].disabled }

  ghost predicate CountsOk(counts: Counts, last: nat) { CONVERSATIONS in counts && counts[CONVERSATIONS] == last }

  ghost predicate RowsOk(w: World, s: string, t: string) {
    && OwnersOk(w.first, w.db.owners, s, t)
    && (w.transferred ==> Owned(w.db.owners, s) == w.strays)
    && w.moved == |MovedRows(w.first, w.db.owners, s)|
  }

  ghost predicate StageOk(w: World, s: string, t: string) {
    && (w.stage != Idle ==> (s, t) in w.db.jobs && Known(w.db, s, t))
    && (w.stage == Disabling || w.stage == Completing || w.stage == Auditing ==> w.transferred && CountsOk(w.counts, w.last))
    && (w.stage == Completing || w.stage == Auditing ==> DeviceDone(w.db, s))
    && (JobDone(w.db, s, t) ==>
          && w.transferred && DeviceDone(w.db, s) && CountsOk(w.db.jobs[(s, t)].result, w.last)
          && (w.stage == Idle || w.stage == Auditing || w.stage == Handling))
  }

  ghost predicate Inv(w: World, s: string, t: string) { s != t && RowsOk(w, s, t) && StageOk(w, s, t) }

  lemma {:induction false} SetSum(a: set<string>, b: set<string>)
    requires a !! b
    ensures |a + b| == |a| + |b|
  {
  }

  /** A transfer moves exactly the source's rows. */
  lemma {:induction false} TransferFacts(first: map<string, string>, owners: map<string, string>, s: string, t: string)
    requires s != t && OwnersOk(first, owners, s, t)
    ensures var owners' := Transferred(owners, s, t);
            && OwnersOk(first, owners', s, t) && Owned(owners', s) == {}
            && |MovedRows(first, owners', s)| == |MovedRows(first, owners, s)| + |Owned(owners, s)|
  {
    var owners' := Transferred(owners, s, t);
    assert MovedRows(first, owners', s) == MovedRows(first, owners, s) + Owned(owners, s);
    SetSum(MovedRows(first, owners, s), Owned(owners, s));
  }

  lemma {:induction false} BindRows(first: map<string, string>, owners: map<string, string>, s: string, t: string,
                                    c: string, owner: string)
    requires s != t && OwnersOk(first, owners, s, t) && c !in owners
    ensures OwnersOk(first[c := owner], owners[c := owner], s, t)
    ensures Owned(owners[c := owner], s) == Owned(owners, s) + if owner == s then {c} else {}
    ensures MovedRows(first[c := owner], owners[c := owner], s) == MovedRows(first, owners, s)
  {
  }

  lemma {:induction false} TransferRowsOk(w: World, f: Fault, memory: Counts, s: string, t: string)
    requires s != t && RowsOk(w, s, t) && w.stage.Transferring?
    ensures RowsOk(AdvanceMerge(w, f, memory, s, t), s, t)
  {
    TransferFacts(w.first, w.db.owners, s, t);
  }

  ghost predicate SameRows(w: World, w': World) {
    && w'.db.owners == w.db.owners && w'.first == w.first && w'.strays == w.strays
    && w'.transferred == w.transferred && w'.moved == w.moved && w'.last == w.last
  }

  /** The other calls leave the rows alone. */
  lemma {:induction false} AdvanceKeepsOwners(w: World, f: Fault, memory: Counts, s: string, t: string)
    requires !w.stage.Transferring?
    ensures SameRows(w, AdvanceMerge(w, f, memory, s, t))
  {
    if w.stage.Marking? || w.stage.Completing? || w.stage.Handling? {
      JobKeepsOwners(w, f, memory, s, t);
    }
  }

  lemma {:induction false} JobKeepsOwners(w: World, f: Fault, memory: Counts, s: string, t: string)
    requires w.stage.Marking? || w.stage.Completing? || w.stage.Handling?
    ensures SameRows(w, AdvanceMerge(w, f, memory, s, t))
  {
  }

  lemma {:induction false} AdvanceRows(w: World, f: Fault, memory: Counts, s: string, t: string)
    requires Inv(w, s, t)
    ensures RowsOk(AdvanceMerge(w, f, memory, s, t), s, t)
  {
    if w.stage.Transferring? {
      TransferRowsOk(w, f, memory, s, t);
    } else {
      AdvanceKeepsOwners(w, f, memory, s, t);
    }
  }

  lemma {:induction false} EarlyStage(w: World, f: Fault, memory: Counts, s: string, t: string)
    requires Inv(w, s, t) && (w.stage.Marking? || w.stage.Remembering? || w.stage.Transferring? || w.stage.Idle?)
    ensures StageOk(AdvanceMerge(w, f, memory, s, t), s, t)
  {
  }

  lemma {:induction false} LateStage(w: World, f: Fault, memory: Counts, s: string, t: string)
    requires Inv(w, s, t) && (w.stage.Disabling? || w.stage.Completing? || w.stage.Auditing? || w.stage.Handling?)
    ensures StageOk(AdvanceMerge(w, f, memory, s, t), s, t)
  {
  }

  lemma {:induction false} AdvanceStage(w: World, f: Fault, memory: Counts, s: string, t: string)
    requires Inv(w, s, t)
    ensures StageOk(AdvanceMerge(w, f, memory, s, t), s, t)
  {
    if w.stage.Disabling? || w.stage.Completing? || w.stage.Auditing? || w.stage.Handling? {
      LateStage(w, f, memory, s, t);
    } else {
      EarlyStage(w, f, memory, s, t);
    }
  }

  lemma {:induction false} StartKeepsRows(w: World, f: Fault, s: string, t: string)
    requires RowsOk(w, s, t)
    ensures RowsOk(StartMerge(w, f, s, t), s, t)
  {
    assert SameRows(w, StartMerge(w, f, s, t));
  }

  lemma {:induction false} StartKeepsStage(w: World, f: Fault, s: string, t: string)
    requires StageOk(w, s, t) && w.stage.Idle?
    ensures StageOk(StartMerge(w, f, s, t), s, t)
  {
  }

  lemma {:induction false} StartKeeps(w: World, f: Fault, s: string, t: string)
    requires Inv(w, s, t) && w.stage.Idle?
    ensures Inv(StartMerge(w, f, s, t), s, t)
  {
    StartKeepsRows(w, f, s, t);
    StartKeepsStage(w, f, s, t);
  }

  lemma {:induction false} BindKeeps(w: World, c: string, owner: string, s: string, t: string)
    requires Inv(w, s, t)
    ensures Inv(Apply(w, Bind(c, owner), s, t), s, t)
  {
    if c !in w.db.owners { BindRows(w.first, w.db.owners, s, t, c, owner); }
  }

  lemma {:induction false} StepKeeps(w: World, a: Action, s: string, t: string)
    requires Inv(w, s, t)
    ensures Inv(Apply(w, a, s, t), s, t)
  {
    match a
    case Start(f) => if w.stage.Idle? { StartKeeps(w, f, s, t); }
    case Advance(f, memory) =>
      AdvanceRows(w, f, memory, s, t);
      AdvanceStage(w, f, memory, s, t);
    case Bind(c, owner) => BindKeeps(w, c, owner, s, t);
  }

  lemma {:induction false} RunKeeps(w: World, acts: seq<Action>, s: string, t: string)
    requires Initial(w, s, t)
    ensures Inv(After(w, acts, s, t), s, t)
  {
    if acts == [] {
      assert MovedRows(w.first, w.db.owners, s) == {};
    } else {
      RunKeeps(w, acts[..|acts| - 1], s, t);
      StepKeeps(After(w, acts[..|acts| - 1], s, t), acts[|acts| - 1], s, t);
    }
  }

  // ---- Theorems over every run ----

  /** No conversation is lost or created by merging; only the source's rows change, and only to the
      target; and the counts of all transfers add up to the rows that moved. */
  lemma {:induction false} ConversationsConserved(w: World, acts: seq<Action>, s: string, t: string)
    requires Initial(w, s, t)
    ensures var w' := After(w, acts, s, t);
            && OwnersOk(w'.first, w'.db.owners, s, t) && |w'.db.owners| == |w'.first|
            && w'.moved == |MovedRows(w'.first, w'.db.owners, s)|
  {
    RunKeeps(w, acts, s, t);
    var w' := After(w, acts, s, t);
    assert |w'.db.owners| == |w'.db.owners.Keys| && |w'.first| == |w'.first.Keys|;
  }

  /** Once the job is completed, after whatever failures, the source owns exactly what was bound to it
      since the last transfer; when that is nothing, ownership is that of one clean transfer. */
  lemma {:induction false} EndsLikeCleanRun(w: World, acts: seq<Action>, s: string, t: string)
    requires Initial(w, s, t) && JobDone(After(w, acts, s, t).db, s, t)
    ensures var w' := After(w, acts, s, t);
            && Owned(w'.db.owners, s) == w'.strays
            && (w'.strays == {} ==> w'.db.owners == Transferred(w'.first, s, t))
  {
    RunKeeps(w, acts, s, t);
    var w' := After(w, acts, s, t);
    if w'.strays == {} {
      forall c | c in w'.db.owners ensures w'.db.owners[c] == Transferred(w'.first, s, t)[c] {
        assert c !in Owned(w'.db.owners, s);
      }
    }
  }

  const CLEAN := Faults(Fine, Fine, Fine, Fine, Fine, Fine, Fine, Fine)

  lemma {:induction false} CleanTail(w: World, memory: Counts, s: string, t: string)
    requires w.stage.Disabling? && (s, t) in w.db.jobs
    ensures var done := Finish(w, CLEAN, memory, s, t);
            && done.stage.Idle? && (s, t) in done.db.jobs && done.db.jobs[(s, t)] == Job(Completed, w.counts, None)
            && done.db.owners == w.db.owners && done.first == w.first && done.moved == w.moved && done.last == w.last
  {
    var w1 := w.(db := w.db.(devices := Disabled(w.db.devices, s, t)), stage := Completing);
    var w2 := w1.(db := UpdatedJob(w1.db, s, t, Job(Completed, w1.counts, None)), stage := Auditing);
    FinishStep(w, CLEAN, memory, s, t);
    assert AdvanceMerge(w, Fine, memory, s, t) == w1;
    FinishStep(w1, CLEAN, memory, s, t);
    assert AdvanceMerge(w1, Fine, memory, s, t) == w2;
    FinishStep(w2, CLEAN, memory, s, t);
  }

  lemma {:induction false} CleanHead(w: World, memory: Counts, s: string, t: string)
    requires w.stage.Idle? && Known(w.db, s, t) && !JobDone(w.db, s, t)
    ensures var n := |Owned(w.db.owners, s)|;
            var done := Attempt(w, CLEAN, memory, s, t);
            && done.stage.Idle? && JobDone(done.db, s, t) && CountsOk(done.db.jobs[(s, t)].result, n)
            && done.db.owners == Transferred(w.db.owners, s, t) && done.first == w.first
            && done.moved == w.moved + n && done.last == n
  {
    var w1 := StartMerge(w, Fine, s, t);
    var w2 := AdvanceMerge(w1, Fine, memory, s, t);
    var w3 := AdvanceMerge(w2, Fine, memory, s, t);
    var w4 := AdvanceMerge(w3, Fine, memory, s, t);
    FinishStep(w1, CLEAN, memory, s, t);
    FinishStep(w2, CLEAN, memory, s, t);
    FinishStep(w3, CLEAN, memory, s, t);
    CleanTail(w4, memory, s, t);
  }

  lemma {:induction false} TransferFirst(first: map<string, string>, owners: map<string, string>, s: string, t: string)
    requires OwnersOk(first, owners, s, t)
    ensures Transferred(owners, s, t) == Transferred(first, s, t)
  {
  }

  /** Whatever happened before, a clean attempt leaves nothing with the source and completes the job. */
  lemma {:induction false} CleanAttemptCompletes(w: World, acts: seq<Action>, memory: Counts, s: string, t: string)
    requires Initial(w, s, t) && After(w, acts, s, t).stage.Idle? && Known(After(w, acts, s, t).db, s, t)
    requires !JobDone(After(w, acts, s, t).db, s, t)
    ensures var w' := After(w, acts, s, t);
            var done := Attempt(w', CLEAN, memory, s, t);
            && JobDone(done.db, s, t) && done.stage.Idle?
            && Owned(done.db.owners, s) == {} && done.db.owners == Transferred(w'.first, s, t)
            && CountsOk(done.db.jobs[(s, t)].result, |Owned(w'.db.owners, s)|)
            && done.moved == w'.moved + |Owned(w'.db.owners, s)|
  {
    RunKeeps(w, acts, s, t);
    var w' := After(w, acts, s, t);
    CleanHead(w', memory, s, t);
    TransferFacts(w'.first, w'.db.owners, s, t);
    TransferFirst(w'.first, w'.db.owners, s, t);
  }

  /** A completed job is given back as it is. */
  lemma {:induction false} CompletedChangesNothing(w: World, f: Faults, memory: Counts, s: string, t: string)
    requires w.stage.Idle? && JobDone(w.db, s, t)
    ensures Attempt(w, f, memory, s, t) == w
  {
    assert WithJob(w.db, s, t) == w.db;
  }

  // ---- The device ----

  lemma {:induction false} OtherStages(w: World, f: Fault, memory: Counts, s: string, t: string)
    requires !w.stage.Disabling?
    ensures AdvanceMerge(w, f, memory, s, t).db.devices == w.db.devices
  {
    if w.stage.Marking? || w.stage.Completing? || w.stage.Handling? { JobStages(w, f, memory, s, t); }
  }

  lemma {:induction false} JobStages(w: World, f: Fault, memory: Counts, s: string, t: string)
    requires w.stage.Marking? || w.stage.Completing? || w.stage.Handling?
    ensures AdvanceMerge(w, f, memory, s, t).db.devices == w.db.devices
  {
  }

  lemma {:induction false} DisabledOnce(d: map<string, Device>, s: string, t: string, owner: string)
    ensures var d' := Disabled(d, s, t);
            && d'.Keys == d.Keys
            && (owner in d && d[owner].disabled ==> d'[owner] == d[owner])
            && (owner in d && d'[owner] != d[owner] ==> owner == s && d'[owner] == Device(true, Some(t)))
  {
  }

  lemma {:induction false} StepDevice(w: World, a: Action, s: string, t: string, owner: string)
    ensures var d, d' := w.db.devices, Apply(w, a, s, t).db.devices;
            && d'.Keys == d.Keys
            && (owner in d && d[owner].disabled ==> d'[owner] == d[owner])
            && (owner in d && d'[owner] != d[owner] ==> owner == s && d'[owner] == Device(true, Some(t)))
  {
    DisabledOnce(w.db.devices, s, t, owner);
    match a
    case Start(_) =>
    case Advance(f, memory) => if !w.stage.Disabling? { OtherStages(w, f, memory, s, t); }
    case Bind(_, _) =>
  }

  /** `disabled_at` and `merged_to_open_id` of a device are set at most once. */
  lemma {:induction false} DeviceSetOnce(w: World, acts: seq<Action>, n: nat, s: string, t: string, owner: string)
    requires n <= |acts|
    ensures var d, d' := After(w, acts[..n], s, t).db.devices, After(w, acts, s, t).db.devices;
            && d'.Keys == d.Keys
            && (owner in d && d[owner].disabled ==> d'[owner] == d[owner])
            && (owner in d && d'[owner] != d[owner] ==> owner == s && d'[owner] == Device(true, Some(t)))
    decreases |acts|
  {
    if n == |acts| {
      assert acts[..n] == acts;
    } else {
      var before := acts[..|acts| - 1];
      assert before[..n] == acts[..n];
      DeviceSetOnce(w, before, n, s, t, owner);
      StepDevice(After(w, before, s, t), acts[|acts| - 1], s, t, owner);
    }
  }

  /** When the job is completed the source's device is disabled; if it was active before the first
      attempt, it was merged into the target. */
  lemma {:induction false} CompletedDisables(w: World, acts: seq<Action>, s: string, t: string)
    requires Initial(w, s, t) && JobDone(After(w, acts, s, t).db, s, t) && s in w.db.devices
    ensures s in After(w, acts, s, t).db.devices
    ensures var d := After(w, acts, s, t).db.devices[s];
            if w.db.devices[s].disabled then d == w.db.devices[s] else d == Device(true, Some(t))
  {
    RunKeeps(w, acts, s, t);
    assert acts[..0] == [];
    DeviceSetOnce(w, acts, 0, s, t, s);
  }

  // ---- The recorded count ----

  /** A completed job records the rows of its last transfer. */
  lemma {:induction false} RecordsLastTransfer(w: World, acts: seq<Action>, s: string, t: string)
    requires Initial(w, s, t) && JobDone(After(w, acts, s, t).db, s, t)
    ensures CountsOk(After(w, acts, s, t).db.jobs[(s, t)].result, After(w, acts, s, t).last)
  {
    RunKeeps(w, acts, s, t);
  }

  /** What an attempt has done when it completed the job. */
  ghost predicate DoneFrom(w: World, done: World, n: nat, s: string, t: string) {
    && JobDone(done.db, s, t) && CountsOk(done.db.jobs[(s, t)].result, n)
    && done.moved == w.moved + n && done.last == n && done.first == w.first
  }

  lemma {:induction false} DoneAfterTransfer(w: World, f: Faults, memory: Counts, s: string, t: string)
    requires w.stage.Disabling? && (s, t) in w.db.jobs && !JobDone(w.db, s, t) && CountsOk(w.counts, w.last)
    ensures var done := Finish(w, f, memory, s, t);
            JobDone(done.db, s, t) ==>
              && CountsOk(done.db.jobs[(s, t)].result, w.last)
              && done.moved == w.moved && done.last == w.last && done.first == w.first
  {
    var w1 := AdvanceMerge(w, f.disable, memory, s, t);
    FinishStep(w, f, memory, s, t);
    if f.disable.Fine? {
      var w2 := AdvanceMerge(w1, f.complete, memory, s, t);
      FinishStep(w1, f, memory, s, t);
      if f.complete.Fine? {
        FinishStep(w2, f, memory, s, t);
        DoneWhenHandled(AdvanceMerge(w2, f.audit, memory, s, t), f, memory, s, t);
      } else {
        DoneWhenHandled(w2, f, memory, s, t);
      }
    } else {
      DoneWhenHandled(w1, f, memory, s, t);
    }
  }

  /** The handler never completes a job. */
  lemma {:induction false} DoneWhenHandled(w: World, f: Faults, memory: Counts, s: string, t: string)
    requires w.stage.Handling? || w.stage.Idle?
    ensures var done := Finish(w, f, memory, s, t);
            && (JobDone(done.db, s, t) ==> JobDone(w.db, s, t) && done.db.jobs == w.db.jobs)
            && (done.db.jobs == w.db.jobs || !JobDone(done.db, s, t))
            && done.db.owners == w.db.owners && done.db.devices == w.db.devices
            && done.moved == w.moved && done.last == w.last && done.first == w.first
  {
    if w.stage.Handling? { FinishStep(w, f, memory, s, t); }
  }

  /** An attempt that completes the job, whatever went wrong in it, transferred the rows that the source
      had before it, and recorded their number. */
  lemma {:induction false} DoneByAttempt(w: World, f: Faults, memory: Counts, s: string, t: string)
    requires w.stage.Idle? && !JobDone(w.db, s, t) && JobDone(Attempt(w, f, memory, s, t).db, s, t)
    ensures DoneFrom(w, Attempt(w, f, memory, s, t), |Owned(w.db.owners, s)|, s, t)
  {
    var w1 := StartMerge(w, f.create, s, t);
    assert w1.stage.Marking?;
    var w2 := AdvanceMerge(w1, f.mark, memory, s, t);
    FinishStep(w1, f, memory, s, t);
    assert w2.stage.Remembering?;
    DoneFromTry(w2, f, memory, s, t);
  }

  lemma {:induction false} DoneFromTry(w: World, f: Faults, memory: Counts, s: string, t: string)
    requires w.stage.Remembering? && (s, t) in w.db.jobs && !JobDone(w.db, s, t)
    ensures var done := Finish(w, f, memory, s, t);
            JobDone(done.db, s, t) ==> DoneFrom(w, done, |Owned(w.db.owners, s)|, s, t)
  {
    var w1 := AdvanceMerge(w, f.remember, memory, s, t);
    FinishStep(w, f, memory, s, t);
    if f.remember.Fine? {
      var w2 := AdvanceMerge(w1, f.transfer, memory, s, t);
      FinishStep(w1, f, memory, s, t);
      if f.transfer.Fine? {
        DoneAfterTransfer(w2, f, memory, s, t);
      } else {
        DoneWhenHandled(w2, f, memory, s, t);
      }
    } else {
      DoneWhenHandled(w1, f, memory, s, t);
    }
  }

  /** The attempt that completes the job, after any failures, records all the conversations that were
      ever moved exactly when none had been moved before it. */
  lemma {:induction false} RecordsAllExactly(w: World, acts: seq<Action>, f: Faults, memory: Counts, s: string, t: string)
    requires Initial(w, s, t) && After(w, acts, s, t).stage.Idle? && !JobDone(After(w, acts, s, t).db, s, t)
    requires JobDone(Attempt(After(w, acts, s, t), f, memory, s, t).db, s, t)
    ensures var w' := After(w, acts, s, t);
            var done := Attempt(w', f, memory, s, t);
            && CONVERSATIONS in done.db.jobs[(s, t)].result
            && (done.db.jobs[(s, t)].result[CONVERSATIONS] == done.moved <==> MovedRows(w'.first, w'.db.owners, s) == {})
  {
    ConversationsConserved(w, acts, s, t);
    DoneByAttempt(After(w, acts, s, t), f, memory, s, t);
  }

  // ---- Failed although everything was done ----

  ghost predicate AllDone(db: Db, s: string) { DeviceDone(db, s) && Owned(db.owners, s) == {} }

  predicate JobFailed(db: Db, s: string, t: string) { (s, t) in db.jobs && db.jobs[(s, t)].status == Failed }

  ghost predicate FailedThoughDone(db: Db, s: string, t: string) { JobFailed(db, s, t) && AllDone(db, s) }

  /** The first exception of the try statement comes when nothing is left to do. */
  ghost predicate RaisesWhenDone(db: Db, f: Faults, s: string) {
    if !f.remember.Fine? then f.remember.Raises? && AllDone(db, s)
    else if !f.transfer.Fine? then
      f.transfer.Raises? && DeviceDone(db, s) && (f.transfer.applied || Owned(db.owners, s) == {})
    else RaisesWhenMoved(db, f, s)
  }

  ghost predicate RaisesWhenMoved(db: Db, f: Faults, s: string) {
    if !f.disable.Fine? then f.disable.Raises? && (f.disable.applied || DeviceDone(db, s))
    else if !f.complete.Fine? then f.complete.Raises?
    else f.audit.Raises?
  }

  /** When a call of `merge` leaves a failed job whose work is all done. */
  ghost predicate Ruined(db: Db, f: Faults, s: string, t: string) {
    if !Known(db, s, t) || JobDone(db, s, t) || !f.create.Fine? then FailedThoughDone(db, s, t)
    else if !f.mark.Fine? then !f.mark.applied && FailedThoughDone(db, s, t)
    else Applied(f.handle) && RaisesWhenDone(db, f, s)
  }

  /** The handler, or the end of the process. */
  lemma {:induction false} FailedWhenHandled(w: World, f: Faults, memory: Counts, s: string, t: string)
    requires (w.stage.Handling? || w.stage.Idle?) && (s, t) in w.db.jobs && !JobFailed(w.db, s, t)
    ensures FailedThoughDone(Finish(w, f, memory, s, t).db, s, t) <==>
              w.stage.Handling? && Applied(f.handle) && AllDone(w.db, s)
  {
    if w.stage.Handling? { FinishStep(w, f, memory, s, t); }
  }

  lemma {:induction false} FailedWhenCompleting(w: World, f: Faults, memory: Counts, s: string, t: string)
    requires w.stage.Completing? && (s, t) in w.db.jobs && !JobFailed(w.db, s, t) && AllDone(w.db, s)
    ensures FailedThoughDone(Finish(w, f, memory, s, t).db, s, t) <==>
              Applied(f.handle) && if f.complete.Fine? then f.audit.Raises? else f.complete.Raises?
  {
    var w1 := AdvanceMerge(w, f.complete, memory, s, t);
    FinishStep(w, f, memory, s, t);
    if f.complete.Fine? {
      FinishStep(w1, f, memory, s, t);
      FailedWhenHandled(AdvanceMerge(w1, f.audit, memory, s, t), f, memory, s, t);
    } else {
      FailedWhenHandled(w1, f, memory, s, t);
    }
  }

  lemma {:induction false} FailedWhenMoved(w: World, f: Faults, memory: Counts, s: string, t: string)
    requires w.stage.Disabling? && (s, t) in w.db.jobs && !JobFailed(w.db, s, t) && Owned(w.db.owners, s) == {}
    ensures FailedThoughDone(Finish(w, f, memory, s, t).db, s, t) <==> Applied(f.handle) && RaisesWhenMoved(w.db, f, s)
  {
    var w1 := AdvanceMerge(w, f.disable, memory, s, t);
    FinishStep(w, f, memory, s, t);
    if f.disable.Fine? {
      FailedWhenCompleting(w1, f, memory, s, t);
    } else {
      FailedWhenHandled(w1, f, memory, s, t);
    }
  }

  lemma {:induction false} FailedFromTry(w: World, f: Faults, memory: Counts, s: string, t: string)
    requires w.stage.Remembering? && (s, t) in w.db.jobs && !JobFailed(w.db, s, t) && s != t
    ensures FailedThoughDone(Finish(w, f, memory, s, t).db, s, t) <==> Applied(f.handle) && RaisesWhenDone(w.db, f, s)
  {
    var w1 := AdvanceMerge(w, f.remember, memory, s, t);
    FinishStep(w, f, memory, s, t);
    if f.remember.Fine? {
      var w2 := AdvanceMerge(w1, f.transfer, memory, s, t);
      FinishStep(w1, f, memory, s, t);
      assert Owned(Transferred(w.db.owners, s, t), s) == {};
      if f.transfer.Fine? {
        FailedWhenMoved(w2, f, memory, s, t);
      } else {
        FailedWhenHandled(w2, f, memory, s, t);
      }
    } else {
      FailedWhenHandled(w1, f, memory, s, t);
    }
  }

  /** An attempt leaves the job failed with nothing left to do exactly for these faults. */
  lemma {:induction false} FailedThoughDoneExactly(w: World, f: Faults, memory: Counts, s: string, t: string)
    requires w.stage.Idle? && s != t
    ensures FailedThoughDone(Attempt(w, f, memory, s, t).db, s, t) <==> Ruined(w.db, f, s, t)
  {
    var w1 := StartMerge(w, f.create, s, t);
    if f.create.Fine? && w1.stage.Marking? {
      var w2 := AdvanceMerge(w1, f.mark, memory, s, t);
      FinishStep(w1, f, memory, s, t);
      if f.mark.Fine? { FailedFromTry(w2, f, memory, s, t); }
    }
  }

  lemma {:induction false} AuditFails(w: World, memory: Counts, s: string, t: string)
    requires w.stage.Auditing? && (s, t) in w.db.jobs
    ensures var failed := AdvanceMerge(AdvanceMerge(w, Raises(false), memory, s, t), Fine, memory, s, t);
            && failed.stage.Idle? && (s, t) in failed.db.jobs && failed.db.jobs[(s, t)].status == Failed
            && failed.db.owners == w.db.owners && failed.db.devices == w.db.devices && failed.db.users == w.db.users
            && failed.first == w.first && failed.moved == w.moved && failed.strays == w.strays
  {
  }

  /** So a merge that did everything but could not write its audit event is marked failed, and a clean
      retry records no conversation although all of them moved. */
  lemma {:induction false} AuditFailureForgetsCount(w: World, acts: seq<Action>, memory: Counts, s: string, t: string)
    requires Initial(w, s, t) && After(w, acts, s, t).stage.Auditing? && After(w, acts, s, t).strays == {}
    ensures var w0 := After(w, acts, s, t);
            var failed := After(w, acts + [Advance(Raises(false), memory), Advance(Fine, memory)], s, t);
            var retried := Attempt(failed, CLEAN, memory, s, t);
            && failed.stage.Idle? && (s, t) in failed.db.jobs && failed.db.jobs[(s, t)].status == Failed
            && failed.db.owners == w0.db.owners && AllDone(failed.db, s)
            && JobDone(retried.db, s, t) && retried.db.owners == Transferred(w0.first, s, t)
            && CountsOk(retried.db.jobs[(s, t)].result, 0) && retried.moved == w0.moved
  {
    RunKeeps(w, acts, s, t);
    var w0 := After(w, acts, s, t);
    var acts' := acts + [Advance(Raises(false), memory)];
    var acts'' := acts + [Advance(Raises(false), memory), Advance(Fine, memory)];
    assert acts'[..|acts|] == acts && acts''[..|acts'|] == acts';
    AuditFails(w0, memory, s, t);
    CleanAttemptCompletes(w, acts'', memory, s, t);
  }

  // ---- A merge that reaches its audit event ----

  const GUEST := "guest"
  const USER := "user"
  const DIALOG := "dialog"

  /** One conversation of an active device, and no job yet. */
  function Fresh(): World {
    var owners := map[DIALOG := GUEST];
    var db := Db(owners, map[GUEST := Device(false, None)], {USER}, map[], []);
    World(db, Idle, map[], owners, {}, false, 0, 0)
  }

  const TO_AUDIT := [
    Start(Fine), Advance(Fine, map[]), Advance(Fine, map[]), Advance(Fine, map[]), Advance(Fine, map[]),
    Advance(Fine, map[])]

  lemma {:induction false} AfterOne(w: World, acts: seq<Action>, n: nat, s: string, t: string)
    requires n < |acts|
    ensures After(w, acts[..n + 1], s, t) == Apply(After(w, acts[..n], s, t), acts[n], s, t)
  {
    assert acts[..n + 1][..n] == acts[..n];
  }

  lemma {:induction false} FreshMoves()
    ensures var w := After(Fresh(), TO_AUDIT[..4], GUEST, USER);
            && w.stage.Disabling? && (GUEST, USER) in w.db.jobs && w.moved == 1 && w.last == 1 && w.strays == {}
  {
    assert TO_AUDIT[..0] == [];
    AfterOne(Fresh(), TO_AUDIT, 0, GUEST, USER);
    AfterOne(Fresh(), TO_AUDIT, 1, GUEST, USER);
    AfterOne(Fresh(), TO_AUDIT, 2, GUEST, USER);
    AfterOne(Fresh(), TO_AUDIT, 3, GUEST, USER);
    assert Owned(Fresh().db.owners, GUEST) == {DIALOG};
  }

  lemma {:induction false} AuditReached()
    ensures Initial(Fresh(), GUEST, USER)
    ensures var w := After(Fresh(), TO_AUDIT, GUEST, USER); w.stage.Auditing? && w.strays == {} && w.moved == 1
  {
    FreshMoves();
    AfterOne(Fresh(), TO_AUDIT, 4, GUEST, USER);
    AfterOne(Fresh(), TO_AUDIT, 5, GUEST, USER);
    assert TO_AUDIT[..6] == TO_AUDIT;
  }

  /** A run in which the premises of `AuditFailureForgetsCount` hold: a failed audit event makes the retry
      record no conversation instead of one. */
  lemma {:induction false} CountForgotten()
    ensures var failed := After(Fresh(), TO_AUDIT + [Advance(Raises(false), map[]), Advance(Fine, map[])], GUEST, USER);
            var retried := Attempt(failed, CLEAN, map[], GUEST, USER);
            && JobFailed(failed.db, GUEST, USER) && AllDone(failed.db, GUEST)
            && JobDone(retried.db, GUEST, USER) && retried.moved == 1
            && CountsOk(retried.db.jobs[(GUEST, USER)].result, 0)
  {
    AuditReached();
    AuditFailureForgetsCount(Fresh(), TO_AUDIT, map[], GUEST, USER);
  }
}
