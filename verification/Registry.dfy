/**
 The retrieval-pipeline cache of knowledge/agent_runtime/pipeline_registry.py.

 Every `with self._lock` block is one atomic step on `Shared`; pipelines are built between
 steps.  The class holds the guarded fields and does each block in place; the step system
 `World` lets any number of `get`, `refresh` and `invalidate` calls interleave those blocks.
 */
module Registry {
  import opened Common

  datatype Key = Key(app: string, domain: string)

  /** A built pipeline.  `began` is the position in the world's log at which its build began and
      `builder` the call that ran the build: together they stand for the object's identity. */
  datatype Pipeline = Pipeline(key: Key, began: nat, builder: nat)

  datatype Warm = Warming | Available | Unavailable

  datatype Shared = Shared(pipelines: map<Key, Pipeline>, generation: nat, warm: Warm)

  /** What one `refresh` or `invalidate` call selects. */
  datatype Scope = Everything | WholeApp(app: string) | OneKey(key: Key)

  function NonBlank(text: Option<string>): (r: Option<string>)
    ensures r.Some? ==> r.value != ""
  {
    if text.Some? && Strip(text.value) != "" then Some(Strip(text.value)) else None
  }

  function DomainName(domain: Option<string>): string {
    if domain.Some? then domain.value else ""
  }

  function ScopeFrom(app: Option<string>, given: bool, domain: Option<string>): Scope {
    if app.None? then Everything
    else if !given then WholeApp(app.value)
    else OneKey(Key(app.value, DomainName(domain)))
  }

  /** The arguments' normalisation: a blank app selects everything, an absent domain the whole
      app, a blank domain the app's domainless key. */
  function ScopeOf(app: Option<string>, domain: Option<string>): Scope {
    ScopeFrom(NonBlank(app), domain.Some?, NonBlank(domain))
  }

  function KeyFrom(app: Option<string>, domain: Option<string>): Option<Key> {
    if app.None? then None else Some(Key(app.value, DomainName(domain)))
  }

  /** The cache key of `get`, or None where it raises ValueError. */
  function KeyOf(app: string, domain: Option<string>): Option<Key> {
    KeyFrom(NonBlank(Some(app)), NonBlank(domain))
  }

  predicate Covers(scope: Scope, key: Key) {
    match scope
    case Everything => true
    case WholeApp(app) => key.app == app
    case OneKey(k) => key == k
  }

  /** The arguments name the key: a missing or blank app names all keys, a missing domain all keys of the
      app, a blank domain the app's key without a domain. */
  ghost predicate Named(app: Option<string>, domain: Option<string>, key: Key) {
    || app.None? || Strip(app.value) == ""
    || (key.app == Strip(app.value)
        && (domain.None? || key.domain == Strip(domain.value)))
  }

  lemma {:induction false} NamedIsCovered(app: Option<string>, domain: Option<string>, key: Key)
    ensures Covers(ScopeOf(app, domain), key) <==> Named(app, domain, key)
  {
  }

  /** Two gets share a key exactly when their apps agree but for white space around them, and their domains
      do, a missing domain counting as a blank one. */
  lemma {:induction false} KeysAgree(app: string, domain: Option<string>, app': string, domain': Option<string>)
    ensures KeyOf(app, domain).None? <==> Strip(app) == ""
    ensures KeyOf(app, domain).Some? && KeyOf(app', domain').Some? ==>
              (KeyOf(app, domain) == KeyOf(app', domain') <==>
                 && Strip(app) == Strip(app')
                 && (if domain.Some? then Strip(domain.value) else "") == (if domain'.Some? then Strip(domain'.value) else ""))
  {
  }

  // ---- The lock-protected blocks ----

  datatype Verdict = Returned(pipeline: Pipeline) | Retry | Raised

  function Lookup(s: Shared, key: Key): Option<Pipeline> {
    if key in s.pipelines then Some(s.pipelines[key]) else None
  }

  function PublishVerdict(s: Shared, key: Key, pipeline: Pipeline, generation: nat): Verdict {
    if key in s.pipelines then Returned(s.pipelines[key])
    else if generation != s.generation then Retry
    else Returned(pipeline)
  }

  function Publish(s: Shared, key: Key, pipeline: Pipeline, generation: nat): Shared {
    if key !in s.pipelines && generation == s.generation
    then s.(pipelines := s.pipelines[key := pipeline])
    else s
  }

  function Evict(s: Shared, scope: Scope): Shared {
    s.(pipelines := map k | k in s.pipelines && !Covers(scope, k) :: s.pipelines[k],
       generation := s.generation + 1)
  }

  function Snapshot(s: Shared, scope: Scope): map<Key, Pipeline> {
    map k | k in s.pipelines && Covers(scope, k) :: s.pipelines[k]
  }

  /** The keys whose cached pipeline is still the one in the snapshot. */
  function Unmoved(s: Shared, snapshots: map<Key, Pipeline>): set<Key> {
    set k | k in snapshots && k in s.pipelines && s.pipelines[k] == snapshots[k]
  }

  function Replace(s: Shared, snapshots: map<Key, Pipeline>, made: map<Key, Pipeline>): Shared
    requires snapshots.Keys == made.Keys
  {
    s.(pipelines := map k | k in s.pipelines ::
           if k in Unmoved(s, snapshots) then made[k] else s.pipelines[k],
       warm := Available)
  }

  class RetrievalPipelineRegistry {
    var pipelines: map<Key, Pipeline>
    var generation: nat
    var warm: Warm

    function State(): Shared reads this { Shared(pipelines, generation, warm) }

    constructor ()
      ensures State() == Shared(map[], 0, Warming)
    {
      pipelines, generation, warm := map[], 0, Warming;
    }

    method Recheck(key: Key) returns (found: Option<Pipeline>, seen: nat)
      ensures found == Lookup(State(), key) && seen == State().generation
      ensures (found.Some? <==> key in pipelines) && (found.Some? ==> found.value == pipelines[key]) && seen == generation
    {
      if key in pipelines { found := Some(pipelines[key]); } else { found := None; }
      seen := generation;
    }

    /** The third block of `get`. */
    method PublishBuilt(key: Key, pipeline: Pipeline, seen: nat) returns (verdict: Verdict)
      modifies this
      ensures State() == Publish(old(State()), key, pipeline, seen)
      ensures verdict == PublishVerdict(old(State()), key, pipeline, seen)
      ensures verdict.Returned? ==> key in pipelines && pipelines[key] == verdict.pipeline
      ensures generation == old(generation) && warm == old(warm)
      ensures key in old(pipelines) ==> pipelines == old(pipelines) && verdict == Returned(old(pipelines)[key])
      ensures key !in old(pipelines) && seen == old(generation) ==>
                pipelines == old(pipelines)[key := pipeline] && verdict == Returned(pipeline)
      ensures key !in old(pipelines) && seen != old(generation) ==> pipelines == old(pipelines) && verdict == Retry
    {
      if key in pipelines { return Returned(pipelines[key]); }
      if seen != generation { return Retry; }
      pipelines := pipelines[key := pipeline];
      return Returned(pipeline);
    }

    method DeleteKeys(keys: set<Key>)
      requires keys <= pipelines.Keys
      modifies this`pipelines
      ensures pipelines == old(pipelines) - keys
    {
      var left := keys;
      while left != {}
        invariant left <= keys && pipelines == old(pipelines) - (keys - left)
        decreases left
      {
        var k :| k in left;
        assert keys - (left - {k}) == (keys - left) + {k};
        pipelines := pipelines - {k};
        left := left - {k};
      }
      assert keys - left == keys;
    }

    method Invalidate(app: Option<string>, domain: Option<string>) returns (removed: nat)
      modifies this
      ensures State() == Evict(old(State()), ScopeOf(app, domain))
      ensures removed == |Snapshot(old(State()), ScopeOf(app, domain)).Keys|
      ensures generation == old(generation) + 1 && warm == old(warm)
      ensures forall k :: k in pipelines <==> k in old(pipelines) && !Named(app, domain, k)
      ensures forall k :: k in pipelines ==> pipelines[k] == old(pipelines)[k]
      ensures removed == |set k | k in old(pipelines) && Named(app, domain, k)|
    {
      forall k ensures Covers(ScopeOf(app, domain), k) <==> Named(app, domain, k) { NamedIsCovered(app, domain, k); }
      assert Snapshot(State(), ScopeOf(app, domain)).Keys == set k | k in pipelines && Named(app, domain, k);
      removed := EvictScope(ScopeOf(app, domain));
    }

    method EvictScope(scope: Scope) returns (removed: nat)
      modifies this
      ensures State() == Evict(old(State()), scope)
      ensures removed == |Snapshot(old(State()), scope).Keys|
    {
      generation := generation + 1;
      if scope == Everything {
        assert Snapshot(old(State()), scope).Keys == pipelines.Keys;
        removed := |pipelines.Keys|;
        pipelines := map[];
      } else {
        var keys := set k | k in pipelines && Covers(scope, k);
        assert keys == Snapshot(old(State()), scope).Keys;
        removed := |keys|;
        DeleteKeys(keys);
      }
    }

    /** The publishing block of `refresh`; it reports how many entries it replaced. */
    method PublishReplacements(snapshots: map<Key, Pipeline>, made: map<Key, Pipeline>)
      returns (replaced: nat)
      requires snapshots.Keys == made.Keys
      modifies this
      ensures State() == Replace(old(State()), snapshots, made)
      ensures replaced == |Unmoved(old(State()), snapshots)|
      ensures pipelines.Keys == old(pipelines).Keys && generation == old(generation) && warm == Available
      ensures forall k :: k in pipelines ==>
                pipelines[k] == if k in snapshots && old(pipelines)[k] == snapshots[k] then made[k] else old(pipelines)[k]
      ensures replaced == |set k | k in snapshots && k in old(pipelines) && old(pipelines)[k] == snapshots[k]|
    {
      ghost var before := State();
      var left := made.Keys;
      replaced := 0;
      SwapNone(before, snapshots, made);
      while left != {}
        invariant left <= made.Keys
        invariant Swapped(before, snapshots, made, left, pipelines, replaced)
        invariant generation == old(generation)
        decreases left
      {
        var k :| k in left;
        SwapStep(before, snapshots, made, left, pipelines, replaced, k);
        if k in pipelines && pipelines[k] == snapshots[k] {
          pipelines := pipelines[k := made[k]];
          replaced := replaced + 1;
        }
        left := left - {k};
      }
      warm := Available;
      SwapAll(before, snapshots, made, pipelines, replaced);
    }
  }

  /** The cache and count after the replacing loop when the keys `left` are still to be visited. */
  ghost predicate Swapped(s: Shared, snapshots: map<Key, Pipeline>, made: map<Key, Pipeline>, left: set<Key>,
                          m: map<Key, Pipeline>, replaced: nat)
    requires snapshots.Keys == made.Keys
  {
    && m.Keys == s.pipelines.Keys
    && (forall k :: k in m ==>
          m[k] == if k in Unmoved(s, snapshots) && k !in left then made[k] else s.pipelines[k])
    && replaced == |Unmoved(s, snapshots) - left|
  }

  lemma SwapNone(s: Shared, snapshots: map<Key, Pipeline>, made: map<Key, Pipeline>)
    requires snapshots.Keys == made.Keys
    ensures Swapped(s, snapshots, made, made.Keys, s.pipelines, 0)
  {
    assert Unmoved(s, snapshots) - made.Keys == {};
  }

  lemma SwapStep(s: Shared, snapshots: map<Key, Pipeline>, made: map<Key, Pipeline>, left: set<Key>,
                 m: map<Key, Pipeline>, replaced: nat, k: Key)
    requires snapshots.Keys == made.Keys && left <= made.Keys && k in left
    requires Swapped(s, snapshots, made, left, m, replaced)
    ensures if k in m && m[k] == snapshots[k]
            then Swapped(s, snapshots, made, left - {k}, m[k := made[k]], replaced + 1)
            else Swapped(s, snapshots, made, left - {k}, m, replaced)
  {
    var unmoved := Unmoved(s, snapshots);
    assert unmoved - (left - {k}) == if k in unmoved then (unmoved - left) + {k} else unmoved - left;
  }

  lemma SwapAll(s: Shared, snapshots: map<Key, Pipeline>, made: map<Key, Pipeline>, m: map<Key, Pipeline>, replaced: nat)
    requires snapshots.Keys == made.Keys && Swapped(s, snapshots, made, {}, m, replaced)
    ensures Replace(s, snapshots, made) == Shared(m, s.generation, Available)
    ensures replaced == |Unmoved(s, snapshots)|
  {
    assert Unmoved(s, snapshots) - {} == Unmoved(s, snapshots);
  }

  // ---- Interleaved calls ----

  datatype Event = Began(key: Key, builder: nat) | Invalidated(scope: Scope)

  /** Where a `get` call is.  Between Rechecking and Leaving it holds its key's build lock. */
  datatype GetPhase =
    | Looking
    | Waiting
    | Rechecking
    | Ready(generation: nat)
    | Building(generation: nat, pipeline: Pipeline)
    | Leaving(verdict: Verdict)
    | GetDone(outcome: Verdict, endGeneration: nat)

  datatype RefreshPhase =
    | Snapshotting
    | Replacing(taken: nat, snapshots: map<Key, Pipeline>, made: map<Key, Pipeline>)
    | RefreshDone

  datatype Call =
    | Get(key: Key, phase: GetPhase, startGeneration: nat, builds: nat)
    | Refresh(scope: Scope, stage: RefreshPhase)

  /** `published` is history only: every pipeline that was ever put into the cache. */
  datatype World = World(
    shared: Shared,
    locks: map<Key, nat>,
    calls: map<nat, Call>,
    log: seq<Event>,
    published: set<Pipeline>)

  datatype Action =
    | StartGet(id: nat, key: Key)
    | LookUp(id: nat)
    | Acquire(id: nat)
    | Recheck(id: nat)
    | Begin(id: nat)
    | BuildFails(id: nat)
    | PublishBuilt(id: nat)
    | Release(id: nat)
    | StartRefresh(id: nat, scope: Scope)
    | TakeSnapshot(id: nat)
    | BeginReplacement(id: nat, key: Key)
    | ReplacementFails(id: nat)
    | PublishReplacements(id: nat)
    | Invalidate(scope: Scope)

  const Start := World(Shared(map[], 0, Warming), map[], map[], [], {})

  predicate IsGet(w: World, id: nat) { id in w.calls && w.calls[id].Get? }

  predicate IsReplacing(w: World, id: nat) {
    id in w.calls && w.calls[id].Refresh? && w.calls[id].stage.Replacing?
  }

  predicate Enabled(w: World, a: Action) {
    match a
    case StartGet(id, _) => id !in w.calls
    case StartRefresh(id, _) => id !in w.calls
    case LookUp(id) => IsGet(w, id) && w.calls[id].phase.Looking?
    case Acquire(id) => IsGet(w, id) && w.calls[id].phase.Waiting? && w.calls[id].key !in w.locks
    case Recheck(id) => IsGet(w, id) && w.calls[id].phase.Rechecking?
    case Begin(id) => IsGet(w, id) && w.calls[id].phase.Ready?
    case BuildFails(id) => IsGet(w, id) && w.calls[id].phase.Building?
    case PublishBuilt(id) => IsGet(w, id) && w.calls[id].phase.Building?
    case Release(id) => IsGet(w, id) && w.calls[id].phase.Leaving? && w.calls[id].key in w.locks
    case TakeSnapshot(id) => id in w.calls && w.calls[id].Refresh? && w.calls[id].stage.Snapshotting?
    case BeginReplacement(id, k) =>
      IsReplacing(w, id) && k in w.calls[id].stage.snapshots && k !in w.calls[id].stage.made
    case ReplacementFails(id) => IsReplacing(w, id) && w.calls[id].stage.made != map[]
    case PublishReplacements(id) =>
      IsReplacing(w, id) && w.calls[id].stage.snapshots.Keys == w.calls[id].stage.made.Keys
    case Invalidate(_) => true
  }

  function Moved(w: World, id: nat, phase: GetPhase): World
    requires IsGet(w, id)
  {
    w.(calls := w.calls[id := w.calls[id].(phase := phase)])
  }

  function AfterLookUp(w: World, id: nat): World
    requires IsGet(w, id)
  {
    match Lookup(w.shared, w.calls[id].key)
    case Some(p) => Moved(w, id, GetDone(Returned(p), w.shared.generation))
    case None => Moved(w, id, Waiting)
  }

  function AfterRecheck(w: World, id: nat): World
    requires IsGet(w, id)
  {
    match Lookup(w.shared, w.calls[id].key)
    case Some(p) => Moved(w, id, Leaving(Returned(p)))
    case None => Moved(w, id, Ready(w.shared.generation))
  }

  function AfterBegin(w: World, id: nat): World
    requires IsGet(w, id) && w.calls[id].phase.Ready?
  {
    var c := w.calls[id];
    w.(calls := w.calls[id := c.(phase := Building(c.phase.generation, Pipeline(c.key, |w.log|, id)),
                                 builds := c.builds + 1)],
       log := w.log + [Began(c.key, id)])
  }

  function AfterPublish(w: World, id: nat): World
    requires IsGet(w, id) && w.calls[id].phase.Building?
  {
    var c := w.calls[id];
    var verdict := PublishVerdict(w.shared, c.key, c.phase.pipeline, c.phase.generation);
    Moved(w, id, Leaving(verdict)).(
      shared := Publish(w.shared, c.key, c.phase.pipeline, c.phase.generation),
      published := if verdict == Returned(c.phase.pipeline) then w.published + {c.phase.pipeline}
                   else w.published)
  }

  function AfterRelease(w: World, id: nat): World
    requires IsGet(w, id) && w.calls[id].phase.Leaving?
  {
    var c := w.calls[id];
    Moved(w, id, if c.phase.verdict == Retry then Looking
                 else GetDone(c.phase.verdict, w.shared.generation)).(locks := w.locks - {c.key})
  }

  function Staged(w: World, id: nat, stage: RefreshPhase): World
    requires id in w.calls && w.calls[id].Refresh?
  {
    w.(calls := w.calls[id := w.calls[id].(stage := stage)])
  }

  function AfterSnapshot(w: World, id: nat): World
    requires id in w.calls && w.calls[id].Refresh?
  {
    var snapshots := Snapshot(w.shared, w.calls[id].scope);
    Staged(w, id, if snapshots == map[] then RefreshDone else Replacing(|w.log|, snapshots, map[]))
  }

  function AfterBeginReplacement(w: World, id: nat, key: Key): World
    requires IsReplacing(w, id)
  {
    var r := w.calls[id].stage;
    Staged(w, id, r.(made := r.made[key := Pipeline(key, |w.log|, id)])).(log := w.log + [Began(key, id)])
  }

  function AfterReplace(w: World, id: nat): World
    requires IsReplacing(w, id) && w.calls[id].stage.snapshots.Keys == w.calls[id].stage.made.Keys
  {
    var r := w.calls[id].stage;
    Staged(w, id, RefreshDone).(
      shared := Replace(w.shared, r.snapshots, r.made),
      published := w.published + set k | k in Unmoved(w.shared, r.snapshots) :: r.made[k])
  }

  function Apply(w: World, a: Action): World
    requires Enabled(w, a)
  {
    match a
    case StartGet(id, key) => w.(calls := w.calls[id := Get(key, Looking, w.shared.generation, 0)])
    case StartRefresh(id, scope) => w.(calls := w.calls[id := Refresh(scope, Snapshotting)])
    case LookUp(id) => AfterLookUp(w, id)
    case Acquire(id) => Moved(w, id, Rechecking).(locks := w.locks[w.calls[id].key := id])
    case Recheck(id) => AfterRecheck(w, id)
    case Begin(id) => AfterBegin(w, id)
    case BuildFails(id) => Moved(w, id, Leaving(Raised))
    case PublishBuilt(id) => AfterPublish(w, id)
    case Release(id) => AfterRelease(w, id)
    case TakeSnapshot(id) => AfterSnapshot(w, id)
    case BeginReplacement(id, key) => AfterBeginReplacement(w, id, key)
    case ReplacementFails(id) =>
      Staged(w, id, RefreshDone).(shared := w.shared.(warm := Unavailable))
    case PublishReplacements(id) => AfterReplace(w, id)
    case Invalidate(scope) => w.(shared := Evict(w.shared, scope), log := w.log + [Invalidated(scope)])
  }

  /** A hit returns the cached pipeline without a build, at the lookup or at the recheck under the build lock;
      only a miss at the recheck leads to a build, with the generation of that instant. */
  lemma {:induction false} HitsReturn(w: World, id: nat)
    requires IsGet(w, id)
    ensures var key, p := w.calls[id].key, w.shared.pipelines;
            && (Enabled(w, LookUp(id)) ==>
                  var phase := Apply(w, LookUp(id)).calls[id].phase;
                  if key in p then phase == GetDone(Returned(p[key]), w.shared.generation) else phase == Waiting)
            && (Enabled(w, Recheck(id)) ==>
                  var phase := Apply(w, Recheck(id)).calls[id].phase;
                  if key in p then phase == Leaving(Returned(p[key])) else phase == Ready(w.shared.generation))
  {
  }

  /** A call that leaves with a pipeline or an exception is done with it; one that lost to an invalidation
      looks again. */
  lemma {:induction false} LeavesWith(w: World, id: nat)
    requires Enabled(w, Release(id))
    ensures var before, phase := w.calls[id].phase.verdict, Apply(w, Release(id)).calls[id].phase;
            if before == Retry then phase == Looking else phase == GetDone(before, w.shared.generation)
  {
  }

  /** A run: a list of worlds, each made from the one before by an enabled action. */
  ghost predicate IsRun(worlds: seq<World>) {
    && |worlds| > 0
    && worlds[0] == Start
    && forall i, j {:trigger worlds[i], worlds[j]} :: 0 <= i && j == i + 1 && j < |worlds| ==> Follows(worlds[i], worlds[j])
  }

  ghost predicate Follows(w: World, w': World) {
    exists a :: Enabled(w, a) && Apply(w, a) == w'
  }

  // ---- Invariants ----

  /** The event is an invalidation of the key. */
  predicate Hits(e: Event, key: Key) { e.Invalidated? && Covers(e.scope, key) }

  /** No invalidation that covers the pipeline's key came after its build began. */
  ghost predicate Fresh(w: World, p: Pipeline) {
    forall i :: p.began < i < |w.log| ==> !Hits(w.log[i], p.key)
  }

  ghost predicate Logged(w: World, p: Pipeline) {
    p.began < |w.log| && w.log[p.began] == Began(p.key, p.builder)
  }

  ghost predicate CacheFresh(w: World) {
    forall k :: k in w.shared.pipelines ==>
      && w.shared.pipelines[k].key == k
      && w.shared.pipelines[k] in w.published
      && Fresh(w, w.shared.pipelines[k])
  }

  ghost predicate Holds(phase: GetPhase) {
    phase.Rechecking? || phase.Ready? || phase.Building? || phase.Leaving?
  }

  /** A call holds its key's build lock exactly in the phases between taking and releasing it. */
  ghost predicate LocksHeld(w: World) {
    && (forall k :: k in w.locks ==> IsGet(w, w.locks[k]) && w.calls[w.locks[k]].key == k
                                     && Holds(w.calls[w.locks[k]].phase))
    && (forall id :: IsGet(w, id) && Holds(w.calls[id].phase) ==>
          w.calls[id].key in w.locks && w.locks[w.calls[id].key] == id)
  }

  /** What is known of a `get` call in each phase. */
  ghost predicate GetOk(w: World, id: nat, c: Call)
    requires c.Get?
  {
    var base := w.shared.generation - c.startGeneration;
    match c.phase
    case Looking => c.builds <= base
    case Waiting => c.builds <= base
    case Rechecking => c.builds <= base
    case Ready(g) =>
      c.builds <= g - c.startGeneration && g <= w.shared.generation && c.key !in w.shared.pipelines
    case Building(g, p) =>
      && c.builds <= g - c.startGeneration + 1 && g <= w.shared.generation
      && c.key !in w.shared.pipelines
      && p.key == c.key && p.builder == id && Logged(w, p) && p !in w.published
      && (g == w.shared.generation ==> Fresh(w, p))
    case Leaving(v) => c.builds <= base + (if v == Retry then 0 else 1)
    case GetDone(v, end) => c.builds <= end - c.startGeneration + 1 && end <= w.shared.generation && v != Retry
  }

  ghost predicate RefreshOk(w: World, id: nat, r: RefreshPhase) {
    r.Replacing? ==>
      && r.taken <= |w.log|
      && r.made.Keys <= r.snapshots.Keys
      && (forall k :: k in r.snapshots ==> r.snapshots[k].key == k && r.snapshots[k] in w.published)
      && (forall k :: k in r.made ==>
            && r.made[k].key == k && r.made[k].builder == id && r.made[k].began >= r.taken
            && Logged(w, r.made[k]) && r.made[k] !in w.published)
      && (forall k, i :: k in r.snapshots && r.taken <= i < |w.log| && Hits(w.log[i], k) ==>
            k !in Unmoved(w.shared, r.snapshots))
  }

  ghost predicate CallOk(w: World, id: nat, c: Call) {
    if c.Get? then GetOk(w, id, c) else RefreshOk(w, id, c.stage)
  }

  ghost predicate CallsOk(w: World) {
    forall id :: id in w.calls ==> CallOk(w, id, w.calls[id])
  }

  ghost predicate PublishedLogged(w: World) {
    forall p :: p in w.published ==> Logged(w, p)
  }

  ghost predicate Inv(w: World) {
    CacheFresh(w) && LocksHeld(w) && CallsOk(w) && PublishedLogged(w)
  }

  /** The new record holds a lock exactly if the old one did. */
  ghost predicate SameHold(w: World, id: nat, c: Call) {
    && (id in w.calls ==> w.calls[id].Get? == c.Get?)
    && (id in w.calls && c.Get? ==> w.calls[id].key == c.key && Holds(w.calls[id].phase) == Holds(c.phase))
    && (id !in w.calls && c.Get? ==> !Holds(c.phase))
  }

  lemma {:induction false} CallChangeLocks(w: World, id: nat, c: Call)
    requires LocksHeld(w) && SameHold(w, id, c)
    ensures LocksHeld(w.(calls := w.calls[id := c]))
  {
  }

  /** Replacing one call's record keeps the invariant when the new record is right and holds a
      lock exactly if the old one did. */
  lemma {:induction false} CallChangeKeeps(w: World, id: nat, c: Call)
    requires Inv(w) && CallOk(w, id, c) && SameHold(w, id, c)
    ensures Inv(w.(calls := w.calls[id := c]))
  {
    var w' := w.(calls := w.calls[id := c]);
    CallChangeLocks(w, id, c);
    forall other | other in w'.calls ensures CallOk(w', other, w'.calls[other]) {
      assert CallOk(w, other, if other == id then c else w.calls[other]);
    }
  }

  /** A refresh is not touched by what moves no more of its snapshots and publishes none of its builds. */
  lemma {:induction false} RefreshStays(w: World, w': World, id: nat, r: RefreshPhase)
    requires RefreshOk(w, id, r) && w'.log == w.log && w.published <= w'.published
    requires r.Replacing? ==> Unmoved(w'.shared, r.snapshots) <= Unmoved(w.shared, r.snapshots)
    requires r.Replacing? ==> forall k :: k in r.made ==> r.made[k] !in w'.published
    ensures RefreshOk(w', id, r)
  {
  }

  lemma {:induction false} GetStepsKeep(w: World, a: Action)
    requires Inv(w) && Enabled(w, a)
    requires a.StartGet? || a.LookUp? || a.Recheck? || a.BuildFails?
    ensures Inv(Apply(w, a))
  {
    var w' := Apply(w, a);
    if !a.StartGet? {
      assert CallOk(w, a.id, w.calls[a.id]);
    }
    assert w' == w.(calls := w.calls[a.id := w'.calls[a.id]]);
    CallChangeKeeps(w, a.id, w'.calls[a.id]);
  }

  lemma {:induction false} AcquireKeeps(w: World, id: nat)
    requires Inv(w) && Enabled(w, Acquire(id))
    ensures Inv(Apply(w, Acquire(id)))
  {
    var w' := Apply(w, Acquire(id));
    forall other | other in w'.calls ensures CallOk(w', other, w'.calls[other]) {
      assert CallOk(w, other, w.calls[other]);
    }
  }

  /** One more Began event changes nothing that is known of a call. */
  lemma {:induction false} BeganKeeps(w: World, key: Key, builder: nat)
    requires Inv(w)
    ensures Inv(w.(log := w.log + [Began(key, builder)]))
  {
    var w' := w.(log := w.log + [Began(key, builder)]);
    forall id | id in w'.calls ensures CallOk(w', id, w'.calls[id]) {
      assert CallOk(w, id, w.calls[id]);
    }
  }

  lemma {:induction false} BeginKeeps(w: World, id: nat)
    requires Inv(w) && Enabled(w, Begin(id))
    ensures Inv(Apply(w, Begin(id)))
  {
    assert CallOk(w, id, w.calls[id]);
    BeganKeeps(w, w.calls[id].key, id);
    CallChangeKeeps(w.(log := w.log + [Began(w.calls[id].key, id)]), id, Apply(w, Begin(id)).calls[id]);
  }

  /** Publishing into an absent key leaves every other call's knowledge true. */
  lemma {:induction false} PublishKeepsOther(w: World, id: nat, other: nat)
    requires Inv(w) && Enabled(w, PublishBuilt(id)) && other in w.calls && other != id
    ensures CallOk(Apply(w, PublishBuilt(id)), other, w.calls[other])
  {
    assert CallOk(w, other, w.calls[other]) && CallOk(w, id, w.calls[id]);
    if w.calls[other].Get? { PublishKeepsGet(w, id, other); } else { PublishKeepsRefresh(w, id, other); }
  }

  lemma {:induction false} PublishKeepsGet(w: World, id: nat, other: nat)
    requires Inv(w) && Enabled(w, PublishBuilt(id)) && other in w.calls && other != id && w.calls[other].Get?
    requires CallOk(w, other, w.calls[other]) && CallOk(w, id, w.calls[id])
    ensures CallOk(Apply(w, PublishBuilt(id)), other, w.calls[other])
  {
    var w' := Apply(w, PublishBuilt(id));
    assert w'.shared.generation == w.shared.generation && w'.log == w.log;
  }

  lemma {:induction false} PublishKeepsRefresh(w: World, id: nat, other: nat)
    requires Inv(w) && Enabled(w, PublishBuilt(id)) && other in w.calls && other != id && w.calls[other].Refresh?
    requires CallOk(w, other, w.calls[other]) && CallOk(w, id, w.calls[id])
    ensures CallOk(Apply(w, PublishBuilt(id)), other, w.calls[other])
  {
    RefreshStays(w, Apply(w, PublishBuilt(id)), other, w.calls[other].stage);
  }

  lemma {:induction false} PublishKeeps(w: World, id: nat)
    requires Inv(w) && Enabled(w, PublishBuilt(id))
    ensures Inv(Apply(w, PublishBuilt(id)))
  {
    var w' := Apply(w, PublishBuilt(id));
    var c := w.calls[id];
    assert CallOk(w, id, c);
    assert CacheFresh(w') by {
      forall k | k in w'.shared.pipelines
        ensures var p := w'.shared.pipelines[k]; p.key == k && p in w'.published && Fresh(w', p)
      {
        assert Fresh(w, w'.shared.pipelines[k]);
      }
    }
    assert LocksHeld(w');
    assert CallOk(w', id, w'.calls[id]);
    forall other | other in w'.calls && other != id ensures CallOk(w', other, w'.calls[other]) {
      PublishKeepsOther(w, id, other);
    }
  }

  lemma {:induction false} ReleaseKeeps(w: World, id: nat)
    requires Inv(w) && Enabled(w, Release(id))
    ensures Inv(Apply(w, Release(id)))
  {
  }

  lemma {:induction false} RefreshStepsKeep(w: World, a: Action)
    requires Inv(w) && Enabled(w, a) && (a.StartRefresh? || a.TakeSnapshot?)
    ensures Inv(Apply(w, a))
  {
    var w' := Apply(w, a);
    assert w' == w.(calls := w.calls[a.id := w'.calls[a.id]]);
    CallChangeKeeps(w, a.id, w'.calls[a.id]);
  }

  lemma {:induction false} ReplacementFailsKeeps(w: World, id: nat)
    requires Inv(w) && Enabled(w, ReplacementFails(id))
    ensures Inv(Apply(w, ReplacementFails(id)))
  {
    var w0 := Staged(w, id, RefreshDone);
    CallChangeKeeps(w, id, w0.calls[id]);
    WarmKeeps(w0, Unavailable);
  }

  lemma {:induction false} WarmKeeps(w: World, warm: Warm)
    requires Inv(w)
    ensures Inv(w.(shared := w.shared.(warm := warm)))
  {
    var w' := w.(shared := w.shared.(warm := warm));
    forall id | id in w'.calls ensures CallOk(w', id, w'.calls[id]) {
      assert CallOk(w, id, w.calls[id]);
      if w.calls[id].Refresh? && w.calls[id].stage.Replacing? {
        assert Unmoved(w'.shared, w.calls[id].stage.snapshots) == Unmoved(w.shared, w.calls[id].stage.snapshots);
      }
    }
  }

  lemma {:induction false} BeginReplacementKeeps(w: World, id: nat, key: Key)
    requires Inv(w) && Enabled(w, BeginReplacement(id, key))
    ensures Inv(Apply(w, BeginReplacement(id, key)))
  {
    var w' := w.(log := w.log + [Began(key, id)]);
    BeganKeeps(w, key, id);
    assert CallOk(w', id, w'.calls[id]);
    assert Pipeline(key, |w.log|, id) !in w.published;
    ReplacementMade(w', id, w'.calls[id].stage, key, |w.log|);
    CallChangeKeeps(w', id, Apply(w, BeginReplacement(id, key)).calls[id]);
  }

  lemma {:induction false} ReplacementMade(w: World, id: nat, r: RefreshPhase, key: Key, n: nat)
    requires r.Replacing? && RefreshOk(w, id, r) && key in r.snapshots
    requires r.taken <= n < |w.log| && w.log[n] == Began(key, id) && Pipeline(key, n, id) !in w.published
    ensures RefreshOk(w, id, r.(made := r.made[key := Pipeline(key, n, id)]))
  {
  }

  /** A replacement is fresh when its entry was not moved since the snapshot. */
  lemma {:induction false} ReplacementsFresh(w: World, id: nat, k: Key)
    requires Inv(w) && IsReplacing(w, id)
    requires var r := w.calls[id].stage; k in Unmoved(w.shared, r.snapshots) && k in r.made
    ensures Fresh(w, w.calls[id].stage.made[k])
  {
    assert CallOk(w, id, w.calls[id]);
  }

  lemma {:induction false} ReplaceKeepsFresh(w: World, id: nat)
    requires Inv(w) && Enabled(w, PublishReplacements(id))
    ensures CacheFresh(Apply(w, PublishReplacements(id)))
    ensures PublishedLogged(Apply(w, PublishReplacements(id)))
  {
    var w' := Apply(w, PublishReplacements(id));
    var r := w.calls[id].stage;
    assert CallOk(w, id, w.calls[id]);
    forall k | k in w'.shared.pipelines
      ensures var p := w'.shared.pipelines[k]; p.key == k && p in w'.published && Fresh(w', p)
    {
      if k in Unmoved(w.shared, r.snapshots) {
        ReplacementsFresh(w, id, k);
        assert Fresh(w', r.made[k]);
      } else {
        assert Fresh(w, w.shared.pipelines[k]);
      }
    }
  }

  lemma {:induction false} ReplaceKeeps(w: World, id: nat)
    requires Inv(w) && Enabled(w, PublishReplacements(id))
    ensures Inv(Apply(w, PublishReplacements(id)))
  {
    var w' := Apply(w, PublishReplacements(id));
    ReplaceKeepsFresh(w, id);
    assert LocksHeld(w');
    assert CallOk(w', id, w'.calls[id]);
    forall other | other in w'.calls && other != id ensures CallOk(w', other, w'.calls[other]) {
      ReplaceKeepsOther(w, id, other);
    }
  }

  lemma {:induction false} ReplaceKeepsOther(w: World, id: nat, other: nat)
    requires Inv(w) && Enabled(w, PublishReplacements(id)) && other in w.calls && other != id
    ensures CallOk(Apply(w, PublishReplacements(id)), other, w.calls[other])
  {
    var w' := Apply(w, PublishReplacements(id));
    var c := w.calls[other];
    assert CallOk(w, other, c) && CallOk(w, id, w.calls[id]);
    var r := w.calls[id].stage;
    if c.Refresh? && c.stage.Replacing? {
      assert Unmoved(w'.shared, c.stage.snapshots) <= Unmoved(w.shared, c.stage.snapshots);
    }
  }

  lemma {:induction false} InvalidateKeepsCall(w: World, scope: Scope, id: nat)
    requires Inv(w) && id in w.calls
    ensures CallOk(Apply(w, Invalidate(scope)), id, w.calls[id])
  {
    assert CallOk(w, id, w.calls[id]);
    if IsReplacing(w, id) {
      var r := w.calls[id].stage;
      var w' := Apply(w, Invalidate(scope));
      assert Unmoved(w'.shared, r.snapshots) <= Unmoved(w.shared, r.snapshots);
    }
  }

  lemma {:induction false} InvalidateKeeps(w: World, scope: Scope)
    requires Inv(w)
    ensures Inv(Apply(w, Invalidate(scope)))
  {
    var w' := Apply(w, Invalidate(scope));
    forall id | id in w'.calls ensures CallOk(w', id, w'.calls[id]) {
      InvalidateKeepsCall(w, scope, id);
    }
  }

  lemma {:induction false} StepKeeps(w: World, a: Action)
    requires Inv(w) && Enabled(w, a)
    ensures Inv(Apply(w, a))
  {
    match a
    case Begin(id) => BeginKeeps(w, id);
    case PublishBuilt(id) => PublishKeeps(w, id);
    case Release(id) => ReleaseKeeps(w, id);
    case BeginReplacement(id, key) => BeginReplacementKeeps(w, id, key);
    case PublishReplacements(id) => ReplaceKeeps(w, id);
    case Invalidate(scope) => InvalidateKeeps(w, scope);
    case Acquire(id) => AcquireKeeps(w, id);
    case ReplacementFails(id) => ReplacementFailsKeeps(w, id);
    case _ =>
      if a.StartRefresh? || a.TakeSnapshot? {
        RefreshStepsKeep(w, a);
      } else {
        GetStepsKeep(w, a);
      }
  }

  // ---- Theorems over every run ----

  lemma {:induction false} RunKeeps(worlds: seq<World>, n: nat)
    requires IsRun(worlds) && n < |worlds|
    ensures Inv(worlds[n])
  {
    if n > 0 {
      RunKeeps(worlds, n - 1);
      assert Follows(worlds[n - 1], worlds[n]);
      var a :| Enabled(worlds[n - 1], a) && Apply(worlds[n - 1], a) == worlds[n];
      StepKeeps(worlds[n - 1], a);
    }
  }

  /** No cached pipeline began building before an invalidation that covers its key. */
  lemma {:induction false} CachedNeverStale(worlds: seq<World>, n: nat, k: Key, i: nat)
    requires IsRun(worlds) && n < |worlds| && k in worlds[n].shared.pipelines
    requires i < |worlds[n].log| && Hits(worlds[n].log[i], k)
    ensures var p := worlds[n].shared.pipelines[k];
            i < p.began < |worlds[n].log| && worlds[n].log[p.began] == Began(k, p.builder)
  {
    RunKeeps(worlds, n);
    var w := worlds[n];
    assert Logged(w, w.shared.pipelines[k]) && Fresh(w, w.shared.pipelines[k]);
  }

  /** Per key at most one `get` is past the lock, and from its second check until it publishes
      the key stays absent, so publishing never meets an existing entry. */
  lemma {:induction false} OneBuilderPerKey(worlds: seq<World>, n: nat, id: nat, other: nat)
    requires IsRun(worlds) && n < |worlds|
    requires IsGet(worlds[n], id) && (worlds[n].calls[id].phase.Ready? || worlds[n].calls[id].phase.Building?)
    ensures worlds[n].calls[id].key !in worlds[n].shared.pipelines
    ensures (IsGet(worlds[n], other) && Holds(worlds[n].calls[other].phase)
             && worlds[n].calls[other].key == worlds[n].calls[id].key) ==> other == id
    ensures var c := worlds[n].calls[id];
            c.phase.Building? ==>
              PublishVerdict(worlds[n].shared, c.key, c.phase.pipeline, c.phase.generation)
                == if c.phase.generation == worlds[n].shared.generation then Returned(c.phase.pipeline) else Retry
  {
    RunKeeps(worlds, n);
    assert CallOk(worlds[n], id, worlds[n].calls[id]);
  }

  /** A finished `get` ran at most one build more than there were invalidations during the call. */
  lemma {:induction false} BuildsBounded(worlds: seq<World>, n: nat, id: nat)
    requires IsRun(worlds) && n < |worlds| && IsGet(worlds[n], id)
    ensures var c := worlds[n].calls[id];
            var end := if c.phase.GetDone? then c.phase.endGeneration else worlds[n].shared.generation;
            c.builds <= 1 + end - c.startGeneration
  {
    RunKeeps(worlds, n);
    assert CallOk(worlds[n], id, worlds[n].calls[id]);
  }

  /** The generation counts the invalidations in the log. */
  function Invalidations(log: seq<Event>): nat {
    if log == [] then 0
    else Invalidations(log[..|log| - 1]) + if log[|log| - 1].Invalidated? then 1 else 0
  }

  /** A step writes at most one event, and raises the generation exactly with an invalidation. */
  ghost predicate CountsOne(w: World, w': World) {
    || (w'.log == w.log && w'.shared.generation == w.shared.generation)
    || (|w'.log| > 0 && w'.log[..|w'.log| - 1] == w.log
        && w'.shared.generation - w.shared.generation == if w'.log[|w'.log| - 1].Invalidated? then 1 else 0)
  }

  lemma {:induction false} LogStep(w: World, a: Action)
    requires Enabled(w, a)
    ensures CountsOne(w, Apply(w, a))
  {
  }

  lemma {:induction false} StepCounts(w: World, w': World)
    requires Follows(w, w')
    ensures w'.shared.generation - w.shared.generation == Invalidations(w'.log) - Invalidations(w.log)
  {
    var a :| Enabled(w, a) && Apply(w, a) == w';
    LogStep(w, a);
  }

  lemma {:induction false} GenerationCounts(worlds: seq<World>, n: nat)
    requires IsRun(worlds) && n < |worlds|
    ensures worlds[n].shared.generation == Invalidations(worlds[n].log)
  {
    if n > 0 {
      GenerationCounts(worlds, n - 1);
      StepCounts(worlds[n - 1], worlds[n]);
    }
  }

  predicate Unfinished(c: Call) {
    if c.Get? then !c.phase.GetDone? else !c.stage.RefreshDone?
  }

  /** No deadlock: while some call is unfinished, an unfinished call can take a step, and the
      step is its own next block or build, not a failure. */
  lemma {:induction false} NoDeadlock(worlds: seq<World>, n: nat, id: nat) returns (a: Action)
    requires IsRun(worlds) && n < |worlds| && id in worlds[n].calls && Unfinished(worlds[n].calls[id])
    ensures Enabled(worlds[n], a) && !a.BuildFails? && !a.ReplacementFails? && !a.Invalidate?
    ensures a.id in worlds[n].calls && Unfinished(worlds[n].calls[a.id])
    ensures a.id == id || (worlds[n].calls[id].Get? && worlds[n].calls[a.id].Get?
                           && worlds[n].calls[a.id].key == worlds[n].calls[id].key)
  {
    RunKeeps(worlds, n);
    var w := worlds[n];
    if w.calls[id].Refresh? {
      var r := w.calls[id].stage;
      assert CallOk(w, id, w.calls[id]);
      if r.Snapshotting? {
        a := TakeSnapshot(id);
      } else if r.snapshots.Keys == r.made.Keys {
        a := PublishReplacements(id);
      } else {
        var k :| k in r.snapshots && k !in r.made;
        a := BeginReplacement(id, k);
      }
    } else if w.calls[id].phase.Waiting? && w.calls[id].key in w.locks {
      a := NextBlock(w, w.locks[w.calls[id].key]);
    } else {
      a := NextBlock(w, id);
    }
  }

  lemma {:induction false} NextBlock(w: World, id: nat) returns (a: Action)
    requires Inv(w) && IsGet(w, id) && Unfinished(w.calls[id])
    requires w.calls[id].phase.Waiting? ==> w.calls[id].key !in w.locks
    ensures Enabled(w, a) && !a.BuildFails? && !a.ReplacementFails? && !a.Invalidate? && a.id == id
  {
    match w.calls[id].phase
    case Looking => a := LookUp(id);
    case Waiting => a := Acquire(id);
    case Rechecking => a := Recheck(id);
    case Ready(_) => a := Begin(id);
    case Building(_, _) => a := PublishBuilt(id);
    case Leaving(_) => a := Release(id);
  }

  /** The call has its answer. */
  predicate Answered(c: Call, p: Pipeline) {
    c.Get? && (c.phase == Leaving(Returned(p)) || (c.phase.GetDone? && c.phase.outcome == Returned(p)))
  }

  /** At world i the call was under way and the pipeline was the cached one. */
  predicate CachedDuring(w: World, id: nat, key: Key, p: Pipeline) {
    && IsGet(w, id) && Unfinished(w.calls[id]) && w.calls[id].key == key
    && key in w.shared.pipelines && w.shared.pipelines[key] == p
  }

  /** The step that gives a call its answer is one at which the pipeline is cached. */
  lemma {:induction false} AnsweringStep(w: World, a: Action, id: nat, p: Pipeline)
    requires Enabled(w, a) && id in Apply(w, a).calls && Answered(Apply(w, a).calls[id], p)
    requires !(id in w.calls && Answered(w.calls[id], p))
    ensures var key := Apply(w, a).calls[id].key;
            CachedDuring(w, id, key, p) || CachedDuring(Apply(w, a), id, key, p)
  {
    assert !a.Invalidate? && a.id == id;
  }

  lemma {:induction false} KeepsKey(w: World, a: Action, id: nat)
    requires Enabled(w, a) && IsGet(w, id)
    ensures IsGet(Apply(w, a), id) && Apply(w, a).calls[id].key == w.calls[id].key
  {
  }

  /** What `get` returns was in the cache under its key at some instant of the call. */
  lemma {:induction false} ReturnsCached(worlds: seq<World>, n: nat, id: nat, p: Pipeline) returns (i: nat)
    requires IsRun(worlds) && n < |worlds| && id in worlds[n].calls && Answered(worlds[n].calls[id], p)
    ensures i <= n && CachedDuring(worlds[i], id, worlds[n].calls[id].key, p)
  {
    assert n > 0;
    var w := worlds[n - 1];
    assert Follows(w, worlds[n]);
    var a :| Enabled(w, a) && Apply(w, a) == worlds[n];
    if id in w.calls && Answered(w.calls[id], p) {
      i := ReturnsCached(worlds, n - 1, id, p);
      KeepsKey(w, a, id);
    } else {
      AnsweringStep(w, a, id, p);
      i := if CachedDuring(w, id, worlds[n].calls[id].key, p) then n - 1 else n;
    }
  }

  /** An `invalidate` given the arguments of a `get` reaches that call's key; given no domain it
      reaches every key of the app, and given a blank app every key. */
  lemma {:induction false} InvalidateReaches(app: Option<string>, domain: Option<string>, target: string,
                                             within: Option<string>)
    requires Strip(target) != ""
    ensures KeyOf(target, within).Some?
    ensures Covers(ScopeOf(app, domain), KeyOf(target, within).value) <==>
              || app.None? || Strip(app.value) == ""
              || (Strip(app.value) == Strip(target)
                  && (domain.None? || Strip(domain.value) == if within.Some? then Strip(within.value) else ""))
  {
    NamedIsCovered(app, domain, KeyOf(target, within).value);
  }
}
