// The engine, the reconciling leader, the refreshing follower and the deletion of
// resources, as a step machine. Listing, compiling and swapping are separate steps, so
// that anything may happen in between. One batch is processed at a time.
module Interlock {
  import opened Scopes
  import opened Generator
  import opened Mappings
  import opened Lookups
  import opened Cluster
  import opened Engine
  import opened Determinism
  import opened Tightness

  // ---- internal/controller/helpers.go

  // An object that is being deleted is gone once its finalizer is.
  ghost function WithoutFinalizer(ws: Workloads, k: Key): Workloads
    requires k in ws
  {
    if ws[k].deleting then ws - {k} else ws[k := ws[k].(finalizer := false)]
  }

  // The finalizer is removed only when the engine no longer knows the resource. A failed
  // patch may have taken effect.
  method HandleDeletion(c: Cluster, engine: InMemoryEngine, k: Key) returns (requeue: bool, ok: bool)
    requires k in c.workloads
    modifies c`workloads, c`errors
    ensures ok <==> c.errors == old(c.errors)
    ensures c.workloads == old(c.workloads)
            || (old(c.workloads)[k].finalizer && !InMaps(engine.saToWsaMap, k)
                && c.workloads == WithoutFinalizer(old(c.workloads), k))
    ensures requeue <==> old(c.workloads)[k].finalizer && InMaps(engine.saToWsaMap, k)
    ensures ok && !requeue ==> k !in c.workloads || !c.workloads[k].finalizer
  {
    if !c.workloads[k].finalizer {
      return false, true;
    }
    var known := engine.IsWSAInMaps(k);
    if known {
      return true, true;
    }
    requeue := false;
    if * {
      if c.workloads[k].deleting {
        c.workloads := c.workloads - {k};
      } else {
        c.workloads := c.workloads[k := c.workloads[k].(finalizer := false)];
      }
      ok := *;
    } else {
      ok := false;
    }
    if !ok { c.errors := c.errors + 1; }
  }

  // ---- The machine

  // A listing is the union of two lists taken one after the other. collected: how many of
  // the four garbage collections of the batch have succeeded.
  datatype Job =
    | Half(listed: set<WSAResource>)
    | Ready(listed: set<WSAResource>, state: ClusterState, collected: nat)

  datatype Kind = Refresh | Rebuild

  datatype Task = Task(kind: Kind, job: Job)

  datatype State = State(
    workloads: Workloads, engine: ClusterState,
    batch: Option<Job>, tasks: map<nat, Task>,
    bound: set<Key>)   // the owners of the managed RoleBindings

  datatype Step =
    | Create(k: Key, w: WSAResource) | Update(k: Key, w: WSAResource) | AddFinalizer(k: Key) | Delete(k: Key)
    | RemoveFinalizer(k: Key) | Vanish(keys: set<Key>) | Restart
    | BatchList | BatchPlan(state: ClusterState) | BatchEnsure(bound: set<Key>) | BatchCollect(bound: set<Key>)
    | BatchPublish | BatchFail(bound: set<Key>)
    | TaskList(id: nat, kind: Kind) | TaskCompute(id: nat, state: ClusterState) | TaskSwap(id: nat) | TaskFail(id: nat)

  ghost function LivePart(ws: Workloads, namespaced: bool): set<WSAResource> {
    set w | w in Live(ws) && w.Namespaced? == namespaced
  }

  const NO_STATE := ClusterState(map[], map[], [{}, {}, {}, {}, {}, {}])

  ghost predicate Init(s: State) {
    s.workloads == map[] && s.engine == NO_STATE && s.batch == None && s.tasks == map[]
  }

  // What users and the API server do. Bindings may vanish at any time. The process may be
  // restarted, or another replica become the leader: its map of accounts to resources is
  // empty, and refreshes before or after that give it its lookup.
  ghost predicate UserNext(s: State, step: Step, s': State) {
    match step
    case Create(k, w) =>
      k !in s.workloads && w.GetKey() == k && WellFormed(w)
      && s' == s.(workloads := s.workloads[k := Workload(w, false, false)])
    case Update(k, w) =>
      k in s.workloads && w.GetKey() == k && WellFormed(w)
      && s' == s.(workloads := s.workloads[k := s.workloads[k].(resource := w)])
    case AddFinalizer(k) =>
      k in s.workloads && !s.workloads[k].deleting
      && s' == s.(workloads := s.workloads[k := s.workloads[k].(finalizer := true)])
    case Delete(k) =>
      k in s.workloads
      && s' == s.(workloads := if s.workloads[k].finalizer then s.workloads[k := s.workloads[k].(deleting := true)]
                               else s.workloads - {k})
    case RemoveFinalizer(k) =>
      k in s.workloads && s.workloads[k].deleting && s.workloads[k].finalizer && !InMaps(s.engine.saToWSAs, k)
      && s' == s.(workloads := WithoutFinalizer(s.workloads, k))
    case Vanish(keys) =>
      s' == s.(bound := s.bound - keys)
    case Restart =>
      s' == s.(engine := NO_STATE, batch := None, tasks := map[])
    case _ => false
  }

  // Planning and execution. Ensuring binds resources of the plan; the third collection,
  // that of the RoleBindings, leaves none of others; publishing follows the fourth.
  ghost predicate BatchNext(hash: string -> string, s: State, step: Step, s': State) {
    match step
    case BatchList =>
      s.batch == None && s' == s.(batch := Some(Half(LivePart(s.workloads, true))))
    case BatchPlan(state) =>
      s.batch.Some? && s.batch.value.Half?
      && var rs := s.batch.value.listed + LivePart(s.workloads, false);
      IsCompiled(hash, rs, state) && s' == s.(batch := Some(Ready(rs, state, 0)))
    case BatchEnsure(bound) =>
      s.batch.Some? && s.batch.value.Ready? && s.batch.value.collected == 0
      && bound <= s.bound + Keys(s.batch.value.listed) && s' == s.(bound := bound)
    case BatchCollect(bound) =>
      s.batch.Some? && s.batch.value.Ready? && s.batch.value.collected < 4
      && (if s.batch.value.collected == 2 then bound <= s.bound * Keys(s.batch.value.listed) else bound == s.bound)
      && s' == s.(bound := bound, batch := Some(s.batch.value.(collected := s.batch.value.collected + 1)))
    case BatchPublish =>
      s.batch.Some? && s.batch.value.Ready? && s.batch.value.collected == 4
      && s' == s.(engine := s.batch.value.state, batch := None)
    case BatchFail(bound) =>
      bound <= s.bound && ((s.batch.Some? && s.batch.value.Ready?) || bound == s.bound)
      && s' == s.(batch := None, bound := bound)
    case _ => false
  }

  // Refreshes by followers and rebuilds after a permanent failure, any number at a time.
  ghost predicate TaskNext(hash: string -> string, s: State, step: Step, s': State) {
    match step
    case TaskList(id, kind) =>
      id !in s.tasks && s' == s.(tasks := s.tasks[id := Task(kind, Half(LivePart(s.workloads, true)))])
    case TaskCompute(id, state) =>
      id in s.tasks && s.tasks[id].job.Half?
      && var rs := s.tasks[id].job.listed + LivePart(s.workloads, false);
      IsCompiled(hash, rs, state) && s' == s.(tasks := s.tasks[id := Task(s.tasks[id].kind, Ready(rs, state, 0))])
    case TaskSwap(id) =>
      id in s.tasks && s.tasks[id].job.Ready?
      && var state := s.tasks[id].job.state;
      s' == s.(tasks := s.tasks - {id},
               engine := if s.tasks[id].kind.Rebuild? then state else state.(saToWSAs := s.engine.saToWSAs))
    case TaskFail(id) =>
      id in s.tasks && s' == s.(tasks := s.tasks - {id})
    case _ => false
  }

  ghost predicate Next(hash: string -> string, s: State, step: Step, s': State) {
    UserNext(s, step, s') || BatchNext(hash, s, step, s') || TaskNext(hash, s, step, s')
  }

  ghost predicate IsRun(hash: string -> string, run: seq<State>, steps: seq<Step>) {
    && |run| == |steps| + 1
    && forall i :: 0 <= i < |steps| ==> Next(hash, run[i], steps[i], run[i + 1])
  }

  lemma RunGrows(hash: string -> string, run: seq<State>, steps: seq<Step>, step: Step, s': State)
    requires IsRun(hash, run, steps) && Next(hash, run[|steps|], step, s')
    ensures IsRun(hash, run + [s'], steps + [step])
  {
    hide Next;
  }

  // ---- Listings

  lemma PartIsValid(ws: Workloads, namespaced: bool)
    requires ValidWorkloads(ws)
    ensures ValidSet(LivePart(ws, namespaced))
    ensures forall w :: w in LivePart(ws, namespaced) ==> w.Namespaced? == namespaced
  {
    hide WellFormed;
    LiveIsValid(ws);
  }

  // What is listed in two halves is a set of well-formed resources with distinct keys, so
  // planning and computing are always possible.
  lemma ListingIsValid(half: set<WSAResource>, ws: Workloads)
    requires ValidSet(half) && (forall w :: w in half ==> w.Namespaced?) && ValidWorkloads(ws)
    ensures ValidSet(half + LivePart(ws, false))
  {
    PartIsValid(ws, false);
    forall w | w in half ensures w.GetKey().namespace != "" {
      assert WellFormed(w);
    }
  }

  lemma CompiledState(hash: string -> string, rs: set<WSAResource>) returns (state: ClusterState)
    requires ValidSet(rs)
    ensures IsCompiled(hash, rs, state)
  {
    hide WellFormed, TableOf, NameOf, VocabularyOf;
    var t := TableOf(rs);
    var names := set s | s in t :: NameOf(hash, t, s);
    var m := map n | n in names :: var s :| s in t && NameOf(hash, t, s) == n; t[s];
    state := ClusterState(ScopeToSA(hash, t), m, VocabularyOf(rs));
  }

  ghost predicate JobInv(hash: string -> string, job: Job) {
    match job
    case Half(listed) => ValidSet(listed) && forall w :: w in listed ==> w.Namespaced?
    case Ready(listed, state, _) => IsCompiled(hash, listed, state)
  }

  // From the third collection on only listed resources are bound.
  ghost predicate CollectedInv(s: State) {
    s.batch.Some? && s.batch.value.Ready? && s.batch.value.collected >= 3 ==> s.bound <= Keys(s.batch.value.listed)
  }

  ghost predicate Inv(hash: string -> string, s: State) {
    && ValidWorkloads(s.workloads)
    && (s.batch.Some? ==> JobInv(hash, s.batch.value))
    && (forall id :: id in s.tasks ==> JobInv(hash, s.tasks[id].job))
    && CollectedInv(s)
  }

  lemma UserKeepsInv(hash: string -> string, s: State, step: Step, s': State)
    requires Inv(hash, s) && UserNext(s, step, s')
    ensures Inv(hash, s')
  {
    hide WellFormed, JobInv, InMaps;
  }

  lemma BatchKeepsInv(hash: string -> string, s: State, step: Step, s': State)
    requires Inv(hash, s) && BatchNext(hash, s, step, s')
    ensures Inv(hash, s')
  {
    hide WellFormed, IsCompiled, ValidWorkloads, ValidSet;
    PartIsValid(s.workloads, true);
  }

  lemma TaskKeepsInv(hash: string -> string, s: State, step: Step, s': State)
    requires Inv(hash, s) && TaskNext(hash, s, step, s')
    ensures Inv(hash, s')
  {
    hide WellFormed, IsCompiled, ValidWorkloads, ValidSet;
    PartIsValid(s.workloads, true);
  }

  lemma {:induction false} RunKeepsInv(hash: string -> string, run: seq<State>, steps: seq<Step>, i: nat)
    requires IsRun(hash, run, steps) && Inv(hash, run[0]) && i < |run|
    ensures Inv(hash, run[i])
  {
    hide Inv, UserNext, BatchNext, TaskNext;
    if i > 0 {
      RunKeepsInv(hash, run, steps, i - 1);
      var s, step, s' := run[i - 1], steps[i - 1], run[i];
      assert Next(hash, s, step, run[i - 1 + 1]);
      if UserNext(s, step, s') { UserKeepsInv(hash, s, step, s'); }
      else if BatchNext(hash, s, step, s') { BatchKeepsInv(hash, s, step, s'); }
      else { TaskKeepsInv(hash, s, step, s'); }
    }
  }

  lemma InitInv(hash: string -> string, s: State)
    requires Init(s)
    ensures Inv(hash, s)
  {}

  // ---- Snapshot consistency

  ghost predicate HalfListed(run: seq<State>, i: nat, half: set<WSAResource>)
    requires i < |run|
  {
    exists a :: 0 <= a <= i && half == LivePart(run[a].workloads, true)
  }

  // The set was listed in the run up to state i, its two halves one after the other, or
  // nothing has been listed since the start or a restart.
  ghost predicate WasListed(run: seq<State>, i: nat, rs: set<WSAResource>)
    requires i < |run|
  {
    || rs == {}
    || exists a, b :: 0 <= a <= b <= i
         && rs == LivePart(run[a].workloads, true) + LivePart(run[b].workloads, false)
  }

  ghost predicate JobListed(run: seq<State>, i: nat, job: Job)
    requires i < |run|
  {
    match job
    case Half(listed) => HalfListed(run, i, listed)
    case Ready(listed, _, _) => WasListed(run, i, listed)
  }

  ghost predicate IsCompiledLookup(hash: string -> string, state: ClusterState, rs: set<WSAResource>) {
    ValidSet(rs) && ScopeComputation(state.vocabulary, state.scopeToSA) == Compile(hash, rs)
  }

  ghost predicate EngineListed(hash: string -> string, run: seq<State>, i: nat)
    requires i < |run|
  {
    exists rs :: WasListed(run, i, rs) && IsCompiledLookup(hash, run[i].engine, rs)
  }

  ghost predicate Provenance(hash: string -> string, run: seq<State>, i: nat)
    requires i < |run|
  {
    && EngineListed(hash, run, i)
    && (run[i].batch.Some? ==> JobListed(run, i, run[i].batch.value))
    && (forall id :: id in run[i].tasks ==> JobListed(run, i, run[i].tasks[id].job))
  }

  lemma InitProvenance(hash: string -> string, run: seq<State>)
    requires |run| > 0 && Init(run[0])
    ensures Provenance(hash, run, 0)
  {
    NoStateIsListed(hash, run, 0);
  }

  lemma NoStateIsListed(hash: string -> string, run: seq<State>, i: nat)
    requires i < |run| && run[i].engine == NO_STATE
    ensures EngineListed(hash, run, i)
  {
    var rs: set<WSAResource> := {};
    assert forall d: Dim :: VocabularyOf(rs)[d] == KnownValues(rs, d) == {};
    assert VocabularyOf(rs) == [{}, {}, {}, {}, {}, {}];
    assert TableOf(rs) == map[];
    assert ScopeToSA(hash, TableOf(rs)) == map[];
    assert WasListed(run, i, rs) && IsCompiledLookup(hash, run[i].engine, rs);
  }

  lemma StaysListed(run: seq<State>, i: nat)
    requires i + 1 < |run|
    ensures forall half :: HalfListed(run, i, half) ==> HalfListed(run, i + 1, half)
    ensures forall rs :: WasListed(run, i, rs) ==> WasListed(run, i + 1, rs)
    ensures HalfListed(run, i + 1, LivePart(run[i].workloads, true))
    ensures forall half :: HalfListed(run, i, half) ==> WasListed(run, i + 1, half + LivePart(run[i].workloads, false))
  {
    hide LivePart;
    forall half | HalfListed(run, i, half)
      ensures HalfListed(run, i + 1, half) && WasListed(run, i + 1, half + LivePart(run[i].workloads, false))
    {
      var a :| 0 <= a <= i && half == LivePart(run[a].workloads, true);
      assert 0 <= a <= i <= i + 1;
    }
  }

  lemma JobStaysListed(run: seq<State>, i: nat, job: Job)
    requires i + 1 < |run| && JobListed(run, i, job)
    ensures JobListed(run, i + 1, job)
  {
    StaysListed(run, i);
  }

  lemma EngineStaysListed(hash: string -> string, run: seq<State>, i: nat)
    requires i + 1 < |run| && EngineListed(hash, run, i)
    requires run[i + 1].engine.scopeToSA == run[i].engine.scopeToSA
        && run[i + 1].engine.vocabulary == run[i].engine.vocabulary
    ensures EngineListed(hash, run, i + 1)
  {
    hide WasListed, Compile, ValidSet;
    StaysListed(run, i);
    var rs :| WasListed(run, i, rs) && IsCompiledLookup(hash, run[i].engine, rs);
    assert WasListed(run, i + 1, rs) && IsCompiledLookup(hash, run[i + 1].engine, rs);
  }

  lemma EngineSwapped(hash: string -> string, run: seq<State>, i: nat, rs: set<WSAResource>, state: ClusterState)
    requires i + 1 < |run| && WasListed(run, i, rs) && IsCompiled(hash, rs, state)
    requires run[i + 1].engine.scopeToSA == state.scopeToSA && run[i + 1].engine.vocabulary == state.vocabulary
    ensures EngineListed(hash, run, i + 1)
  {
    hide WasListed, Compile, ValidSet, IsSAToWSAs;
    StaysListed(run, i);
    assert WasListed(run, i + 1, rs) && IsCompiledLookup(hash, run[i + 1].engine, rs);
  }

  lemma BatchKeepsProvenance(hash: string -> string, run: seq<State>, i: nat, step: Step)
    requires i + 1 < |run| && Inv(hash, run[i]) && Provenance(hash, run, i) && BatchNext(hash, run[i], step, run[i + 1])
    ensures Provenance(hash, run, i + 1)
  {
    hide WasListed, HalfListed, IsCompiled, EngineListed, LivePart, ValidWorkloads, CollectedInv;
    StaysListed(run, i);
    forall id | id in run[i].tasks ensures JobListed(run, i + 1, run[i].tasks[id].job) {
      JobStaysListed(run, i, run[i].tasks[id].job);
    }
    if step.BatchPublish? {
      EngineSwapped(hash, run, i, run[i].batch.value.listed, run[i].batch.value.state);
    } else {
      EngineStaysListed(hash, run, i);
    }
  }

  lemma TaskKeepsProvenance(hash: string -> string, run: seq<State>, i: nat, step: Step)
    requires i + 1 < |run| && Inv(hash, run[i]) && Provenance(hash, run, i) && TaskNext(hash, run[i], step, run[i + 1])
    ensures Provenance(hash, run, i + 1)
  {
    hide WasListed, HalfListed, IsCompiled, EngineListed, LivePart, ValidWorkloads, CollectedInv;
    StaysListed(run, i);
    if run[i].batch.Some? { JobStaysListed(run, i, run[i].batch.value); }
    if step.TaskSwap? {
      var job := run[i].tasks[step.id].job;
      assert JobInv(hash, job) && JobListed(run, i, job);
      EngineSwapped(hash, run, i, job.listed, job.state);
    } else {
      EngineStaysListed(hash, run, i);
    }
    var tasks' := run[i + 1].tasks;
    forall id | id in tasks' ensures JobListed(run, i + 1, tasks'[id].job) {
      if id in run[i].tasks { JobStaysListed(run, i, run[i].tasks[id].job); }
      if step.TaskCompute? && id == step.id { assert JobListed(run, i, run[i].tasks[id].job); }
    }
  }

  lemma UserKeepsProvenance(hash: string -> string, run: seq<State>, i: nat, step: Step)
    requires i + 1 < |run| && Provenance(hash, run, i) && UserNext(run[i], step, run[i + 1])
    ensures Provenance(hash, run, i + 1)
  {
    hide JobListed, EngineListed, InMaps, WellFormed;
    if step.Restart? {
      NoStateIsListed(hash, run, i + 1);
      return;
    }
    assert run[i + 1].engine == run[i].engine && run[i + 1].batch == run[i].batch && run[i + 1].tasks == run[i].tasks;
    EngineStaysListed(hash, run, i);
    if run[i].batch.Some? { JobStaysListed(run, i, run[i].batch.value); }
    forall id | id in run[i].tasks ensures JobListed(run, i + 1, run[i].tasks[id].job) {
      JobStaysListed(run, i, run[i].tasks[id].job);
    }
  }

  lemma {:induction false} RunKeepsProvenance(hash: string -> string, run: seq<State>, steps: seq<Step>, i: nat)
    requires IsRun(hash, run, steps) && Init(run[0]) && i < |run|
    ensures Provenance(hash, run, i)
  {
    hide Provenance, UserNext, BatchNext, TaskNext, Inv;
    if i == 0 {
      InitProvenance(hash, run);
    } else {
      InitInv(hash, run[0]);
      RunKeepsInv(hash, run, steps, i - 1);
      RunKeepsProvenance(hash, run, steps, i - 1);
      assert Next(hash, run[i - 1], steps[i - 1], run[i - 1 + 1]);
      var s, step, s' := run[i - 1], steps[i - 1], run[i];
      if UserNext(s, step, s') { UserKeepsProvenance(hash, run, i - 1, step); }
      else if BatchNext(hash, s, step, s') { BatchKeepsProvenance(hash, run, i - 1, step); }
      else { TaskKeepsProvenance(hash, run, i - 1, step); }
    }
  }

  // In every reachable state vocabulary and scope map come from one set that was listed
  // before, so every lookup is the compiled answer for that set.
  lemma SnapshotConsistency(hash: string -> string, run: seq<State>, steps: seq<Step>, i: nat)
    requires IsRun(hash, run, steps) && Init(run[0]) && i < |run|
    ensures exists rs :: WasListed(run, i, rs) && ValidSet(rs) && forall pod: Scope ::
      ScopeComputation(run[i].engine.vocabulary, run[i].engine.scopeToSA).GetServiceAccountForScope(pod)
      == Answer(hash, rs, pod)
  {
    hide WasListed, ValidSet, Compile, JobListed;
    RunKeepsProvenance(hash, run, steps, i);
    var rs :| WasListed(run, i, rs) && IsCompiledLookup(hash, run[i].engine, rs);
  }

  // ---- The account-to-resources map

  ghost predicate RebuildStep(s: State, step: Step) {
    step.TaskSwap? && step.id in s.tasks && s.tasks[step.id].kind.Rebuild?
  }

  // How many collections have succeeded since the last plan.
  ghost function Collections(steps: seq<Step>): nat {
    if steps == [] then 0 else
      var last := steps[|steps| - 1];
      if last.BatchPlan? then 0 else Collections(steps[..|steps| - 1]) + (if last.BatchCollect? then 1 else 0)
  }

  lemma {:induction false} CollectedAreCounted(hash: string -> string, run: seq<State>, steps: seq<Step>, i: nat)
    requires IsRun(hash, run, steps) && Init(run[0]) && i < |run|
    requires run[i].batch.Some? && run[i].batch.value.Ready?
    ensures Collections(steps[..i]) == run[i].batch.value.collected
  {
    hide InMaps, IsCompiled, WellFormed;
    if i > 0 {
      assert Next(hash, run[i - 1], steps[i - 1], run[i - 1 + 1]);
      assert steps[..i][..i-1] == steps[..i-1];
      if run[i - 1].batch.Some? && run[i - 1].batch.value.Ready? { CollectedAreCounted(hash, run, steps, i - 1); }
    }
  }

  lemma StepForgets(hash: string -> string, s: State, step: Step, s': State, k: Key)
    requires Next(hash, s, step, s') && InMaps(s.engine.saToWSAs, k) && !InMaps(s'.engine.saToWSAs, k)
    ensures step.BatchPublish? || RebuildStep(s, step) || step.Restart?
    ensures step.BatchPublish? ==> s.batch.Some? && s.batch.value.Ready? && s.batch.value.collected == 4
  {
    hide InMaps, IsCompiled, WellFormed;
  }

  // Over every run: a key leaves the map only at a restart, where a rebuild is swapped in, or where a
  // batch is published of which all four collections have succeeded, so that what it has
  // not listed is no longer bound.
  lemma {:induction false} OnlyPublishOrRebuildForgets(hash: string -> string, run: seq<State>, steps: seq<Step>,
                                                       i: nat, j: nat, k: Key) returns (m: nat)
    requires IsRun(hash, run, steps) && Init(run[0]) && i <= j < |run|
    requires InMaps(run[i].engine.saToWSAs, k) && !InMaps(run[j].engine.saToWSAs, k)
    ensures i <= m < j && InMaps(run[m].engine.saToWSAs, k) && !InMaps(run[m + 1].engine.saToWSAs, k)
    ensures RebuildStep(run[m], steps[m]) || steps[m] == Restart || (
              && steps[m].BatchPublish? && run[m].batch.Some? && Collections(steps[..m]) == 4
              && run[m].bound <= Keys(run[m].batch.value.listed))
    decreases j
  {
    hide InMaps, Next, Inv;
    if InMaps(run[j - 1].engine.saToWSAs, k) {
      m := j - 1;
      assert Next(hash, run[m], steps[m], run[m + 1]);
      StepForgets(hash, run[m], steps[m], run[m + 1], k);
      InitInv(hash, run[0]);
      RunKeepsInv(hash, run, steps, m);
      if steps[m].BatchPublish? {
        CollectedAreCounted(hash, run, steps, m);
        assert CollectedInv(run[m]) by { InvCollected(hash, run[m]); }
      }
    } else {
      m := OnlyPublishOrRebuildForgets(hash, run, steps, i, j - 1, k);
    }
  }

  lemma InvCollected(hash: string -> string, s: State)
    requires Inv(hash, s)
    ensures CollectedInv(s)
  {}

  // ---- Deletion

  // k is being deleted and waits for its finalizer.
  ghost predicate Leaving(s: State, k: Key) {
    k in s.workloads && s.workloads[k].deleting && s.workloads[k].finalizer
  }

  // Nothing is bound to k, and the batch at work, if any, will not bind it.
  ghost predicate Unbound(s: State, k: Key) {
    k !in s.bound && (s.batch.Some? && k in Keys(s.batch.value.listed) ==>
      s.batch.value.Ready? && s.batch.value.collected > 0)
  }

  ghost predicate Settled(s: State, k: Key) {
    InMaps(s.engine.saToWSAs, k) || Unbound(s, k)
  }

  // The published map holds k if the batch has listed k.
  ghost predicate PublishHolds(s: State, step: Step, k: Key) {
    step.BatchPublish? && s.batch.Some? && s.batch.value.Ready? && k in Keys(s.batch.value.listed) ==>
      InMaps(s.batch.value.state.saToWSAs, k)
  }

  // With distinct names every batch publishes what it has listed.
  lemma DistinctNamesHold(hash: string -> string, s: State, step: Step, k: Key)
    requires Inv(hash, s)
    requires s.batch.Some? && s.batch.value.Ready? ==>
      ValidSet(s.batch.value.listed) && DistinctNames(hash, TableOf(s.batch.value.listed))
    ensures PublishHolds(s, step, k)
  {
    hide InMaps, WellFormed, DistinctNames, ValidWorkloads, CollectedInv, TableOf, IsSAToWSAs, Compile;
    if s.batch.Some? && s.batch.value.Ready? {
      InMapsIffResource(hash, s.batch.value.listed, s.batch.value.state, k);
    }
  }

  // There is no restart, no rebuild is swapped in, and no publish loses k.
  ghost predicate Orderly(hash: string -> string, run: seq<State>, steps: seq<Step>, k: Key) {
    IsRun(hash, run, steps)
    && forall m :: 0 <= m < |steps| ==>
      steps[m] != Restart && !RebuildStep(run[m], steps[m]) && PublishHolds(run[m], steps[m], k)
  }

  // The last step is the first to remove the finalizer of k.
  ghost predicate EndsWithRemoval(steps: seq<Step>, k: Key) {
    && steps != [] && steps[|steps| - 1] == RemoveFinalizer(k)
    && forall m :: 0 <= m < |steps| - 1 ==> steps[m] != RemoveFinalizer(k)
  }

  // Orderly runs remove the finalizer of k only when nothing is bound to it.
  ghost predicate WaitsForCollection(hash: string -> string, s: State, k: Key) {
    forall run: seq<State>, steps :: Orderly(hash, run, steps, k) && run[0] == s && EndsWithRemoval(steps, k) ==>
      k !in run[|steps| - 1].bound
  }

  // All runs do.
  ghost predicate AlwaysWaits(hash: string -> string, s: State, k: Key) {
    forall run: seq<State>, steps :: IsRun(hash, run, steps) && run[0] == s && EndsWithRemoval(steps, k) ==>
      k !in run[|steps| - 1].bound
  }

  lemma DeletingIsNotListed(ws: Workloads, k: Key, namespaced: bool)
    requires ValidWorkloads(ws) && k in ws && ws[k].deleting
    ensures k !in Keys(LivePart(ws, namespaced))
  {
    hide WellFormed;
  }

  lemma StaysLeaving(hash: string -> string, s: State, step: Step, s': State, k: Key)
    requires Next(hash, s, step, s') && Leaving(s, k) && step != RemoveFinalizer(k)
    ensures Leaving(s', k)
  {
    hide InMaps, WellFormed, IsCompiled;
  }

  lemma StaysUnbound(hash: string -> string, s: State, step: Step, s': State, k: Key)
    requires Next(hash, s, step, s') && Inv(hash, s) && Leaving(s, k) && Unbound(s, k)
    ensures Unbound(s', k)
  {
    hide InMaps, WellFormed, IsCompiled;
    assert k !in Keys(LivePart(s.workloads, true)) && k !in Keys(LivePart(s.workloads, false)) by {
      DeletingIsNotListed(s.workloads, k, true);
      DeletingIsNotListed(s.workloads, k, false);
    }
    hide Inv, LivePart;
    if step.BatchPlan? {
      assert Keys(s.batch.value.listed + LivePart(s.workloads, false))
             == Keys(s.batch.value.listed) + Keys(LivePart(s.workloads, false));
    }
    hide Keys;
  }

  lemma StaysSettled(hash: string -> string, s: State, step: Step, s': State, k: Key)
    requires Next(hash, s, step, s') && Inv(hash, s) && Leaving(s, k) && Settled(s, k)
    requires step != Restart && !RebuildStep(s, step) && PublishHolds(s, step, k)
    ensures Settled(s', k)
  {
    hide InMaps, Inv, LivePart, WellFormed, IsCompiled;
    if Unbound(s, k) {
      hide Next;
      StaysUnbound(hash, s, step, s', k);
    } else if step.BatchPublish? && k !in Keys(s.batch.value.listed) {
      InvCollected(hash, s);
    }
  }

  lemma {:induction false} SettledAlong(hash: string -> string, run: seq<State>, steps: seq<Step>, k: Key, i: nat)
    requires Orderly(hash, run, steps, k) && Inv(hash, run[0]) && Leaving(run[0], k) && Settled(run[0], k)
    requires i < |run| && forall m :: 0 <= m < i ==> steps[m] != RemoveFinalizer(k)
    ensures Leaving(run[i], k) && Settled(run[i], k)
  {
    hide Inv, Leaving, Settled, RebuildStep, PublishHolds, Next;
    if i > 0 {
      SettledAlong(hash, run, steps, k, i - 1);
      RunKeepsInv(hash, run, steps, i - 1);
      assert Next(hash, run[i - 1], steps[i - 1], run[i - 1 + 1]);
      StaysLeaving(hash, run[i - 1], steps[i - 1], run[i], k);
      StaysSettled(hash, run[i - 1], steps[i - 1], run[i], k);
    }
  }

  lemma {:induction false} UnboundAlong(hash: string -> string, run: seq<State>, steps: seq<Step>, k: Key, i: nat)
    requires IsRun(hash, run, steps) && Inv(hash, run[0]) && Leaving(run[0], k) && Unbound(run[0], k)
    requires i < |run| && forall m :: 0 <= m < i ==> steps[m] != RemoveFinalizer(k)
    ensures Leaving(run[i], k) && Unbound(run[i], k)
  {
    hide Inv, Leaving, Unbound, Next;
    if i > 0 {
      UnboundAlong(hash, run, steps, k, i - 1);
      RunKeepsInv(hash, run, steps, i - 1);
      assert Next(hash, run[i - 1], steps[i - 1], run[i - 1 + 1]);
      StaysLeaving(hash, run[i - 1], steps[i - 1], run[i], k);
      StaysUnbound(hash, run[i - 1], steps[i - 1], run[i], k);
    }
  }

  lemma RemovalFindsUnknown(hash: string -> string, s: State, s': State, k: Key)
    requires Next(hash, s, RemoveFinalizer(k), s')
    ensures !InMaps(s.engine.saToWSAs, k)
  {
    hide InMaps, IsCompiled, WellFormed;
  }

  // A batch at work can still bind k.
  lemma BecomesBound(hash: string -> string, s: State, k: Key) returns (run: seq<State>, steps: seq<Step>)
    requires Inv(hash, s) && !Unbound(s, k)
    ensures IsRun(hash, run, steps) && run[0] == s
    ensures var last := run[|steps|];
      k in last.bound && last.workloads == s.workloads && last.engine == s.engine && last.tasks == s.tasks
    ensures forall m :: 0 <= m < |steps| ==> steps[m].BatchPlan? || steps[m].BatchEnsure?
  {
    hide InMaps, WellFormed, IsCompiled, ValidWorkloads, ValidSet, CollectedInv, LivePart;
    run, steps := [s], [];
    if k !in s.bound {
      var s1 := s;
      if s.batch.value.Half? {
        var half := s.batch.value.listed;
        ListingIsValid(half, s.workloads);
        var state := CompiledState(hash, half + LivePart(s.workloads, false));
        s1 := s.(batch := Some(Ready(half + LivePart(s.workloads, false), state, 0)));
        assert BatchNext(hash, s, BatchPlan(state), s1);
        RunGrows(hash, run, steps, BatchPlan(state), s1);
        run, steps := run + [s1], steps + [BatchPlan(state)];
      }
      var s2 := s1.(bound := s1.bound + {k});
      assert BatchNext(hash, s1, BatchEnsure(s2.bound), s2);
      RunGrows(hash, run, steps, BatchEnsure(s2.bound), s2);
      run, steps := run + [s2], steps + [BatchEnsure(s2.bound)];
    }
  }

  lemma RemovedWhileBound(hash: string -> string, s: State, k: Key, run: seq<State>, steps: seq<Step>)
    returns (run': seq<State>, steps': seq<Step>)
    requires IsRun(hash, run, steps) && run[0] == s && (forall m :: 0 <= m < |steps| ==> !steps[m].RemoveFinalizer?)
    requires Leaving(run[|steps|], k) && !InMaps(run[|steps|].engine.saToWSAs, k) && k in run[|steps|].bound
    ensures IsRun(hash, run', steps') && run'[0] == s && EndsWithRemoval(steps', k) && k in run'[|steps'| - 1].bound
    ensures |run'| == |run| + 1 && run'[..|run|] == run && steps' == steps + [RemoveFinalizer(k)]
  {
    hide InMaps, WellFormed, IsCompiled;
    var last := run[|steps|];
    var s' := last.(workloads := WithoutFinalizer(last.workloads, k));
    assert UserNext(last, RemoveFinalizer(k), s');
    RunGrows(hash, run, steps, RemoveFinalizer(k), s');
    run', steps' := run + [s'], steps + [RemoveFinalizer(k)];
  }

  // The interlock, exactly: from a state in which k is being deleted, every orderly run
  // removes the finalizer of k only when no managed RoleBinding is left that k owns, iff the
  // engine knows k, or nothing is bound to k nor about to be.
  lemma WaitsIffSettled(hash: string -> string, s: State, k: Key)
    requires Inv(hash, s) && Leaving(s, k)
    ensures WaitsForCollection(hash, s, k) <==> Settled(s, k)
  {
    hide Inv, Next, InMaps, Leaving, Unbound;
    if Settled(s, k) {
      forall run: seq<State>, steps | Orderly(hash, run, steps, k) && run[0] == s && EndsWithRemoval(steps, k)
        ensures k !in run[|steps| - 1].bound
      {
        var i := |steps| - 1;
        SettledAlong(hash, run, steps, k, i);
        assert Next(hash, run[i], steps[i], run[i + 1]);
        RemovalFindsUnknown(hash, run[i], run[i + 1], k);
        UnboundHasNone(run[i], k);
      }
    } else {
      var run, steps := UnsettledViolates(hash, s, k);
    }
  }

  lemma UnsettledViolates(hash: string -> string, s: State, k: Key) returns (run: seq<State>, steps: seq<Step>)
    requires Inv(hash, s) && Leaving(s, k) && !Settled(s, k)
    ensures Orderly(hash, run, steps, k) && run[0] == s && EndsWithRemoval(steps, k) && k in run[|steps| - 1].bound
  {
    hide Inv, Next, InMaps, Leaving, Unbound;
    var a, b := BecomesBound(hash, s, k);
    SameLeaving(s, a[|b|], k);
    run, steps := RemovedWhileBound(hash, s, k, a, b);
    forall m | 0 <= m < |steps|
      ensures steps[m] != Restart && !RebuildStep(run[m], steps[m]) && PublishHolds(run[m], steps[m], k)
    {
      assert m < |b| ==> steps[m] == b[m];
    }
  }

  lemma UnboundHasNone(s: State, k: Key)
    requires Unbound(s, k)
    ensures k !in s.bound
  {}

  lemma SameLeaving(s: State, s': State, k: Key)
    requires Leaving(s, k) && s'.workloads == s.workloads
    ensures Leaving(s', k)
  {}

  lemma NewId(tasks: map<nat, Task>) returns (id: nat)
    ensures id !in tasks
  {
    id := 0;
    var todo := tasks.Keys;
    while todo != {}
      invariant forall x :: x in tasks && x !in todo ==> x < id
    {
      var x :| x in todo;
      todo := todo - {x};
      if x >= id { id := x + 1; }
    }
  }

  lemma NotListedNotInMaps(hash: string -> string, s: State, rs: set<WSAResource>, state: ClusterState, k: Key)
    requires ValidWorkloads(s.workloads) && Leaving(s, k)
    requires rs == LivePart(s.workloads, true) + LivePart(s.workloads, false) && IsCompiled(hash, rs, state)
    ensures !InMaps(state.saToWSAs, k)
  {
    hide WellFormed, NameOf, TableOf;
    DeletingIsNotListed(s.workloads, k, true);
    DeletingIsNotListed(s.workloads, k, false);
    assert k !in Keys(rs);
    if InMaps(state.saToWSAs, k) {
      var n :| n in state.saToWSAs && k in state.saToWSAs[n];
      var u :| u in TableOf(rs) && NameOf(hash, TableOf(rs), u) == n && state.saToWSAs[n] == TableOf(rs)[u];
      TableKeysAreResources(rs, u, k);
    }
  }

  // A rebuild makes the engine forget k, whatever is bound to it.
  lemma Rebuilds(hash: string -> string, s: State, k: Key) returns (run: seq<State>, steps: seq<Step>)
    requires Inv(hash, s) && Leaving(s, k)
    ensures IsRun(hash, run, steps) && run[0] == s && |steps| == 3
    ensures steps[0].TaskList? && steps[1].TaskCompute? && steps[2].TaskSwap?
    ensures run[3].workloads == s.workloads && run[3].bound == s.bound && !InMaps(run[3].engine.saToWSAs, k)
  {
    hide InMaps, WellFormed, IsCompiled, Inv, ValidWorkloads, ValidSet, LivePart;
    assert ValidWorkloads(s.workloads) by { InvWorkloads(hash, s); }
    var id := NewId(s.tasks);
    var half := LivePart(s.workloads, true);
    PartIsValid(s.workloads, true);
    ListingIsValid(half, s.workloads);
    var rs := half + LivePart(s.workloads, false);
    var state := CompiledState(hash, rs);
    var s1 := s.(tasks := s.tasks[id := Task(Rebuild, Half(half))]);
    var s2 := s.(tasks := s.tasks[id := Task(Rebuild, Ready(rs, state, 0))]);
    var s3 := s.(tasks := s2.tasks - {id}, engine := state);
    run := [s, s1, s2, s3];
    steps := [TaskList(id, Rebuild), TaskCompute(id, state), TaskSwap(id)];
    assert TaskNext(hash, s, steps[0], s1);
    assert s1.tasks[id := Task(Rebuild, Ready(rs, state, 0))] == s2.tasks;
    assert TaskNext(hash, s1, steps[1], s2);
    assert TaskNext(hash, s2, steps[2], s3);
    NotListedNotInMaps(hash, s, rs, state, k);
  }

  lemma InvWorkloads(hash: string -> string, s: State)
    requires Inv(hash, s)
    ensures ValidWorkloads(s.workloads)
  {}

  lemma RunsJoin(hash: string -> string, a: seq<State>, b: seq<Step>, c: seq<State>, d: seq<Step>)
    requires IsRun(hash, a, b) && IsRun(hash, c, d) && a[|b|] == c[0]
    ensures IsRun(hash, a + c[1..], b + d) && (a + c[1..])[|b + d|] == c[|d|]
  {
    hide Next;
    var run, steps := a + c[1..], b + d;
    forall i | 0 <= i < |steps| ensures Next(hash, run[i], steps[i], run[i + 1]) {
      if i >= |b| {
        assert Next(hash, c[i - |b|], d[i - |b|], c[i - |b| + 1]);
        assert run[i] == c[i - |b|] && run[i + 1] == c[i - |b| + 1];
      } else {
        assert Next(hash, a[i], b[i], a[i + 1]);
      }
    }
  }

  // Whatever is bound to k: after a rebuild its finalizer can go.
  lemma RebuildSkipsCollection(hash: string -> string, s: State, k: Key) returns (run: seq<State>, steps: seq<Step>)
    requires Inv(hash, s) && Leaving(s, k) && k in s.bound
    ensures IsRun(hash, run, steps) && run[0] == s && |steps| == 4
    ensures steps[0].TaskList? && steps[1].TaskCompute? && steps[2].TaskSwap? && steps[3] == RemoveFinalizer(k)
    ensures k in run[3].bound
  {
    hide Inv, Next, InMaps, Leaving;
    var c, d := Rebuilds(hash, s, k);
    SameLeaving(s, c[3], k);
    run, steps := RemovedWhileBound(hash, s, k, c, d);
    assert run[..4] == c;
  }

  // Likewise after a restart, or under a new leader, whose map is empty.
  lemma RestartSkipsCollection(hash: string -> string, s: State, k: Key) returns (run: seq<State>, steps: seq<Step>)
    requires Leaving(s, k) && k in s.bound
    ensures IsRun(hash, run, steps) && run[0] == s && steps == [Restart, RemoveFinalizer(k)]
    ensures k in run[1].bound
  {
    hide IsCompiled, WellFormed;
    var s' := s.(engine := NO_STATE, batch := None, tasks := map[]);
    assert UserNext(s, Restart, s');
    run, steps := RemovedWhileBound(hash, s, k, [s, s'], [Restart]);
  }

  // Without any assumption on the run only the second alternative is left: a rebuild drops
  // a key that is being deleted, and its finalizer can go while its bindings are there.
  lemma AlwaysWaitsIffUnbound(hash: string -> string, s: State, k: Key)
    requires Inv(hash, s) && Leaving(s, k)
    ensures AlwaysWaits(hash, s, k) <==> Unbound(s, k)
  {
    hide Inv, Next, InMaps, Leaving, Unbound;
    if Unbound(s, k) {
      forall run: seq<State>, steps | IsRun(hash, run, steps) && run[0] == s && EndsWithRemoval(steps, k)
        ensures k !in run[|steps| - 1].bound
      {
        UnboundAlong(hash, run, steps, k, |steps| - 1);
        UnboundHasNone(run[|steps| - 1], k);
      }
    } else {
      var a, b := BecomesBound(hash, s, k);
      RunKeepsInv(hash, a, b, |b|);
      SameLeaving(s, a[|b|], k);
      var c, d := Rebuilds(hash, a[|b|], k);
      RunsJoin(hash, a, b, c, d);
      SameLeaving(a[|b|], c[3], k);
      var run, steps := RemovedWhileBound(hash, s, k, a + c[1..], b + d);
    }
  }

  // ---- The exceptions happen

  ghost predicate NoRebuilds(run: seq<State>, steps: seq<Step>)
    requires |run| == |steps| + 1
  {
    forall m :: 0 <= m < |steps| ==> steps[m] != Restart && !RebuildStep(run[m], steps[m])
  }

  // A batch lists what is live, plans it and binds k.
  lemma BatchBinds(hash: string -> string, s: State, rs: set<WSAResource>, state: ClusterState, k: Key)
    returns (run: seq<State>, steps: seq<Step>)
    requires s.batch == None && s.bound == {} && k in Keys(rs) && IsCompiled(hash, rs, state)
    requires LivePart(s.workloads, true) == rs && LivePart(s.workloads, false) == {}
    ensures IsRun(hash, run, steps) && run[0] == s && steps == [BatchList, BatchPlan(state), BatchEnsure({k})]
    ensures run[3] == s.(batch := Some(Ready(rs, state, 0)), bound := {k})
  {
    hide InMaps, IsCompiled, LivePart, Keys, WellFormed;
    var s1, s2 := s.(batch := Some(Half(rs))), s.(batch := Some(Ready(rs, state, 0)));
    var s3 := s2.(bound := {k});
    assert rs + LivePart(s1.workloads, false) == rs;
    assert BatchNext(hash, s, BatchList, s1) && BatchNext(hash, s1, BatchPlan(state), s2);
    assert BatchNext(hash, s2, BatchEnsure({k}), s3);
    run, steps := [s, s1, s2, s3], [BatchList, BatchPlan(state), BatchEnsure({k})];
  }

  // Users create w, the controller adds its finalizer.
  lemma Created(hash: string -> string, k: Key, w: WSAResource) returns (run: seq<State>, steps: seq<Step>)
    requires WellFormed(w) && w.GetKey() == k
    ensures IsRun(hash, run, steps) && steps == [Create(k, w), AddFinalizer(k)]
    ensures run[0] == State(map[], NO_STATE, None, map[], {})
    ensures run[2] == run[0].(workloads := map[k := Workload(w, false, true)])
  {
    hide InMaps, IsCompiled, WellFormed;
    var s0 := State(map[], NO_STATE, None, map[], {});
    var s1 := s0.(workloads := map[k := Workload(w, false, false)]);
    var s2 := s0.(workloads := map[k := Workload(w, false, true)]);
    assert UserNext(s0, Create(k, w), s1) && UserNext(s1, AddFinalizer(k), s2);
    run, steps := [s0, s1, s2], [Create(k, w), AddFinalizer(k)];
  }

  lemma Deleted(hash: string -> string, s: State, k: Key, w: WSAResource) returns (run: seq<State>, steps: seq<Step>)
    requires s.workloads == map[k := Workload(w, false, true)] && s.engine == NO_STATE
    ensures IsRun(hash, run, steps) && run[0] == s && steps == [Delete(k), RemoveFinalizer(k)]
    ensures run[1].bound == s.bound
  {
    hide IsCompiled, WellFormed;
    var s1 := s.(workloads := map[k := Workload(w, true, true)]);
    var s2 := s.(workloads := map[]);
    assert UserNext(s, Delete(k), s1);
    assert s1.workloads - {k} == map[];
    assert UserNext(s1, RemoveFinalizer(k), s2);
    run, steps := [s, s1, s2], [Delete(k), RemoveFinalizer(k)];
  }

  // A resource that is deleted while its first batch is at work, before anything has been
  // published: the empty map lets its finalizer go at once.
  lemma DeletedInFirstBatch(hash: string -> string, w: WSAResource) returns (run: seq<State>, steps: seq<Step>)
    requires WellFormed(w) && w.Namespaced?
    ensures IsRun(hash, run, steps) && Init(run[0]) && run[0].bound == {}
    ensures EndsWithRemoval(steps, w.GetKey()) && w.GetKey() in run[|steps| - 1].bound
    ensures Orderly(hash, run, steps, w.GetKey()) && forall m :: 0 <= m < |steps| ==> !steps[m].BatchPublish?
  {
    hide Next, IsCompiled, WellFormed, LivePart, InMaps;
    var k := w.GetKey();
    OneIsLive(k, w);
    OneIsValid(w);
    var state := CompiledState(hash, {w});
    var a, b := Created(hash, k, w);
    var c, d := BatchBinds(hash, a[2], {w}, state, k);
    var e, f := Deleted(hash, c[3], k, w);
    RunsJoin(hash, a, b, c, d);
    RunsJoin(hash, a + c[1..], b + d, e, f);
    run, steps := a + c[1..] + e[1..], b + d + f;
  }

  lemma OneIsValid(w: WSAResource)
    requires WellFormed(w)
    ensures ValidSet({w}) && w.GetKey() in Keys({w})
  {}

  lemma OneIsLive(k: Key, w: WSAResource)
    requires w.GetKey() == k && w.Namespaced?
    ensures var ws := map[k := Workload(w, false, true)];
      LivePart(ws, true) == {w} && LivePart(ws, false) == {}
  {
    var ws := map[k := Workload(w, false, true)];
    assert k in ws && ws[k].resource in Live(ws);
  }

  // A batch that loses a listed resource to a shared name, deleted before it is published.
  lemma LostInSharedName(hash: string -> string, s: State, k: Key) returns (run: seq<State>, steps: seq<Step>)
    requires Leaving(s, k) && k in s.bound && s.batch.Some? && s.batch.value.Ready? && s.batch.value.collected == 4
    requires !InMaps(s.batch.value.state.saToWSAs, k)
    ensures IsRun(hash, run, steps) && run[0] == s && steps == [BatchPublish, RemoveFinalizer(k)]
    ensures k in run[1].bound
  {
    hide InMaps, IsCompiled, WellFormed;
    var s' := s.(engine := s.batch.value.state, batch := None);
    assert BatchNext(hash, s, BatchPublish, s');
    run, steps := RemovedWhileBound(hash, s, k, [s, s'], [BatchPublish]);
  }

  function Waiting(ms: set<Dim>, deleting: bool): Workloads {
    map[Open().GetKey() := Workload(Open(), false, false), Narrow(ms).GetKey() := Workload(Narrow(ms), deleting, true)]
  }

  lemma PairIsLive(ms: set<Dim>)
    ensures LivePart(Waiting(ms, false), true) == Pair(ms) && LivePart(Waiting(ms, false), false) == {}
  {
    DifferentKeys(ms);
    var ws := Waiting(ms, false);
    assert ws[Open().GetKey()].resource in Live(ws) && ws[Narrow(ms).GetKey()].resource in Live(ws);
  }

  lemma DifferentKeys(ms: set<Dim>)
    ensures Open().GetKey() != Narrow(ms).GetKey()
  {
    DifferentNames();
  }

  // Users create the pair, and the controller adds its finalizer to the narrow one.
  lemma PairCreated(hash: string -> string, ms: set<Dim>) returns (run: seq<State>, steps: seq<Step>)
    ensures IsRun(hash, run, steps) && |steps| == 3 && run[0] == State(map[], NO_STATE, None, map[], {})
    ensures run[3] == run[0].(workloads := Waiting(ms, false))
    ensures forall m :: 0 <= m < 3 ==>
      !steps[m].RemoveFinalizer? && !steps[m].TaskSwap? && !steps[m].Restart?
  {
    hide InMaps, IsCompiled, WellFormed;
    var o, k := Open().GetKey(), Narrow(ms).GetKey();
    DifferentKeys(ms);
    WellFormedPair(ms);
    var s0 := State(map[], NO_STATE, None, map[], {});
    var s1 := s0.(workloads := map[o := Workload(Open(), false, false)]);
    var s2 := s0.(workloads := Waiting(ms, false)[k := Workload(Narrow(ms), false, false)]);
    var s3 := s0.(workloads := Waiting(ms, false));
    assert UserNext(s0, Create(o, Open()), s1) && UserNext(s1, Create(k, Narrow(ms)), s2);
    assert s2.workloads[k := s2.workloads[k].(finalizer := true)] == s3.workloads;
    assert UserNext(s2, AddFinalizer(k), s3);
    run, steps := [s0, s1, s2, s3], [Create(o, Open()), Create(k, Narrow(ms)), AddFinalizer(k)];
  }

  // A batch has listed and bound the pair.
  lemma PairGetsBound(hash: string -> string, ms: set<Dim>, state: ClusterState)
    returns (run: seq<State>, steps: seq<Step>)
    requires IsCompiled(hash, Pair(ms), state)
    ensures IsRun(hash, run, steps) && Init(run[0]) && |steps| == 6
    ensures run[6] == State(Waiting(ms, false), NO_STATE, Some(Ready(Pair(ms), state, 0)), map[], {Narrow(ms).GetKey()})
    ensures forall m :: 0 <= m < 6 ==>
      !steps[m].RemoveFinalizer? && !steps[m].TaskSwap? && !steps[m].Restart?
  {
    hide Next, InMaps, IsCompiled, LivePart, WellFormed;
    var k := Narrow(ms).GetKey();
    PairIsLive(ms);
    assert k in Keys(Pair(ms)) by { assert Narrow(ms) in Pair(ms); }
    var a, b := PairCreated(hash, ms);
    var c, d := BatchBinds(hash, a[3], Pair(ms), state, k);
    RunsJoin(hash, a, b, c, d);
    run, steps := a + c[1..], b + d;
  }

  // The pair of Tightness reaches such a state: its plan need not hold the narrow resource.
  lemma SharedNameSkipsCollection(hash: string -> string, ms: set<Dim>) returns (run: seq<State>, steps: seq<Step>)
    requires |ms| >= 2
    ensures IsRun(hash, run, steps) && Init(run[0]) && NoRebuilds(run, steps)
    ensures EndsWithRemoval(steps, Narrow(ms).GetKey()) && Narrow(ms).GetKey() in run[|steps| - 1].bound
  {
    hide InMaps, IsCompiled, WellFormed, Next, Init;
    var k := Narrow(ms).GetKey();
    var state := StateWithout(hash, ms);
    var a, b := PairGetsBound(hash, ms, state);
    assert k in Keys(Pair(ms)) by { assert Narrow(ms) in Pair(ms); }
    var c, d := CollectedFour(hash, a[6]);
    var last := c[4];
    var gone := last.(workloads := Waiting(ms, true));
    NarrowIsDeleted(hash, ms, last, gone);
    var e, f := LostInSharedName(hash, gone, k);
    assert IsRun(hash, [last, gone], [Delete(k)]);
    RunsJoin(hash, a, b, c, d);
    RunsJoin(hash, a + c[1..], b + d, [last, gone], [Delete(k)]);
    RunsJoin(hash, a + c[1..] + [last, gone][1..], b + d + [Delete(k)], e, f);
    run, steps := a + c[1..] + [last, gone][1..] + e[1..], b + d + [Delete(k)] + f;
  }

  lemma NarrowIsDeleted(hash: string -> string, ms: set<Dim>, s: State, s': State)
    requires s.workloads == Waiting(ms, false) && s' == s.(workloads := Waiting(ms, true))
    ensures Next(hash, s, Delete(Narrow(ms).GetKey()), s') && Leaving(s', Narrow(ms).GetKey())
  {
    hide InMaps, IsCompiled, WellFormed;
    var k := Narrow(ms).GetKey();
    DifferentKeys(ms);
    assert s.workloads[k := s.workloads[k].(deleting := true)] == s'.workloads;
    assert UserNext(s, Delete(k), s');
  }

  lemma WellFormedPair(ms: set<Dim>)
    ensures WellFormed(Open()) && WellFormed(Narrow(ms))
  {
    PairIsValid(ms);
    assert Open() in Pair(ms) && Narrow(ms) in Pair(ms);
  }

  lemma StateWithout(hash: string -> string, ms: set<Dim>) returns (state: ClusterState)
    requires |ms| >= 2
    ensures IsCompiled(hash, Pair(ms), state) && !InMaps(state.saToWSAs, Narrow(ms).GetKey())
  {
    hide InMaps, WellFormed, TableOf, Outcome, IsOrder, Uniform, VocabularyOf, NameOf;
    PairCanBeLost(hash, ms);
    var t := TableOf(Pair(ms));
    TableIsUniform(Pair(ms));
    UniformKeys(t, t);
    var order :| IsOrder(t, order) && !InMaps(Outcome(hash, t, t, order), Narrow(ms).GetKey());
    OutcomeIsAdmitted(hash, t, t, order);
    state := ClusterState(ScopeToSA(hash, t), Outcome(hash, t, t, order), VocabularyOf(Pair(ms)));
  }

  lemma CollectedFour(hash: string -> string, s: State) returns (run: seq<State>, steps: seq<Step>)
    requires s.batch.Some? && s.batch.value.Ready? && s.batch.value.collected == 0
    requires s.bound <= Keys(s.batch.value.listed)
    ensures IsRun(hash, run, steps) && run[0] == s && |steps| == 4
    ensures run[4] == s.(batch := Some(s.batch.value.(collected := 4)))
    ensures forall m :: 0 <= m < 4 ==> steps[m] == BatchCollect(s.bound)
  {
    var job := s.batch.value;
    var s1, s2 := s.(batch := Some(job.(collected := 1))), s.(batch := Some(job.(collected := 2)));
    var s3, s4 := s.(batch := Some(job.(collected := 3))), s.(batch := Some(job.(collected := 4)));
    run, steps := [s, s1, s2, s3, s4], seq(4, i => BatchCollect(s.bound));
    assert s.bound * Keys(job.listed) == s.bound;
    assert BatchNext(hash, s, steps[0], s1) && BatchNext(hash, s1, steps[1], s2);
    assert BatchNext(hash, s2, steps[2], s3) && BatchNext(hash, s3, steps[3], s4);
  }
}
