// The methods of the engine and the reconciliation perform runs of the machine of
// Interlock: what is proved of its runs holds of them. Each is one call without
// interleaving; the machine also interleaves their steps.
module Refinement {
  import opened Scopes
  import opened Mappings
  import opened Lookups
  import opened Cluster
  import opened Engine
  import opened ResourceManagement
  import opened Execution
  import opened Orchestrator
  import opened Interlock

  // bound is computed from the owner references of the managed RoleBindings.
  ghost predicate Represents(s: State, c: Cluster, engine: InMemoryEngine)
    reads c, c.roleBindings, engine
  {
    && s.workloads == c.workloads && s.bound == Owners(c.roleBindings.objects)
    && s.engine == ClusterState(engine.scopeToSA, engine.saToWsaMap, engine.vocabulary)
  }

  lemma LiveInParts(ws: Workloads)
    ensures LivePart(ws, true) + LivePart(ws, false) == Live(ws)
  {}

  // Listing, planning and ensuring.
  lemma EnsuredRun(hash: string -> string, s: State, plan: Plan,
                   before: Bindings, ensured: Bindings)
    returns (run: seq<State>, steps: seq<Step>)
    requires s.batch == None && IsPlanFor(hash, Live(s.workloads), plan)
    requires s.bound == Owners(before) && Part(EnvOf(hash, plan), true).Evolved(before, ensured)
    ensures IsRun(hash, run, steps) && run[0] == s && |steps| == 3
    ensures run[3] == s.(batch := Some(Ready(Live(s.workloads), StateOf(plan), 0)), bound := Owners(ensured))
    ensures steps == [BatchList, BatchPlan(StateOf(plan)), BatchEnsure(Owners(ensured))]
  {
    hide InMaps, IsCompiled, WellFormed, LivePart, Live, Owners, Part, Env.Evolved;
    var rs, state := Live(s.workloads), StateOf(plan);
    LiveInParts(s.workloads);
    PlanResources(hash, rs, plan);
    EvolvedOwners(EnvOf(hash, plan), before, ensured);
    var s1 := s.(batch := Some(Half(LivePart(s.workloads, true))));
    var s2 := s.(batch := Some(Ready(rs, state, 0)));
    var s3 := s2.(bound := Owners(ensured));
    run, steps := [s, s1, s2, s3], [BatchList, BatchPlan(state), BatchEnsure(Owners(ensured))];
    assert BatchNext(hash, s, steps[0], s1) && BatchNext(hash, s1, steps[1], s2);
    assert BatchNext(hash, s2, steps[2], s3);
  }

  // Four collections and the publication.
  lemma PublishedRun(hash: string -> string, s: State, bound: set<Key>) returns (run: seq<State>, steps: seq<Step>)
    requires s.batch.Some? && s.batch.value.Ready? && s.batch.value.collected == 0
    requires bound <= s.bound && bound <= Keys(s.batch.value.listed)
    ensures IsRun(hash, run, steps) && run[0] == s && |steps| == 5
    ensures run[5] == s.(engine := s.batch.value.state, batch := None, bound := bound)
    ensures steps == [BatchCollect(s.bound), BatchCollect(s.bound), BatchCollect(bound), BatchCollect(bound),
            BatchPublish]
  {
    hide InMaps, IsCompiled, WellFormed, Keys;
    var job := s.batch.value;
    var s1, s2 := s.(batch := Some(job.(collected := 1))), s.(batch := Some(job.(collected := 2)));
    var s3 := s.(batch := Some(job.(collected := 3)), bound := bound);
    var s4 := s.(batch := Some(job.(collected := 4)), bound := bound);
    var s5 := s.(engine := job.state, batch := None, bound := bound);
    run := [s, s1, s2, s3, s4, s5];
    steps := [BatchCollect(s.bound), BatchCollect(s.bound), BatchCollect(bound), BatchCollect(bound), BatchPublish];
    assert BatchNext(hash, s, steps[0], s1) && BatchNext(hash, s1, steps[1], s2);
    assert BatchNext(hash, s2, steps[2], s3) && BatchNext(hash, s3, steps[3], s4);
    assert BatchNext(hash, s4, steps[4], s5);
  }

  lemma BatchRun(hash: string -> string, s: State, plan: Plan, before: Bindings,
                 ensured: Bindings, after: Bindings, published: bool)
    returns (run: seq<State>, steps: seq<Step>)
    requires s.batch == None && IsPlanFor(hash, Live(s.workloads), plan) && s.bound == Owners(before)
    requires Part(EnvOf(hash, plan), true).Evolved(before, ensured) && Shrunk(ensured, after)
    requires published ==> BindingsExact(EnvOf(hash, plan), after)
    ensures IsRun(hash, run, steps) && run[0] == s
    ensures run[|steps|] == s.(bound := Owners(after), engine := if published then StateOf(plan) else s.engine)
    ensures steps == [BatchList, BatchPlan(StateOf(plan)), BatchEnsure(Owners(ensured))]
      + (if published then [BatchCollect(Owners(ensured)), BatchCollect(Owners(ensured)), BatchCollect(Owners(after)),
                            BatchCollect(Owners(after)), BatchPublish]
         else [BatchFail(Owners(after))])
  {
    hide InMaps, IsPlanFor, WellFormed, Live, Owners, Part, Env.Evolved, BindingsExact, Shrunk;
    var a, b := EnsuredRun(hash, s, plan, before, ensured);
    ShrunkOwners(ensured, after);
    if published {
      PlanResources(hash, Live(s.workloads), plan);
      ExactOwners(EnvOf(hash, plan), after);
      var c, d := PublishedRun(hash, a[3], Owners(after));
      RunsJoin(hash, a, b, c, d);
      run, steps := a + c[1..], b + d;
    } else {
      var s' := s.(bound := Owners(after));
      assert BatchNext(hash, a[3], BatchFail(Owners(after)), s');
      RunGrows(hash, a, b, BatchFail(Owners(after)), s');
      run, steps := a + [s'], b + [BatchFail(Owners(after))];
    }
  }

  // A batch that succeeds lists, plans, ensures, collects four times and publishes. The four
  // are those of the four kinds of objects that are collected: each was listed once, and what
  // is left of it is reconciled with the plan. A batch that fails after planning ends in
  // BatchFail.
  method ProcessBatchInMachine(hash: string -> string, ghost s: State, c: Cluster, matches: string -> bool,
                               batch: Batch, engine: InMemoryEngine)
    returns (ok: bool, ghost run: seq<State>, ghost steps: seq<Step>)
    requires c.Separate() && engine.Valid() && ValidWorkloads(c.workloads)
    requires Represents(s, c, engine) && s.batch == None
    modifies batch, engine, c`errors, c`logged
    modifies c.serviceAccounts, c.roles, c.clusterRoles, c.roleBindings, c.clusterRoleBindings
    ensures IsRun(hash, run, steps) && run[0] == s
    ensures Represents(run[|steps|], c, engine) && run[|steps|].batch == None && run[|steps|].tasks == s.tasks
    ensures ok && old(batch.resources) != [] ==>
      && |steps| == 8 && steps[7].BatchPublish? && Collections(steps[..7]) == |c.Listings()| == 4
      && EachOnce(old(c.Listings()), c.Listings())
      && batch.plan.Some? && batch.plan.value.vocabulary.Some?
      && steps[1] == BatchPlan(StateOf(batch.plan.value)) && Reconciled(hash, batch.plan.value, c)
    ensures !ok || old(batch.resources) == [] ==> BatchPublish !in steps
  {
    hide InMaps, IsPlanFor, WellFormed, Live, Owners, Part, Env.Evolved, Shrunk, AccountKeys, Compile, NoForeign,
         IsRun, Reconciled, EachOnce, RolesChanged, RolesEvolved;
    ghost var before := c.roleBindings.objects;
    ghost var planned, ensured;
    ok, planned, ensured := ProcessBatch(hash, c, matches, batch, engine);
    if planned {
      if ok { ReconciledIsExact(hash, Live(c.workloads), batch.plan.value, c); }
      run, steps := BatchRun(hash, s, batch.plan.value, before, ensured.namespaced, c.roleBindings.objects, ok);
      if ok { FourCollections(steps); }
    } else {
      run, steps := [s], [];
      assert IsRun(hash, run, steps) by { NoSteps(hash, s); }
    }
  }

  lemma ReconciledIsExact(hash: string -> string, rs: set<WSAResource>, plan: Plan, c: Cluster)
    requires IsPlanFor(hash, rs, plan) && Reconciled(hash, plan, c)
    ensures plan.vocabulary.Some? && BindingsExact(EnvOf(hash, plan), c.roleBindings.objects)
  {}

  lemma NoSteps(hash: string -> string, s: State)
    ensures IsRun(hash, [s], [])
  {}

  lemma FourCollections(steps: seq<Step>)
    requires |steps| == 8 && steps[1].BatchPlan? && steps[2].BatchEnsure?
    requires forall m :: 3 <= m < 7 ==> steps[m].BatchCollect?
    ensures Collections(steps[..7]) == 4
  {
    assert forall m :: 0 <= m < 7 ==> steps[..m+1][..m] == steps[..m];
    assert Collections(steps[..2]) == 0 && Collections(steps[..3]) == 0;
    assert Collections(steps[..4]) == 1 && Collections(steps[..5]) == 2;
    assert Collections(steps[..6]) == 3;
  }

  // The two halves of a listing, taken without a change in between.
  lemma TaskRun(hash: string -> string, s: State, kind: Kind, state: ClusterState)
    returns (run: seq<State>, steps: seq<Step>)
    requires IsCompiled(hash, Live(s.workloads), state)
    ensures IsRun(hash, run, steps) && run[0] == s && |steps| == 3
    ensures steps[2].TaskSwap? && RebuildStep(run[2], steps[2]) == kind.Rebuild?
    ensures run[3] == s.(engine := if kind.Rebuild? then state else state.(saToWSAs := s.engine.saToWSAs))
  {
    hide InMaps, IsCompiled, WellFormed, LivePart, Live;
    var id := NewId(s.tasks);
    var half, rs := LivePart(s.workloads, true), Live(s.workloads);
    LiveInParts(s.workloads);
    var s1 := s.(tasks := s.tasks[id := Task(kind, Half(half))]);
    var s2 := s.(tasks := s.tasks[id := Task(kind, Ready(rs, state, 0))]);
    var s3 := s.(engine := if kind.Rebuild? then state else state.(saToWSAs := s.engine.saToWSAs));
    run := [s, s1, s2, s3];
    steps := [TaskList(id, kind), TaskCompute(id, state), TaskSwap(id)];
    assert TaskNext(hash, s, steps[0], s1);
    assert s1.tasks[id := Task(kind, Ready(rs, state, 0))] == s2.tasks;
    assert TaskNext(hash, s1, steps[1], s2);
    assert s2.tasks - {id} == s.tasks;
    assert TaskNext(hash, s2, steps[2], s3);
  }

  // RebuildStateFromCluster is a rebuild task, RefreshScopeMappings a refresh task.
  method RebuildOrRefreshInMachine(hash: string -> string, ghost s: State, c: Cluster,
                                   engine: InMemoryEngine, rebuild: bool)
    returns (ok: bool, ghost run: seq<State>, ghost steps: seq<Step>)
    requires engine.Valid() && ValidWorkloads(c.workloads) && Represents(s, c, engine)
    modifies engine, c`errors
    ensures engine.Valid() && IsRun(hash, run, steps) && run[0] == s
    ensures run[|steps|] == s.(engine := run[|steps|].engine) && Represents(run[|steps|], c, engine)
    ensures |steps| == (if ok then 3 else 0)
    ensures ok ==> steps[2].TaskSwap? && RebuildStep(run[2], steps[2]) == rebuild
  {
    hide InMaps, WellFormed, Live, Owners, IsSAToWSAs, ValidSet, Compile;
    ghost var rs := Live(c.workloads);
    assert ValidSet(rs) by { LiveIsValid(c.workloads); }
    ghost var state := CompiledState(hash, rs);
    if rebuild {
      ok := engine.RebuildStateFromCluster(hash, c);
      state := ClusterState(engine.scopeToSA, engine.saToWsaMap, engine.vocabulary);
    } else {
      ok := engine.RefreshScopeMappings(hash, c);
    }
    if ok {
      run, steps := TaskRun(hash, s, if rebuild then Rebuild else Refresh, state);
    } else {
      run, steps := [s], [];
    }
  }

  // handleDeletion is a removal of the finalizer or nothing.
  method HandleDeletionInMachine(hash: string -> string, ghost s: State, c: Cluster, engine: InMemoryEngine, k: Key)
    returns (requeue: bool, ok: bool, ghost run: seq<State>, ghost steps: seq<Step>)
    requires Represents(s, c, engine) && k in c.workloads && c.workloads[k].deleting
    modifies c`workloads, c`errors
    ensures IsRun(hash, run, steps) && run[0] == s && Represents(run[|steps|], c, engine)
    ensures steps == [] || steps == [RemoveFinalizer(k)]
    ensures ok && !requeue && old(c.workloads)[k].finalizer ==> steps != []
  {
    hide InMaps, Owners;
    requeue, ok := HandleDeletion(c, engine, k);
    if c.workloads == s.workloads {
      run, steps := [s], [];
    } else {
      run, steps := [s, s.(workloads := c.workloads)], [RemoveFinalizer(k)];
      assert UserNext(s, steps[0], run[1]);
    }
  }
}
