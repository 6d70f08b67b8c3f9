// internal/reconciliation/orchestrator.go: planning, validation and execution of one batch,
// and what follows a failure.
module Orchestrator {
  import opened Scopes
  import opened Generator
  import opened Mappings
  import opened Lookups
  import opened Cluster
  import opened Engine
  import opened ResourceManagement
  import opened Execution
  import opened EndToEnd
  import Retry

  class Batch {
    const id: Retry.BatchID
    var resources: seq<WSAResource>
    var plan: Option<Plan>
    var failed: bool         // LastError is set

    constructor (id: Retry.BatchID, resources: seq<WSAResource>)
      ensures this.id == id && this.resources == resources && plan == None && !failed
    {
      this.id, this.resources, plan, failed := id, resources, None, false;
    }
  }

  // u is the listed version of w, or w itself if it is not listed.
  ghost predicate IsUpdated(listed: set<WSAResource>, w: WSAResource, u: WSAResource) {
    && u.GetKey() == w.GetKey()
    && if exists x :: x in listed && x.GetKey() == w.GetKey() then u in listed else u == w
  }

  ghost predicate SameKeys(a: seq<WSAResource>, b: seq<WSAResource>) {
    |a| == |b| && forall i :: 0 <= i < |a| ==> a[i].GetKey() == b[i].GetKey()
  }

  method UpdateBatchResourceVersions(batchResources: seq<WSAResource>, listed: seq<WSAResource>)
    returns (updated: seq<WSAResource>)
    requires DistinctKeys(Elements(listed))
    ensures |updated| == |batchResources|
    ensures forall i :: 0 <= i < |updated| ==> IsUpdated(Elements(listed), batchResources[i], updated[i])
  {
    hide DistinctKeys, ByKey;
    var freshByKey := FreshByKey(listed);
    KeysOfByKey(Elements(listed));
    updated := [];
    for i := 0 to |batchResources|
      invariant |updated| == i
      invariant forall j :: 0 <= j < i ==> IsUpdated(Elements(listed), batchResources[j], updated[j])
    {
      var w := batchResources[i];
      if w.GetKey() in freshByKey {
        updated := updated + [freshByKey[w.GetKey()]];
      } else {
        updated := updated + [w];
      }
    }
  }

  method FreshByKey(listed: seq<WSAResource>) returns (m: map<Key, WSAResource>)
    requires DistinctKeys(Elements(listed))
    ensures m == ByKey(Elements(listed))
  {
    m := map[];
    NothingByKey(Elements(listed[..0]));
    for i := 0 to |listed|
      invariant DistinctKeys(Elements(listed[..i])) && m == ByKey(Elements(listed[..i]))
    {
      assert Elements(listed[..i+1]) == Elements(listed[..i]) + {listed[i]};
      m := m[listed[i].GetKey() := listed[i]];
      ByKeyGrows(Elements(listed[..i]), listed[i]);
    }
    assert listed[..|listed|] == listed;
  }

  lemma KeysOfByKey(rs: set<WSAResource>)
    requires DistinctKeys(rs)
    ensures forall k :: k in ByKey(rs) ==> ByKey(rs)[k] in rs && ByKey(rs)[k].GetKey() == k
    ensures forall w :: w in rs ==> w.GetKey() in ByKey(rs)
  {}

  // PlanningStage.Execute: the batch keeps its keys, so a batch that is tried again is
  // never mistaken for an empty one.
  method PlanBatch(hash: string -> string, c: Cluster, matches: string -> bool, batch: Batch, engine: InMemoryEngine)
    returns (ok: bool)
    requires ValidWorkloads(c.workloads)
    modifies batch, engine`namespaceCache, c`errors, c`logged
    ensures (ok <==> c.errors == old(c.errors)) && c.errors >= old(c.errors)
    ensures SameKeys(batch.resources, old(batch.resources)) && batch.failed == old(batch.failed)
    ensures ok ==> forall i :: 0 <= i < |batch.resources| ==>
      IsUpdated(Live(c.workloads), old(batch.resources)[i], batch.resources[i])
    ensures ok ==> batch.plan.Some? && IsPlanFor(hash, Live(c.workloads), batch.plan.value)
    ensures ok && engine.configured ==> batch.plan.value.targetNamespaces == engine.targetNamespaces
    ensures ok && !engine.configured ==>
      && engine.namespaceCache == Some(batch.plan.value.targetNamespaces)
      && (engine.namespaceCache == old(engine.namespaceCache)
          || IsDiscovered(c, matches, batch.plan.value.targetNamespaces, c.logged != old(c.logged)))
    ensures !ok ==> batch.plan == old(batch.plan)
  {
    hide IsCompiled, IsWSAToSAs, IsAccounts, WellFormed, IsDiscovered;
    var plan;
    ok, plan := ComputePlan(hash, c, engine, matches);
    if ok {
      LiveIsValid(c.workloads);
      batch.plan := plan;
      batch.resources := UpdateBatchResourceVersions(batch.resources, plan.value.resources);
    }
  }

  ghost predicate NoForeign(objects: map<Key, Object<ServiceAccount>>, keys: set<Key>) {
    forall k :: k in keys && k in objects ==> objects[k].managed
  }

  // The role that validation looks for; execution uses other names.
  function WarnedRole(w: WSAResource): Key { Key(w.GetNamespace(), "octopus-" + w.name) }

  ghost function Warned(ws: set<WSAResource>, roles: RoleObjects): set<Key> {
    set w | w in ws && w.GetNamespace() != "" && WarnedRole(w) in roles && !roles[WarnedRole(w)].managed
        :: WarnedRole(w)
  }

  // ValidationStage.Execute: no planned account may belong to somebody else, and every
  // target namespace must exist. Roles only give rise to warnings.
  method ValidateBatch(c: Cluster, batch: Batch) returns (ok: bool, warnings: seq<Key>)
    modifies c`errors
    ensures ok <==>
      && batch.plan.Some? && c.errors == old(c.errors)
      && NoForeign(c.serviceAccounts.objects,
                   AccountKeys(batch.plan.value.accounts, Elements(batch.plan.value.targetNamespaces)))
      && Elements(batch.plan.value.targetNamespaces) <= c.namespaces
    ensures c.errors >= old(c.errors)
    ensures ok ==> forall k :: k in warnings <==>
      && k in c.roles.objects && !c.roles.objects[k].managed && k.namespace != ""
      && exists w :: w in batch.resources && w.GetNamespace() == k.namespace && k.name == "octopus-" + w.name
  {
    hide AccountKeys, Warned, NoForeign;
    if batch.plan.None? {
      return false, [];
    }
    var plan := batch.plan.value;
    ghost var planned := AccountKeys(plan.accounts, Elements(plan.targetNamespaces));
    var read, valid := CheckAccounts(c, plan.accounts, plan.targetNamespaces);
    if !read { return false, []; }
    read, warnings := CheckRoles(c, batch.resources);
    if !read { return false, []; }
    for j := 0 to |plan.targetNamespaces|
      invariant c.errors == old(c.errors)
      invariant valid <==> && NoForeign(c.serviceAccounts.objects, planned)
                           && Elements(plan.targetNamespaces[..j]) <= c.namespaces
    {
      if * {
        c.errors := c.errors + 1;
        return false, warnings;
      }
      assert Elements(plan.targetNamespaces[..j+1]) == Elements(plan.targetNamespaces[..j])
          + {plan.targetNamespaces[j]};
      if plan.targetNamespaces[j] !in c.namespaces {
        valid := false;
      }
    }
    assert plan.targetNamespaces[..|plan.targetNamespaces|] == plan.targetNamespaces;
    ok := valid;
    WarningsInClear(batch.resources, c.roles.objects, warnings);
  }

  lemma WarningsInClear(resources: seq<WSAResource>, roles: RoleObjects, warnings: seq<Key>)
    requires Elements(warnings) == Warned(Elements(resources), roles)
    ensures forall k :: k in warnings <==>
      && k in roles && !roles[k].managed && k.namespace != ""
      && exists w :: w in resources && w.GetNamespace() == k.namespace && k.name == "octopus-" + w.name
  {
    forall k ensures k in warnings <==> k in Warned(Elements(resources), roles) {
      assert k in Elements(warnings) <==> k in warnings;
    }
    forall w | w in resources ensures w in Elements(resources) {}
  }

  method CheckRoles(c: Cluster, resources: seq<WSAResource>) returns (read: bool, warnings: seq<Key>)
    modifies c`errors
    ensures (read <==> c.errors == old(c.errors)) && c.errors >= old(c.errors)
    ensures read ==> Elements(warnings) == Warned(Elements(resources), c.roles.objects)
  {
    read, warnings := true, [];
    for i := 0 to |resources|
      invariant c.errors == old(c.errors)
      invariant Elements(warnings) == Warned(Elements(resources[..i]), c.roles.objects)
    {
      var w := resources[i];
      assert Elements(resources[..i+1]) == Elements(resources[..i]) + {w};
      if w.GetNamespace() == "" {
        continue;
      }
      if * {
        c.errors := c.errors + 1;
        return false, [];
      }
      if WarnedRole(w) in c.roles.objects && !c.roles.objects[WarnedRole(w)].managed {
        assert Elements(warnings + [WarnedRole(w)]) == Elements(warnings) + {WarnedRole(w)};
        warnings := warnings + [WarnedRole(w)];
      }
    }
    assert resources[..|resources|] == resources;
  }

  method CheckAccounts(c: Cluster, accounts: seq<ServiceAccount>, targetNamespaces: seq<string>)
    returns (read: bool, valid: bool)
    modifies c`errors
    ensures (read <==> c.errors == old(c.errors)) && c.errors >= old(c.errors)
    ensures read ==>
      (valid <==> NoForeign(c.serviceAccounts.objects, AccountKeys(accounts, Elements(targetNamespaces))))
  {
    hide AccountKeys;
    read, valid := true, true;
    NoAccountKeys(accounts, targetNamespaces);
    for i := 0 to |accounts|
      invariant c.errors == old(c.errors)
      invariant valid <==> NoForeign(c.serviceAccounts.objects, AccountKeys(accounts[..i], Elements(targetNamespaces)))
    {
      NoAccountKeys([accounts[i]], targetNamespaces);
      for j := 0 to |targetNamespaces|
        invariant c.errors == old(c.errors)
        invariant valid <==> NoForeign(c.serviceAccounts.objects,
                                       AccountKeys(accounts[..i], Elements(targetNamespaces))
                                       + AccountKeys([accounts[i]], Elements(targetNamespaces[..j])))
      {
        if * {
          c.errors := c.errors + 1;
          return false, false;
        }
        AccountKeysGrow(accounts, targetNamespaces, i, j);
        var k := Key(targetNamespaces[j], accounts[i].name);
        if k in c.serviceAccounts.objects && !c.serviceAccounts.objects[k].managed {
          valid := false;
        }
      }
      AccountRowDone(accounts, targetNamespaces, i);
    }
    assert accounts[..|accounts|] == accounts;
  }

  // The fields that lookups and the deletion interlock read.
  twostate predicate SameMappings(engine: InMemoryEngine)
    reads engine
  {
    && engine.scopeToSA == old(engine.scopeToSA) && engine.saToWsaMap == old(engine.saToWsaMap)
    && engine.vocabulary == old(engine.vocabulary) && engine.scopeComputation == old(engine.scopeComputation)
  }

  // On success the lookup answers for the live resources, and pods hold exactly the
  // bindings of the WSAs that match them iff groups of one name grant the same. A failed
  // batch leaves the lookup as it was, and no batch touches a service account that it does
  // not manage. planned: the stage after planning was reached.
  method ProcessBatch(hash: string -> string, c: Cluster, matches: string -> bool, batch: Batch, engine: InMemoryEngine)
    returns (ok: bool, ghost planned: bool, ghost ensured: AllBindings)
    requires c.Separate() && engine.Valid() && ValidWorkloads(c.workloads)
    modifies batch, engine`scopeToSA, engine`saToWsaMap, engine`vocabulary, engine`scopeComputation
    modifies engine`namespaceCache, c`errors, c`logged
    modifies c.serviceAccounts, c.roles, c.clusterRoles, c.roleBindings, c.clusterRoleBindings
    ensures engine.Valid()
    ensures SameKeys(batch.resources, old(batch.resources)) && batch.failed == old(batch.failed)
    ensures !ok || old(batch.resources) == [] ==> SameMappings(engine)
    ensures old(batch.resources) == [] ==>
      ok && !planned && unchanged(c, c.serviceAccounts, c.roles, c.clusterRoles, c.roleBindings, c.clusterRoleBindings)
    ensures planned ==> batch.plan.Some? && IsPlanFor(hash, Live(c.workloads), batch.plan.value)
    ensures old(batch.resources) != [] ==>
      (ok <==>
        && planned && c.errors == old(c.errors) && c.ErrorLog() == old(c.ErrorLog())
        && batch.plan.value.targetNamespaces != [] && Elements(batch.plan.value.targetNamespaces) <= c.namespaces
        && NoForeign(old(c.serviceAccounts.objects),
                     AccountKeys(batch.plan.value.accounts, Elements(batch.plan.value.targetNamespaces))))
    ensures planned && c.errors == old(c.errors) && c.OtherErrors() == old(c.OtherErrors()) ==>
      (ok <==>
        && batch.plan.value.targetNamespaces != [] && Elements(batch.plan.value.targetNamespaces) <= c.namespaces
        && NoForeign(old(c.serviceAccounts.objects),
                     AccountKeys(batch.plan.value.accounts, Elements(batch.plan.value.targetNamespaces)))
        && RefsAgree(hash, Live(c.workloads)) && NoRoleChange(hash, Live(c.workloads), old(BindingsOf(c))))
    ensures c.errors >= old(c.errors) && (old(batch.resources) != [] && !planned ==> c.errors > old(c.errors))
    ensures KeepsForeign(old(c.serviceAccounts.objects), c.serviceAccounts.objects, {})
    ensures !planned ==>
      unchanged(c.serviceAccounts, c.roles, c.clusterRoles, c.roleBindings, c.clusterRoleBindings)
    ensures planned ==> RolesChanged(hash, Live(c.workloads), old(c.roles.objects), c.roles.objects)
    ensures planned ==>
      RolesEvolved(hash, Live(c.workloads), false, old(c.clusterRoles.objects), c.clusterRoles.objects)
    ensures ok && planned ==> EachOnce(old(c.Listings()), c.Listings())
    ensures planned ==> BindingHistory(EnvOf(hash, batch.plan.value), old(BindingsOf(c)), ensured, BindingsOf(c))
    ensures ok && planned ==> Reconciled(hash, batch.plan.value, c)
    ensures ok && planned ==>
      && ClusterState(engine.scopeToSA, engine.saToWsaMap, engine.vocabulary) == StateOf(batch.plan.value)
      && engine.scopeComputation == Compile(hash, Live(c.workloads))
  {
    hide NameOf, WellFormed, TableOf, VocabularyOf, IsWSAToSAs, IsAccounts, IsSAToWSAs,
         Reconciled, AccountKeys, Live, Part, Env.Evolved, IsDiscovered, Compile, RefsAgree, NoRoleChange, Shrunk,
         RolesChanged, RolesEvolved, IsUpdated, EachOnce;
    planned, ensured := false, BindingsOf(c);
    if |batch.resources| == 0 {
      ok := true;
      return;
    }
    ok := PlanBatch(hash, c, matches, batch, engine);
    if !ok { return; }
    planned := true;
    ghost var plan := batch.plan.value;
    EvolvedRefl(Part(EnvOf(hash, plan), true), ensured.namespaced);
    EvolvedRefl(Part(EnvOf(hash, plan), false), ensured.clusterWide);
    ShrunkRefl(ensured.namespaced);
    ShrunkRefl(ensured.clusterWide);
    RolesRefl(hash, Live(c.workloads), c.roles.objects, c.clusterRoles.objects);
    var warnings;
    ok, warnings := ValidateBatch(c, batch);
    if !ok { return; }
    ok, ensured := Execute(hash, Live(c.workloads), batch.plan, c, engine);
  }

  // A batch can only succeed if refs agree and no binding existed for another role. With a
  // hash that keeps bindings apart, it grants exactly what is deserved iff grants are
  // distinct, for which distinct names suffice.
  lemma GrantsAfterBatch(hash: string -> string, rs: set<WSAResource>, plan: Plan, c: Cluster,
                         before: AllBindings, ensured: AllBindings)
    requires IsPlanFor(hash, rs, plan) && Reconciled(hash, plan, c)
    requires BindingHistory(EnvOf(hash, plan), before, ensured, BindingsOf(c))
    ensures DistinctKeys(rs) && RefsAgree(hash, rs) && NoRoleChange(hash, rs, before)
    ensures BindingsApart(hash, rs, true) && plan.targetNamespaces != [] ==>
      && (Exact(hash, rs, plan, c.roleBindings.objects) <==> DistinctGrants(hash, rs))
      && (DistinctNames(hash, TableOf(rs)) ==> Exact(hash, rs, plan, c.roleBindings.objects))
  {
    hide IsPlanFor, BindingsExact, ClusterBindingsMade, Exact, DistinctGrants, RefsAgree, NoRoleChange, BindingsApart,
         DistinctNames, BindingHistory;
    PlanIsValid(hash, rs, plan);
    PlanResources(hash, rs, plan);
    SuccessMetNoRoleChange(EnvOf(hash, plan), before, ensured, BindingsOf(c));
    if BindingsApart(hash, rs, true) && plan.targetNamespaces != [] {
      ExactIffDistinctGrants(hash, rs, plan, c.roleBindings.objects);
      if DistinctNames(hash, TableOf(rs)) { DistinctNamesSuffice(hash, rs); }
    }
  }

  // processBatchWithRetry and handlePermanentFailure: a batch that is given up is followed
  // by one rebuild of the engine's state, wherever it failed. The rebuild fails in turn only
  // if its own listing does. failures: how many calls had failed when the batch ended.
  method ProcessBatchWithRetry(hash: string -> string, c: Cluster, matches: string -> bool, batch: Batch,
                               engine: InMemoryEngine, retryQueue: Retry.BatchQueue)
    returns (ok: bool, permanent: bool, rebuilt: bool, ghost failures: nat)
    requires c.Separate() && engine.Valid() && ValidWorkloads(c.workloads)
    modifies batch, engine, retryQueue, c`errors, c`logged
    modifies c.serviceAccounts, c.roles, c.clusterRoles, c.roleBindings, c.clusterRoleBindings
    ensures engine.Valid() && SameKeys(batch.resources, old(batch.resources))
    ensures batch.failed == (old(batch.failed) || !ok)
    ensures retryQueue.View() == old(retryQueue.View()).Settle(Retry.Batch(batch.id, false), !ok)
    ensures permanent <==> !ok && old(retryQueue.queue).NumRequeues(batch.id) >= Retry.MAX_RETRIES
    ensures rebuilt ==> permanent
                        && IsCompiled(hash, Live(c.workloads),
                                      ClusterState(engine.scopeToSA, engine.saToWsaMap, engine.vocabulary))
    ensures !ok && !rebuilt ==> SameMappings(engine)
    ensures engine.rebuilds == old(engine.rebuilds) + (if permanent then 1 else 0)
    ensures permanent ==> (rebuilt <==> c.errors == failures) && failures <= c.errors
    ensures ok && old(batch.resources) != [] ==> engine.scopeComputation == Compile(hash, Live(c.workloads))
  {
    hide IsCompiled, Live, Compile, AccountKeys, NoForeign, Reconciled, IsPlanFor, BindingHistory, WellFormed;
    ghost var planned, ensured;
    ok, planned, ensured := ProcessBatch(hash, c, matches, batch, engine);
    rebuilt, failures := false, c.errors;
    if !ok { batch.failed := true; }
    permanent := Retry.SettleBatch(retryQueue, Retry.Batch(batch.id, false), !ok);
    if permanent {
      rebuilt := engine.RebuildStateFromCluster(hash, c);
    }
  }
}
