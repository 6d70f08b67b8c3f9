// internal/reconciliation/stages: planning followed by execution, run without another
// batch or another client in between.
module Execution {
  import opened Scopes
  import opened Generator
  import opened Mappings
  import opened Cluster
  import opened Engine
  import opened ResourceManagement

  ghost function EnvOf(hash: string -> string, plan: Plan): Env {
    Env(hash, Elements(plan.resources), plan.wsaToSAs, Elements(plan.targetNamespaces))
  }

  ghost function BindingsOf(c: Cluster): AllBindings
    reads c.roleBindings, c.clusterRoleBindings
  {
    AllBindings(c.roleBindings.objects, c.clusterRoleBindings.objects)
  }

  // What the bindings have gone through: first some were made, then some deleted.
  ghost predicate BindingHistory(env: Env, before: AllBindings, ensured: AllBindings, after: AllBindings) {
    && Part(env, true).Evolved(before.namespaced, ensured.namespaced) && Shrunk(ensured.namespaced, after.namespaced)
    && Part(env, false).Evolved(before.clusterWide, ensured.clusterWide)
    && Shrunk(ensured.clusterWide, after.clusterWide)
  }

  // The managed RoleBindings are the expected ones, each made from a resource of the plan,
  // and each role of a resource is bound under its binding's name.
  ghost predicate BindingsExact(env: Env, rbs: Bindings) {
    && (set k | k in rbs && rbs[k].managed) == ExpectedBindings(env.hash, env.resources)
    && (forall k :: k in rbs && rbs[k].managed ==> Part(env, true).Explained(k, rbs[k]))
    && (forall w, f :: w in env.resources && w.Namespaced? && f in Refs(env.hash, w) ==>
      Part(env, true).Bound(w, f, rbs))
  }

  ghost predicate ClusterBindingsMade(env: Env, crbs: Bindings) {
    forall w, f :: w in env.resources && !w.Namespaced? && f in Refs(env.hash, w) ==> Part(env, false).Bound(w, f, crbs)
  }

  // Each managed Role left has the name of some resource's inline role. The same name in
  // another namespace is not told apart.
  ghost predicate RolesNeeded(hash: string -> string, rs: set<WSAResource>, roles: RoleObjects) {
    forall k :: k in roles && roles[k].managed ==>
      exists w :: w in rs && w.permissions != [] && k.name == InlineRef(hash, w).name
  }

  // Each managed ClusterRoleBinding left is named after one resource and one of its own
  // roles, though the resource may be a namespaced one.
  ghost predicate ClusterBindingsNeeded(hash: string -> string, rs: set<WSAResource>, crbs: Bindings) {
    forall k :: k in crbs && crbs[k].managed ==>
      exists w, f :: w in rs && (f in w.clusterRoles || (w.permissions != [] && f == InlineRef(hash, w)))
                     && k.name == ClusterRoleBindingName(hash, w.name, f.name)
  }

  // The cluster after a successful execution.
  ghost predicate Reconciled(hash: string -> string, plan: Plan, c: Cluster)
    reads c.serviceAccounts, c.roles, c.clusterRoles, c.roleBindings, c.clusterRoleBindings
  {
    && c.serviceAccounts.Managed() == AccountKeys(plan.accounts, Elements(plan.targetNamespaces))
    && Present(plan.accounts, c.serviceAccounts.Managed(), {}, c.serviceAccounts.objects)
    && RolesMade(hash, Elements(plan.resources), NO_FAILURES, Elements(plan.resources),
                 c.roles.objects, c.clusterRoles.objects)
    && RolesNeeded(hash, Elements(plan.resources), c.roles.objects)
    && BindingsExact(EnvOf(hash, plan), c.roleBindings.objects)
    && ClusterBindingsMade(EnvOf(hash, plan), c.clusterRoleBindings.objects)
    && ClusterBindingsNeeded(hash, Elements(plan.resources), c.clusterRoleBindings.objects)
  }

  // All accounts, roles and bindings of the plan are there.
  ghost predicate Ensured(hash: string -> string, plan: Plan, accounts: AccountObjects,
                          roles: RoleObjects, clusterRoles: RoleObjects, bindings: AllBindings)
  {
    && Present(plan.accounts, AccountKeys(plan.accounts, Elements(plan.targetNamespaces)), {}, accounts)
    && RolesMade(hash, Elements(plan.resources), NO_FAILURES, Elements(plan.resources), roles, clusterRoles)
    && AllBound(EnvOf(hash, plan), NO_FAILURES, Elements(plan.resources), bindings.namespaced, bindings.clusterWide)
  }

  // ---- Nothing ensured is collected

  lemma PartHash(env: Env)
    ensures Part(env, true).hash == env.hash && Part(env, false).hash == env.hash
  {}

  lemma ExplainedIsManaged(env: Env, k: Key, o: Object<Binding>)
    requires env.Explained(k, o)
    ensures o.managed
  {}

  lemma CollectedBindings(env: Env, rbs0: Bindings, rbs: Bindings)
    requires forall w, f :: w in env.resources && w.Namespaced? && f in Refs(env.hash, w) ==>
      Part(env, true).Bound(w, f, rbs0)
    requires rbs == Kept(rbs0, OneOf(ExpectedBindings(env.hash, env.resources)))
    ensures BindingsExact(env, rbs)
  {
    hide Refs, BindingKey, Part, Env.Explained;
    PartHash(env);
    forall k | k in ExpectedBindings(env.hash, env.resources)
      ensures k in rbs && rbs[k].managed && Part(env, true).Explained(k, rbs[k])
    {
      var w, f :| w in env.resources && w.Namespaced? && f in Refs(env.hash, w) && BindingKey(env.hash, w, f) == k;
      assert Part(env, true).Bound(w, f, rbs0);
      ExplainedIsManaged(Part(env, true), k, rbs0[k]);
    }
  }

  lemma ClusterBindingExpected(hash: string -> string, ws: set<WSAResource>, w: WSAResource, f: RoleRef)
    requires w in ws && !w.Namespaced? && f in Refs(hash, w)
    ensures BindingKey(hash, w, f).name in ExpectedClusterBindings(hash, ws)
  {
    hide ClusterRoleBindingName, ClusterRoleName;
  }

  lemma ExpectedHasOwner(hash: string -> string, ws: set<WSAResource>, name: string)
    requires name in ExpectedClusterBindings(hash, ws)
    ensures exists w, f :: w in ws && (f in w.clusterRoles || (w.permissions != [] && f == InlineRef(hash, w)))
                           && name == ClusterRoleBindingName(hash, w.name, f.name)
  {
    hide ClusterRoleBindingName, InlineRef;
    if w :| w in ws && w.permissions != [] && name == ClusterRoleBindingName(hash, w.name, InlineRef(hash, w).name) {
      var f := InlineRef(hash, w);
      assert name == ClusterRoleBindingName(hash, w.name, f.name);
    }
  }

  lemma CollectedClusterBindings(env: Env, crbs0: Bindings, crbs: Bindings)
    requires ClusterBindingsMade(env, crbs0)
    requires crbs == Kept(crbs0, OfName(ExpectedClusterBindings(env.hash, env.resources)))
    ensures ClusterBindingsMade(env, crbs) && ClusterBindingsNeeded(env.hash, env.resources, crbs)
  {
    forall k | k in crbs && crbs[k].managed
      ensures exists w, f ::
                w in env.resources && (f in w.clusterRoles || (w.permissions != [] && f == InlineRef(env.hash, w)))
                && k.name == ClusterRoleBindingName(env.hash, w.name, f.name)
    {
      ExpectedHasOwner(env.hash, env.resources, k.name);
    }
    hide Refs, BindingKey, Part, ExpectedClusterBindings, Env.Explained;
    forall w, f | w in env.resources && !w.Namespaced? && f in Refs(env.hash, w)
      ensures Part(env, false).Bound(w, f, crbs)
    {
      assert Part(env, false).Bound(w, f, crbs0);
      ClusterBindingExpected(env.hash, env.resources, w, f);
      PartHash(env);
    }
  }

  lemma CollectedRoles(hash: string -> string, ws: set<WSAResource>, roles0: RoleObjects,
                       roles: RoleObjects, clusterRoles: RoleObjects)
    requires RolesMade(hash, ws, NO_FAILURES, ws, roles0, clusterRoles)
    requires roles == Kept(roles0, OfName(ExpectedRoles(hash, ws)))
    ensures RolesMade(hash, ws, NO_FAILURES, ws, roles, clusterRoles) && RolesNeeded(hash, ws, roles)
  {
    hide InlineRef, IsRoleOf;
    forall w | w in ws && w.permissions != [] ensures RoleMade(hash, ws, w, roles, clusterRoles) {
      assert RoleMade(hash, ws, w, roles0, clusterRoles);
      assert InlineRef(hash, w).name in ExpectedRoles(hash, ws);
    }
  }

  lemma CollectedAccounts(accounts: seq<ServiceAccount>, targetNamespaces: set<string>, names: set<string>,
                          sas0: AccountObjects, sas: AccountObjects)
    requires names == set a | a in accounts :: a.name
    requires Present(accounts, AccountKeys(accounts, targetNamespaces), {}, sas0)
    requires sas == Kept(sas0, InNamespaceOfName(targetNamespaces, names))
    ensures (set k | k in sas && sas[k].managed) == AccountKeys(accounts, targetNamespaces)
    ensures Present(accounts, AccountKeys(accounts, targetNamespaces), {}, sas)
  {
    forall k | k in sas && sas[k].managed ensures k in AccountKeys(accounts, targetNamespaces) {
      var a :| a in accounts && a.name == k.name;
      assert Key(k.namespace, a.name) == k;
    }
  }

  // Every resource of a plan owns an account, because its coverage is never empty.
  lemma EveryResourceHasAccounts(hash: string -> string, rs: set<WSAResource>, plan: Plan)
    requires IsPlanFor(hash, rs, plan)
    ensures WithAccounts(EnvOf(hash, plan), rs) == rs
  {
    hide WellFormed, TableOf, NameOf, IsCompiled, IsAccounts, Live;
    assert ValidSet(rs) by { PlanIsValid(hash, rs, plan); }
    forall w | w in rs ensures w.GetKey() in plan.wsaToSAs && plan.wsaToSAs[w.GetKey()] != [] {
      var s := EveryResourceIsInTable(rs, w);
      assert w.GetKey() in KeysOver(TableOf(rs), TableOf(rs).Keys);
      assert NameOf(hash, TableOf(rs), s) in NamesFor(hash, TableOf(rs), w.GetKey());
    }
  }

  lemma PlanIsValid(hash: string -> string, rs: set<WSAResource>, plan: Plan)
    requires IsPlanFor(hash, rs, plan)
    ensures ValidSet(rs) && DistinctKeys(Elements(plan.resources))
  {}

  // The resources that managed RoleBindings belong to.
  ghost function Owners(rbs: Bindings): set<Key> {
    set k | k in rbs && rbs[k].managed && rbs[k].value.owner.Some? :: rbs[k].value.owner.value
  }

  // Binding adds no owner but resources of the plan.
  lemma EvolvedOwners(env: Env, before: Bindings, after: Bindings)
    requires Part(env, true).Evolved(before, after)
    ensures Owners(after) <= Owners(before) + Keys(env.resources)
  {
    hide Refs, BindingKey;
    forall k | k in after && after[k].managed && after[k].value.owner.Some?
      ensures after[k].value.owner.value in Owners(before) + Keys(env.resources)
    {
      if Part(env, true).Explained(k, after[k]) {
        var w, f :| w in Part(env, true).resources && Part(env, true).IsBindingOf(w, f, after[k]);
        assert w in env.resources;
      }
    }
  }

  lemma ShrunkOwners(before: Bindings, after: Bindings)
    requires Shrunk(before, after)
    ensures Owners(after) <= Owners(before)
  {}

  // o binds a role of w, which owns it, in the namespace of w.
  ghost predicate InPlace(hash: string -> string, w: WSAResource, k: Key, o: Object<Binding>) {
    && w.Namespaced? && k.namespace == w.namespace && o.value.owner == Some(Key(w.namespace, w.name))
    && o.value.roleRef in RolesOf(hash, w)
  }

  // Once the bindings are exact, those of resources that were not listed are gone, and each
  // managed one binds a role of the resource that owns it, in its namespace.
  lemma ExactOwners(env: Env, rbs: Bindings)
    requires BindingsExact(env, rbs)
    ensures Owners(rbs) <= Keys(env.resources)
    ensures forall k :: k in rbs && rbs[k].managed ==> exists w :: w in env.resources && InPlace(env.hash, w, k, rbs[k])
  {
    hide Refs, RolesOf, RoleBindingName, Env.Bound, ExpectedBindings;
    forall k | k in rbs && rbs[k].managed
      ensures exists w :: w in env.resources && InPlace(env.hash, w, k, rbs[k])
    {
      assert Part(env, true).Explained(k, rbs[k]);
      var w, f :| w in Part(env, true).resources && f in Refs(env.hash, w) && BindingKey(env.hash, w, f) == k
                  && Part(env, true).IsBindingOf(w, f, rbs[k]);
      RefsByField(env.hash, w);
      assert w in env.resources && InPlace(env.hash, w, k, rbs[k]);
    }
  }

  // ---- The stage

  method EnsureAll(hash: string -> string, ghost rs: set<WSAResource>, plan: Plan, c: Cluster) returns (ok: bool)
    requires c.Separate() && IsPlanFor(hash, rs, plan)
    modifies c.serviceAccounts, c.roles, c.clusterRoles, c.roleBindings, c.clusterRoleBindings
    ensures ok <==> c.ErrorLog() == old(c.ErrorLog())
    ensures c.roles.errors != old(c.roles.errors) || c.clusterRoles.errors != old(c.clusterRoles.errors) ==>
      unchanged(c.serviceAccounts, c.roleBindings, c.clusterRoleBindings)
    ensures c.serviceAccounts.errors != old(c.serviceAccounts.errors) ==>
      unchanged(c.roleBindings, c.clusterRoleBindings)
    ensures Part(EnvOf(hash, plan), true).Evolved(old(c.roleBindings.objects), c.roleBindings.objects)
    ensures Part(EnvOf(hash, plan), false).Evolved(old(c.clusterRoleBindings.objects), c.clusterRoleBindings.objects)
    ensures Extended(old(c.roleBindings.errors), c.roleBindings.errors)
    ensures Extended(old(c.clusterRoleBindings.errors), c.clusterRoleBindings.errors)
    ensures ok ==> RefsAgree(hash, rs) && NoRoleChange(hash, rs, old(BindingsOf(c)))
    ensures RefsAgree(hash, rs) && NoRoleChange(hash, rs, old(BindingsOf(c))) ==>
      && c.roleBindings.refusals == old(c.roleBindings.refusals)
      && c.clusterRoleBindings.refusals == old(c.clusterRoleBindings.refusals)
    ensures AccountsEvolved(plan.accounts, AccountKeys(plan.accounts, Elements(plan.targetNamespaces)),
                            old(c.serviceAccounts.objects), c.serviceAccounts.objects)
    ensures RolesEvolved(hash, rs, true, old(c.roles.objects), c.roles.objects)
    ensures RolesEvolved(hash, rs, false, old(c.clusterRoles.objects), c.clusterRoles.objects)
    ensures c.Listings() == old(c.Listings())
    ensures ok ==>
      Ensured(hash, plan, c.serviceAccounts.objects, c.roles.objects, c.clusterRoles.objects, BindingsOf(c))
  {
    hide AllBound, RolesMade, IsCreatedRoles, AccountKeys, IsPlanFor, Env.Evolved, Env.Smooth, WithAccounts, Part,
         DistinctKeys, RefsAgree, NoRoleChange, Extended, RolesEvolved, IsAccountOf;
    PlanIsValid(hash, rs, plan);
    PlanResources(hash, rs, plan);
    EveryResourceHasAccounts(hash, rs, plan);
    EvolvedRefl(Part(EnvOf(hash, plan), true), c.roleBindings.objects);
    EvolvedRefl(Part(EnvOf(hash, plan), false), c.clusterRoleBindings.objects);
    SmoothIff(EnvOf(hash, plan), BindingsOf(c));
    NothingFailed(c.roles.errors);
    NothingFailed(c.clusterRoles.errors);
    NothingFailed(c.serviceAccounts.errors);
    NothingFailed(c.roleBindings.errors);
    NothingFailed(c.clusterRoleBindings.errors);
    var created;
    ok, created := EnsureRoles(hash, c.roles, c.clusterRoles, plan.resources);
    if !ok { return; }
    ok := EnsureServiceAccounts(c.serviceAccounts, plan.accounts, plan.targetNamespaces);
    if !ok { return; }
    ok := EnsureRoleBindings(hash, c.roleBindings, c.clusterRoleBindings, plan.resources, created,
                             plan.wsaToSAs, plan.targetNamespaces);
    if ok { BoundWasSmooth(EnvOf(hash, plan), old(BindingsOf(c)), BindingsOf(c)); }
  }

  lemma PlanResources(hash: string -> string, rs: set<WSAResource>, plan: Plan)
    requires IsPlanFor(hash, rs, plan)
    ensures Elements(plan.resources) == rs
  {}

  ghost predicate EachOnce(before: seq<nat>, after: seq<nat>) {
    |after| == |before| && forall i :: 0 <= i < |after| ==> after[i] == before[i] + 1
  }

  // The four collections, in the order of the source, each only if the one before succeeded.
  method GarbageCollect(hash: string -> string, plan: Plan, c: Cluster) returns (ok: bool)
    requires c.Separate()
    requires Ensured(hash, plan, c.serviceAccounts.objects, c.roles.objects, c.clusterRoles.objects, BindingsOf(c))
    modifies c.serviceAccounts, c.roles, c.clusterRoles, c.roleBindings, c.clusterRoleBindings
    ensures ok <==> c.ErrorLog() == old(c.ErrorLog())
    ensures unchanged(c.clusterRoles) && Shrunk(old(c.serviceAccounts.objects), c.serviceAccounts.objects)
    ensures Shrunk(old(c.roles.objects), c.roles.objects)
    ensures Shrunk(old(c.roleBindings.objects), c.roleBindings.objects)
    ensures Shrunk(old(c.clusterRoleBindings.objects), c.clusterRoleBindings.objects)
    ensures Extended(old(c.roleBindings.errors), c.roleBindings.errors)
    ensures Extended(old(c.clusterRoleBindings.errors), c.clusterRoleBindings.errors)
    ensures c.roleBindings.refusals == old(c.roleBindings.refusals)
    ensures c.clusterRoleBindings.refusals == old(c.clusterRoleBindings.refusals)
    ensures c.serviceAccounts.errors != old(c.serviceAccounts.errors) ==>
      unchanged(c.roles, c.roleBindings, c.clusterRoleBindings)
    ensures c.roles.errors != old(c.roles.errors) ==> unchanged(c.roleBindings, c.clusterRoleBindings)
    ensures c.roleBindings.errors != old(c.roleBindings.errors) ==> unchanged(c.clusterRoleBindings)
    ensures ok ==> Reconciled(hash, plan, c) && EachOnce(old(c.Listings()), c.Listings())
  {
    hide Ensured, Reconciled, ExpectedBindings, ExpectedClusterBindings,
         ExpectedRoles, Kept, Shrunk, OfName, OneOf, InNamespaceOfName;
    ShrunkRefl(c.roles.objects);
    ShrunkRefl(c.roleBindings.objects);
    ShrunkRefl(c.clusterRoleBindings.objects);
    var expectedSAs := set a | a in plan.accounts :: a.name;
    var targetNSSet := set ns | ns in plan.targetNamespaces;
    assert targetNSSet == Elements(plan.targetNamespaces);
    ghost var sas0, roles0 := c.serviceAccounts.objects, c.roles.objects;
    ghost var bindings0 := BindingsOf(c);
    ok := GarbageCollectServiceAccounts(c.serviceAccounts, expectedSAs, targetNSSet);
    if !ok { return; }
    ok := GarbageCollectRoles(hash, c.roles, plan.resources);
    if !ok { return; }
    ok := GarbageCollectRoleBindings(hash, c.roleBindings, plan.resources);
    if !ok { return; }
    ok := GarbageCollectClusterRoleBindings(hash, c.clusterRoleBindings, plan.resources);
    if !ok { return; }
    AllCollected(hash, plan, c, expectedSAs, sas0, roles0, bindings0);
  }

  lemma ShrunkRefl<V>(objects: map<Key, Object<V>>)
    ensures Shrunk(objects, objects)
  {}

  lemma AllCollected(hash: string -> string, plan: Plan, c: Cluster, names: set<string>,
                     sas0: AccountObjects, roles0: RoleObjects, bindings0: AllBindings)
    requires names == set a | a in plan.accounts :: a.name
    requires Ensured(hash, plan, sas0, roles0, c.clusterRoles.objects, bindings0)
    requires c.serviceAccounts.objects
             == Kept(sas0, InNamespaceOfName(Elements(plan.targetNamespaces), names))
    requires c.roles.objects == Kept(roles0, OfName(ExpectedRoles(hash, Elements(plan.resources))))
    requires c.roleBindings.objects
             == Kept(bindings0.namespaced, OneOf(ExpectedBindings(hash, Elements(plan.resources))))
    requires c.clusterRoleBindings.objects
             == Kept(bindings0.clusterWide,
                     OfName(ExpectedClusterBindings(hash, Elements(plan.resources))))
    ensures Reconciled(hash, plan, c)
  {
    hide AccountKeys, RolesMade, Part, Refs, Env.Bound, ExpectedBindings, ExpectedClusterBindings, ExpectedRoles,
         RolesNeeded, ClusterBindingsNeeded, IsAccountOf, Kept;
    CollectedAccounts(plan.accounts, Elements(plan.targetNamespaces), names, sas0, c.serviceAccounts.objects);
    CollectedRoles(hash, Elements(plan.resources), roles0, c.roles.objects, c.clusterRoles.objects);
    CollectedBindings(EnvOf(hash, plan), bindings0.namespaced, c.roleBindings.objects);
    CollectedClusterBindings(EnvOf(hash, plan), bindings0.clusterWide, c.clusterRoleBindings.objects);
  }

  // ExecutionStage.Execute: the mappings are published only after the cluster was brought
  // in line with them; a failing call leaves the engine as it was.
  method Execute(hash: string -> string, ghost rs: set<WSAResource>, plan: Option<Plan>,
                 c: Cluster, engine: InMemoryEngine)
    returns (ok: bool, ghost ensured: AllBindings)
    requires c.Separate() && engine.Valid()
    requires plan.Some? ==> IsPlanFor(hash, rs, plan.value)
    modifies engine`scopeToSA, engine`saToWsaMap, engine`vocabulary, engine`scopeComputation
    modifies c.serviceAccounts, c.roles, c.clusterRoles, c.roleBindings, c.clusterRoleBindings
    ensures engine.Valid()
    ensures ok <==> plan.Some? && plan.value.targetNamespaces != [] && c.ErrorLog() == old(c.ErrorLog())
    ensures !ok ==> unchanged(engine)
    ensures ok ==> RefsAgree(hash, rs) && NoRoleChange(hash, rs, old(BindingsOf(c)))
    ensures plan.Some? && c.OtherErrors() == old(c.OtherErrors()) ==>
      (ok <==> && plan.value.targetNamespaces != []
               && RefsAgree(hash, rs) && NoRoleChange(hash, rs, old(BindingsOf(c))))
    ensures plan.None? ==> unchanged(c.roleBindings, c.clusterRoleBindings)
    ensures plan.Some? ==> BindingHistory(EnvOf(hash, plan.value), old(BindingsOf(c)), ensured, BindingsOf(c))
    ensures KeepsForeign(old(c.serviceAccounts.objects), c.serviceAccounts.objects,
              if plan.Some? then AccountKeys(plan.value.accounts, Elements(plan.value.targetNamespaces)) else {})
    ensures plan.None? ==> unchanged(c.serviceAccounts, c.roles, c.clusterRoles)
    ensures plan.Some? ==> RolesChanged(hash, rs, old(c.roles.objects), c.roles.objects)
    ensures plan.Some? ==> RolesEvolved(hash, rs, false, old(c.clusterRoles.objects), c.clusterRoles.objects)
    ensures ok ==> plan.Some? && plan.value.targetNamespaces != [] && Reconciled(hash, plan.value, c)
    ensures ok ==> EachOnce(old(c.Listings()), c.Listings())
    ensures ok ==> ClusterState(engine.scopeToSA, engine.saToWsaMap, engine.vocabulary)
                   == ClusterState(plan.value.scopeToSA, plan.value.saToWSAs, plan.value.vocabulary.value)
  {
    hide AccountKeys, RolesMade, AllBound, Reconciled, Env.Evolved, Part, RefsAgree, NoRoleChange, RolesEvolved,
         RolesChanged, IsAccountOf, EachOnce;
    ensured := BindingsOf(c);
    ghost var log, others := c.ErrorLog(), c.OtherErrors();
    ghost var refusals, clusterRefusals := c.roleBindings.refusals, c.clusterRoleBindings.refusals;
    if plan.Some? {
      EvolvedRefl(Part(EnvOf(hash, plan.value), true), ensured.namespaced);
      EvolvedRefl(Part(EnvOf(hash, plan.value), false), ensured.clusterWide);
      RolesRefl(hash, rs, c.roles.objects, c.clusterRoles.objects);
    }
    if plan.None? || |plan.value.targetNamespaces| == 0 {
      return false, ensured;
    }
    var p := plan.value;
    PlanResources(hash, rs, p);
    if |p.resources| > 0 {
      ok := EnsureAll(hash, rs, p, c);
      ensured := BindingsOf(c);
      OnlyRefused(log, c, others, refusals, clusterRefusals);
      EvolvedThenShrunk(hash, rs, old(c.roles.objects), c.roles.objects, c.roles.objects);
      if !ok { return; }
    } else {
      NothingToEnsure(hash, rs, p, c);
    }
    ghost var roles0 := c.roles.objects;
    ok := GarbageCollect(hash, p, c);
    EvolvedThenShrunk(hash, rs, old(c.roles.objects), roles0, c.roles.objects);
    OnlyRefused(log, c, others, refusals, clusterRefusals);
    if !ok { return; }
    engine.ApplyBatchPlan(p);
  }

  // Without refusals and other errors there are none.
  lemma OnlyRefused(log: seq<seq<Call>>, c: Cluster, others: (seq<Call>, seq<Call>, seq<Call>, int, int),
                    r: nat, cr: nat)
    requires |log| == 5 && Extended(log[3], c.roleBindings.errors) && Extended(log[4], c.clusterRoleBindings.errors)
    requires others == (log[0], log[1], log[2], |log[3]| - r, |log[4]| - cr)
    ensures c.OtherErrors() == others && c.roleBindings.refusals == r && c.clusterRoleBindings.refusals == cr ==>
      c.ErrorLog() == log
  {
    if c.OtherErrors() == others && c.roleBindings.refusals == r && c.clusterRoleBindings.refusals == cr {
      SameLength(log[3], c.roleBindings.errors);
      SameLength(log[4], c.clusterRoleBindings.errors);
    }
  }

  lemma RolesRefl(hash: string -> string, rs: set<WSAResource>, roles: RoleObjects, clusterRoles: RoleObjects)
    ensures RolesEvolved(hash, rs, true, roles, roles) && RolesChanged(hash, rs, roles, roles)
    ensures RolesEvolved(hash, rs, false, clusterRoles, clusterRoles)
  {}

  lemma ScopeOfAccount(hash: string -> string, t: Table, accounts: seq<ServiceAccount>) returns (s: Scope)
    requires IsAccounts(hash, t, accounts) && accounts != []
    ensures s in t
  {
    assert IsGroupAccount(hash, t, accounts[0]);
    s :| s in t && accounts[0] == ServiceAccount(NameOf(hash, t, s), GroupDims(t, s));
  }

  lemma NothingToEnsure(hash: string -> string, rs: set<WSAResource>, plan: Plan, c: Cluster)
    requires IsPlanFor(hash, rs, plan) && plan.resources == []
    ensures AccountKeys(plan.accounts, Elements(plan.targetNamespaces)) == {}
    ensures Ensured(hash, plan, c.serviceAccounts.objects, c.roles.objects, c.clusterRoles.objects, BindingsOf(c))
    ensures RefsAgree(hash, rs) && NoRoleChange(hash, rs, BindingsOf(c))
  {
    hide VocabularyOf, WellFormed, NameOf, GroupDims;
    assert rs == {};
    assert TableOf(rs) == map[];
    if plan.accounts != [] {
      var _ := ScopeOfAccount(hash, TableOf(rs), plan.accounts);
    }
  }
}
