// What a pod may do after a successful batch: from the lookup at admission to the
// RoleBindings in the cluster.
module EndToEnd {
  import opened Scopes
  import opened Generator
  import opened Mappings
  import opened Lookups
  import opened Tightness
  import opened Cluster
  import opened Engine
  import opened ResourceManagement
  import opened Execution

  datatype Grant = Grant(namespace: string, binding: string, role: RoleRef)

  function GrantAt(k: Key, f: RoleRef): Grant { Grant(k.namespace, k.name, f) }

  // The managed RoleBindings that name the subject.
  ghost function Held(rbs: Bindings, subject: Key): set<Grant> {
    set k | k in rbs && rbs[k].managed && subject in rbs[k].value.subjects :: GrantAt(k, rbs[k].value.roleRef)
  }

  // The roles of the namespaced WSAs that match the pod, each in the WSA's own namespace.
  ghost function Deserved(hash: string -> string, rs: set<WSAResource>, pod: Scope): set<Grant> {
    set w, f | w in Matching(rs, pod) && w.Namespaced? && f in RolesOf(hash, w)
      :: Grant(w.namespace, RoleBindingName(hash, w.name, f.name), f)
  }

  lemma DeservedAt(hash: string -> string, rs: set<WSAResource>, pod: Scope)
    ensures Deserved(hash, rs, pod)
            == set w, f | w in Matching(rs, pod) && w.Namespaced? && f in Refs(hash, w)
                 :: GrantAt(BindingKey(hash, w, f), f)
  {
    hide Refs, RolesOf, Matching, RoleBindingName;
    forall w ensures forall f :: f in Refs(hash, w) <==> f in RolesOf(hash, w) { RefsByField(hash, w); }
  }

  lemma AccountSubject(hash: string -> string, rs: set<WSAResource>, plan: Plan, w: WSAResource, f: RoleRef,
                       o: Object<Binding>, n: string, ns: string)
    requires IsPlanFor(hash, rs, plan) && w in rs && Part(EnvOf(hash, plan), true).IsBindingOf(w, f, o)
    ensures Key(ns, n) in o.value.subjects
            <==> n in NamesFor(hash, TableOf(rs), w.GetKey()) && ns in plan.targetNamespaces
  {
    hide NameOf, WellFormed, TableOf, IsCompiled, IsAccounts, NamesOver;
    assert Key(ns, n) in o.value.subjects <==> Key(ns, n) in Elements(o.value.subjects);
  }

  // ---- Which resources can be reconciled

  // The bindings of a plan's resources, of both kinds, are there.
  ghost predicate AllMade(env: Env, all: AllBindings) {
    BindingsExact(env, all.namespaced) && ClusterBindingsMade(env, all.clusterWide)
  }

  // Some cluster has all the bindings of the plan iff refs agree: otherwise no batch
  // succeeds. When one does is said by Execution.Execute.
  lemma ReconcilableIffRefsAgree(hash: string -> string, rs: set<WSAResource>, plan: Plan)
    requires IsPlanFor(hash, rs, plan)
    ensures (exists all :: AllMade(EnvOf(hash, plan), all)) <==> RefsAgree(hash, rs)
  {
    hide IsCompiled, IsWSAToSAs, IsAccounts, Refs, BindingKey, AllMade, RefsAgree;
    var env := EnvOf(hash, plan);
    PlanResources(hash, rs, plan);
    if all :| AllMade(env, all) {
      MadeRefsAgree(env, all);
    }
    if RefsAgree(hash, rs) {
      var all := AnyCluster(hash, rs, plan);
    }
  }

  lemma MadeHasRole(env: Env, all: AllBindings, w: WSAResource, f: RoleRef)
    requires AllMade(env, all) && w in env.resources && f in Refs(env.hash, w)
    ensures BindingKey(env.hash, w, f) in all.Of(w) && all.Of(w)[BindingKey(env.hash, w, f)].value.roleRef == f
  {
    hide Refs, BindingKey, ExpectedBindings, Env.Explained;
    PartHash(env);
    assert Part(env, w.Namespaced?).Bound(w, f, all.Of(w));
  }

  lemma MadeRefsAgree(env: Env, all: AllBindings)
    requires AllMade(env, all)
    ensures RefsAgree(env.hash, env.resources)
  {
    hide Refs, BindingKey, AllMade;
    forall w, f, x, g | w in env.resources && x in env.resources && w.Namespaced? == x.Namespaced?
      && f in Refs(env.hash, w) && g in Refs(env.hash, x) && BindingKey(env.hash, w, f) == BindingKey(env.hash, x, g)
      ensures f == g
    {
      MadeHasRole(env, all, w, f);
      MadeHasRole(env, all, x, g);
    }
  }

  ghost function SeqOf<T>(xs: set<T>): (r: seq<T>)
    ensures Elements(r) == xs
  {
    if xs == {} then [] else
      var x :| x in xs;
      assert Elements([x] + SeqOf(xs - {x})) == {x} + Elements(SeqOf(xs - {x}));
      [x] + SeqOf(xs - {x})
  }

  ghost function MadeFrom(env: Env, w: WSAResource, f: RoleRef): Object<Binding>
    requires w.GetKey() in env.names
  {
    var subjects := SeqOf(SubjectsOf(Elements(env.names[w.GetKey()]), env.targetNamespaces));
    Object(true, BindingFor(w, f, subjects))
  }

  ghost function BindingKeys(hash: string -> string, rs: set<WSAResource>, namespaced: bool): set<Key> {
    set w, f | w in rs && w.Namespaced? == namespaced && f in Refs(hash, w) :: BindingKey(hash, w, f)
  }

  ghost function AnyBinding(env: Env, rs: set<WSAResource>, namespaced: bool, k: Key): Object<Binding>
    requires k in BindingKeys(env.hash, rs, namespaced) && WithAccounts(env, rs) == rs
  {
    var w, f :| w in rs && w.Namespaced? == namespaced && f in Refs(env.hash, w) && BindingKey(env.hash, w, f) == k;
    assert w in WithAccounts(env, rs);
    MadeFrom(env, w, f)
  }

  lemma AnyBindingIsExplained(env: Env, rs: set<WSAResource>, namespaced: bool, k: Key)
    requires k in BindingKeys(env.hash, rs, namespaced) && WithAccounts(env, rs) == rs && env.resources == rs
    ensures var o := AnyBinding(env, rs, namespaced, k);
      && Part(env, namespaced).Explained(k, o) && o.managed
      && exists w, f :: w in rs && w.Namespaced? == namespaced && f in Refs(env.hash, w)
           && BindingKey(env.hash, w, f) == k && o.value.roleRef == f
  {
    hide Refs, BindingKey;
    var w, f :| w in rs && w.Namespaced? == namespaced && f in Refs(env.hash, w) && BindingKey(env.hash, w, f) == k
                && w in WithAccounts(env, rs) && AnyBinding(env, rs, namespaced, k) == MadeFrom(env, w, f);
    assert Part(env, namespaced).IsBindingOf(w, f, MadeFrom(env, w, f));
  }

  lemma AnyBindings(env: Env, rs: set<WSAResource>, namespaced: bool) returns (bindings: Bindings)
    requires env.resources == rs && WithAccounts(env, rs) == rs && RefsAgree(env.hash, rs)
    ensures bindings.Keys == BindingKeys(env.hash, rs, namespaced)
    ensures forall k :: k in bindings ==> Part(env, namespaced).Explained(k, bindings[k]) && bindings[k].managed
    ensures forall w, f :: w in rs && w.Namespaced? == namespaced && f in Refs(env.hash, w) ==>
      Part(env, namespaced).Bound(w, f, bindings)
  {
    hide Refs, BindingKey, AnyBinding, Part, Env.Explained;
    PartHash(env);
    bindings := map k | k in BindingKeys(env.hash, rs, namespaced) :: AnyBinding(env, rs, namespaced, k);
    forall k | k in bindings ensures Part(env, namespaced).Explained(k, bindings[k]) && bindings[k].managed {
      AnyBindingIsExplained(env, rs, namespaced, k);
    }
    forall w, f | w in rs && w.Namespaced? == namespaced && f in Refs(env.hash, w)
      ensures Part(env, namespaced).Bound(w, f, bindings)
    {
      assert BindingKey(env.hash, w, f) in BindingKeys(env.hash, rs, namespaced);
      AnyBindingIsExplained(env, rs, namespaced, BindingKey(env.hash, w, f));
    }
  }

  lemma AnyCluster(hash: string -> string, rs: set<WSAResource>, plan: Plan) returns (all: AllBindings)
    requires IsPlanFor(hash, rs, plan) && RefsAgree(hash, rs)
    ensures AllMade(EnvOf(hash, plan), all)
  {
    hide IsPlanFor, Refs, BindingKey, Part, Env.Explained, Env.Bound, RefsAgree;
    var env := EnvOf(hash, plan);
    PlanResources(hash, rs, plan);
    EveryResourceHasAccounts(hash, rs, plan);
    var rbs := AnyBindings(env, rs, true);
    var crbs := AnyBindings(env, rs, false);
    assert BindingKeys(hash, rs, true) == ExpectedBindings(hash, rs);
    all := AllBindings(rbs, crbs);
  }

  // A batch that succeeded met no binding for another role: to replace a Role by a
  // ClusterRole of the same name, the old binding must be removed by hand.
  lemma SuccessMetNoRoleChange(env: Env, before: AllBindings, ensured: AllBindings, after: AllBindings)
    requires BindingHistory(env, before, ensured, after) && AllMade(env, after)
    ensures RefsAgree(env.hash, env.resources) && NoRoleChange(env.hash, env.resources, before)
  {
    hide Refs, BindingKey, ExpectedBindings, Env.Explained, AllMade, RefsAgree;
    MadeRefsAgree(env, after);
    forall w, f | w in env.resources && f in Refs(env.hash, w) && BindingKey(env.hash, w, f) in before.Of(w)
      ensures before.Of(w)[BindingKey(env.hash, w, f)].value.roleRef == f
    {
      MadeHasRole(env, after, w, f);
    }
  }

  // ---- Grants in one reconciled cluster

  ghost predicate NothingIsMissing(hash: string -> string, rs: set<WSAResource>, plan: Plan,
                                   rbs: Bindings)
    requires DistinctKeys(rs)
  {
    forall pod: Scope, ns :: ns in plan.targetNamespaces ==>
      Deserved(hash, rs, pod) <= Held(rbs, Key(ns, Answer(hash, rs, pod)))
  }

  // Every binding holds the accounts of each resource that is bound under its name.
  ghost predicate Complete(env: Env, rbs: Bindings) {
    forall w, f :: w in env.resources && w.Namespaced? && f in Refs(env.hash, w) ==>
      && BindingKey(env.hash, w, f) in rbs && w.GetKey() in env.names
      && SubjectsOf(Elements(env.names[w.GetKey()]), env.targetNamespaces)
         <= Elements(rbs[BindingKey(env.hash, w, f)].value.subjects)
  }

  lemma NamesOfPlan(hash: string -> string, rs: set<WSAResource>, plan: Plan, w: WSAResource)
    requires IsPlanFor(hash, rs, plan) && w in rs
    ensures ValidSet(rs) && w.GetKey() in plan.wsaToSAs
    ensures Elements(plan.wsaToSAs[w.GetKey()]) == NamesFor(hash, TableOf(rs), w.GetKey())
  {
    hide NamesFor, TableOf, IsAccounts, WellFormed;
    PlanIsValid(hash, rs, plan);
    EveryResourceHasAccounts(hash, rs, plan);
    assert w in WithAccounts(EnvOf(hash, plan), rs);
  }

  // A pod matched by w that is answered with the name n.
  lemma PodOfName(hash: string -> string, rs: set<WSAResource>, w: WSAResource, n: string) returns (pod: Scope)
    requires ValidSet(rs) && w in rs && n in NamesFor(hash, TableOf(rs), w.GetKey())
    ensures w in Matching(rs, pod) && Answer(hash, rs, pod) == n
  {
    hide NameOf, WellFormed, TableOf, Matches;
    pod :| pod in TableOf(rs) && w.GetKey() in TableOf(rs)[pod] && NameOf(hash, TableOf(rs), pod) == n;
    TableScopeIsKnown(rs, pod);
    TableRefinesMatching(rs, pod);
    assert TableOf(rs)[pod] == ByKey(Matching(rs, pod));
  }

  lemma MissingSubject(hash: string -> string, rs: set<WSAResource>, plan: Plan, rbs: Bindings,
                       w: WSAResource, f: RoleRef, n: string, ns: string)
    requires IsPlanFor(hash, rs, plan) && DistinctKeys(rs) && NothingIsMissing(hash, rs, plan, rbs)
    requires w in rs && w.Namespaced? && f in Refs(hash, w) && ns in plan.targetNamespaces
    requires w.GetKey() in plan.wsaToSAs && n in plan.wsaToSAs[w.GetKey()]
    ensures BindingKey(hash, w, f) in rbs && Key(ns, n) in rbs[BindingKey(hash, w, f)].value.subjects
  {
    hide IsPlanFor, Refs, BindingKey, Answer, NamesFor, TableOf, WellFormed, Matches, Deserved;
    NamesOfPlan(hash, rs, plan, w);
    var pod := PodOfName(hash, rs, w, n);
    DeservedAt(hash, rs, pod);
    assert GrantAt(BindingKey(hash, w, f), f) in Deserved(hash, rs, pod);
    assert GrantAt(BindingKey(hash, w, f), f) in Held(rbs, Key(ns, Answer(hash, rs, pod)));
  }

  lemma CompleteGrants(hash: string -> string, rs: set<WSAResource>, plan: Plan, rbs: Bindings,
                       pod: Scope, ns: string)
    requires IsPlanFor(hash, rs, plan) && BindingsExact(EnvOf(hash, plan), rbs) && Complete(EnvOf(hash, plan), rbs)
    requires DistinctKeys(rs) && ns in plan.targetNamespaces
    ensures Deserved(hash, rs, pod) <= Held(rbs, Key(ns, Answer(hash, rs, pod)))
  {
    hide IsPlanFor, Refs, BindingKey, Answer, NamesFor, TableOf, WellFormed, Matches, ExpectedBindings, Env.Explained,
         Deserved;
    PlanResources(hash, rs, plan);
    PartHash(EnvOf(hash, plan));
    DeservedAt(hash, rs, pod);
    forall w, f | w in Matching(rs, pod) && w.Namespaced? && f in Refs(hash, w)
      ensures GrantAt(BindingKey(hash, w, f), f) in Held(rbs, Key(ns, Answer(hash, rs, pod)))
    {
      NamesOfPlan(hash, rs, plan, w);
      NeverUnderGrants(hash, rs, pod, w);
      var o := rbs[BindingKey(hash, w, f)];
      assert Part(EnvOf(hash, plan), true).Bound(w, f, rbs);
      ExplainedIsManaged(Part(EnvOf(hash, plan), true), BindingKey(hash, w, f), o);
      assert Key(ns, Answer(hash, rs, pod)) in Elements(o.value.subjects);
    }
  }

  // In a reconciled cluster no grant is missing iff its bindings are complete.
  lemma NothingIsMissingIffComplete(hash: string -> string, rs: set<WSAResource>, plan: Plan,
                                    rbs: Bindings)
    requires IsPlanFor(hash, rs, plan) && BindingsExact(EnvOf(hash, plan), rbs)
    ensures DistinctKeys(rs) && (NothingIsMissing(hash, rs, plan, rbs) <==> Complete(EnvOf(hash, plan), rbs))
  {
    hide IsPlanFor, Refs, BindingKey, BindingsExact, Answer, NamesFor, TableOf, DistinctKeys, Held, Deserved,
            WellFormed;
    var env := EnvOf(hash, plan);
    PlanIsValid(hash, rs, plan);
    PlanResources(hash, rs, plan);
    if NothingIsMissing(hash, rs, plan, rbs) {
      forall w, f | w in rs && w.Namespaced? && f in Refs(hash, w)
        ensures BindingKey(hash, w, f) in rbs && w.GetKey() in env.names
        ensures SubjectsOf(Elements(env.names[w.GetKey()]), env.targetNamespaces)
                <= Elements(rbs[BindingKey(hash, w, f)].value.subjects)
      {
        NamesOfPlan(hash, rs, plan, w);
        ExactHasKey(env, rbs, w, f);
        forall n, ns | n in Elements(env.names[w.GetKey()]) && ns in env.targetNamespaces
          ensures Key(ns, n) in rbs[BindingKey(hash, w, f)].value.subjects
        {
          MissingSubject(hash, rs, plan, rbs, w, f, n, ns);
        }
      }
    }
    if Complete(env, rbs) {
      forall pod: Scope, ns | ns in plan.targetNamespaces
        ensures Deserved(hash, rs, pod) <= Held(rbs, Key(ns, Answer(hash, rs, pod)))
      {
        CompleteGrants(hash, rs, plan, rbs, pod, ns);
      }
    }
  }

  lemma ExactHasKey(env: Env, rbs: Bindings, w: WSAResource, f: RoleRef)
    requires BindingsExact(env, rbs) && w in env.resources && w.Namespaced? && f in Refs(env.hash, w)
    ensures BindingKey(env.hash, w, f) in rbs
  {
    hide Refs, BindingKey, ExpectedBindings, Env.Explained;
    PartHash(env);
    assert Part(env, true).Bound(w, f, rbs);
  }

  function BindingText(w: WSAResource, f: RoleRef): string { w.name + "-" + f.name }

  // The hash does not collide on the texts that the bindings of one kind are named by.
  ghost predicate BindingsApart(hash: string -> string, rs: set<WSAResource>, namespaced: bool) {
    forall w, f, x, g ::
      w in rs && x in rs && w.Namespaced? == x.Namespaced? == namespaced && f in Refs(hash, w) && g in Refs(hash, x)
      && hash(BindingText(w, f)) == hash(BindingText(x, g))
      ==> BindingText(w, f) == BindingText(x, g)
  }

  // A role is bound under one name by one resource only.
  lemma SharedBindingIsOwn(hash: string -> string, rs: set<WSAResource>, w: WSAResource, x: WSAResource, f: RoleRef)
    requires DistinctKeys(rs) && BindingsApart(hash, rs, w.Namespaced?) && w in rs && x in rs
    requires w.Namespaced? == x.Namespaced?
    requires f in Refs(hash, w) && f in Refs(hash, x) && BindingKey(hash, w, f) == BindingKey(hash, x, f)
    ensures w == x
  {
    hide Refs;
    var prefix := if w.Namespaced? then "octopus-rb-" else "octopus-crb-";
    assert (prefix + hash(BindingText(w, f)))[|prefix|..] == hash(BindingText(w, f));
    assert (prefix + hash(BindingText(x, f)))[|prefix|..] == hash(BindingText(x, f));
    assert |BindingText(w, f)| == |BindingText(x, f)|;
    assert BindingText(w, f)[..|w.name|] == w.name && BindingText(x, f)[..|x.name|] == x.name;
  }

  lemma ReconciledIsComplete(hash: string -> string, rs: set<WSAResource>, plan: Plan, rbs: Bindings)
    requires IsPlanFor(hash, rs, plan) && BindingsExact(EnvOf(hash, plan), rbs) && BindingsApart(hash, rs, true)
    ensures Complete(EnvOf(hash, plan), rbs)
  {
    hide IsPlanFor, Refs, BindingKey, BindingsApart, ExpectedBindings, WellFormed;
    var env := EnvOf(hash, plan);
    PlanIsValid(hash, rs, plan);
    PlanResources(hash, rs, plan);
    PartHash(env);
    forall w, f | w in rs && w.Namespaced? && f in Refs(hash, w)
      ensures BindingKey(hash, w, f) in rbs && w.GetKey() in env.names
      ensures SubjectsOf(Elements(env.names[w.GetKey()]), env.targetNamespaces)
              <= Elements(rbs[BindingKey(hash, w, f)].value.subjects)
    {
      var k := BindingKey(hash, w, f);
      assert Part(env, true).Bound(w, f, rbs);
      var x, g :| x in Part(env, true).resources && g in Refs(hash, x) && BindingKey(hash, x, g) == k
                  && Part(env, true).IsBindingOf(x, g, rbs[k]);
      SharedBindingIsOwn(hash, rs, w, x, f);
    }
  }

  // ---- When grants are exact

  ghost predicate GrantsRoles(w: WSAResource) {
    w.Namespaced? && (w.roles != [] || w.clusterRoles != [] || w.permissions != [])
  }

  lemma GrantsRolesIff(hash: string -> string, w: WSAResource)
    ensures GrantsRoles(w) <==> w.Namespaced? && Refs(hash, w) != []
  {}

  // Groups with one name hold the same of the resources that grant anything.
  ghost predicate DistinctGrants(hash: string -> string, rs: set<WSAResource>)
    requires DistinctKeys(rs)
  {
    var t := TableOf(rs);
    forall s, u, w ::
      s in t && u in t && NameOf(hash, t, s) == NameOf(hash, t, u) && w in rs && GrantsRoles(w)
      && w.GetKey() in t[s]
      ==> w.GetKey() in t[u]
  }

  lemma DistinctNamesSuffice(hash: string -> string, rs: set<WSAResource>)
    requires DistinctKeys(rs) && DistinctNames(hash, TableOf(rs))
    ensures DistinctGrants(hash, rs)
  {
    hide NameOf, TableOf, GrantsRoles;
  }

  // In the pair of Tightness groups with one name do not grant the same.
  lemma PairGrantsDiffer(hash: string -> string, ms: set<Dim>)
    requires |ms| >= 2
    ensures ValidSet(Pair(ms)) && !DistinctGrants(hash, Pair(ms))
  {
    hide NameOf, TableOf, GrantsRoles, WellFormed, Refs;
    PairNamesCollide(hash, ms);
    var rs, t := Pair(ms), TableOf(Pair(ms));
    var s, u :| s in t && u in t && NameOf(hash, t, s) == NameOf(hash, t, u) && t[s].Keys != t[u].Keys;
    forall w | w in rs ensures GrantsRoles(w) { PairGrantsRoles(ms, w); }
    forall k | k in t[s] || k in t[u] ensures k in Keys(rs) {
      if k in t[s] { TableKeysAreResources(rs, s, k); } else { TableKeysAreResources(rs, u, k); }
    }
    if DistinctGrants(hash, rs) {
      forall k ensures k in t[s] <==> k in t[u] {}
    }
  }

  lemma PairGrantsRoles(ms: set<Dim>, w: WSAResource)
    requires w in Pair(ms)
    ensures GrantsRoles(w)
  {}

  ghost predicate Exact(hash: string -> string, rs: set<WSAResource>, plan: Plan, rbs: Bindings)
    requires DistinctKeys(rs)
  {
    forall pod: Scope, ns :: ns in plan.targetNamespaces ==>
      Held(rbs, Key(ns, Answer(hash, rs, pod))) == Deserved(hash, rs, pod)
  }

  // With distinct grants, no binding reaches a pod that its WSA does not match.
  lemma NothingExtra(hash: string -> string, rs: set<WSAResource>, plan: Plan, rbs: Bindings,
                     pod: Scope, ns: string)
    requires IsPlanFor(hash, rs, plan) && BindingsExact(EnvOf(hash, plan), rbs)
    requires DistinctKeys(rs) && DistinctGrants(hash, rs)
    ensures Held(rbs, Key(ns, Answer(hash, rs, pod))) <= Deserved(hash, rs, pod)
  {
    hide IsPlanFor, Answer, Refs, Matches, BindingKey, NamesFor, DistinctGrants, WellFormed, TableOf,
         ExpectedBindings, Deserved;
    var env, n := EnvOf(hash, plan), Answer(hash, rs, pod);
    DeservedAt(hash, rs, pod);
    PlanIsValid(hash, rs, plan);
    PlanResources(hash, rs, plan);
    forall k | k in rbs && rbs[k].managed && Key(ns, n) in rbs[k].value.subjects
      ensures GrantAt(k, rbs[k].value.roleRef) in Deserved(hash, rs, pod)
    {
      assert Part(env, true).Explained(k, rbs[k]);
      var w, f :| w in Part(env, true).resources && f in Refs(hash, w) && BindingKey(hash, w, f) == k
                  && Part(env, true).IsBindingOf(w, f, rbs[k]);
      AccountSubject(hash, rs, plan, w, f, rbs[k], n, ns);
      GrantsRolesIff(hash, w);
      GrantedIsMatching(hash, rs, pod, w);
    }
  }

  lemma GrantedIsMatching(hash: string -> string, rs: set<WSAResource>, pod: Scope, w: WSAResource)
    requires ValidSet(rs) && DistinctGrants(hash, rs) && w in rs && GrantsRoles(w)
    requires Answer(hash, rs, pod) in NamesFor(hash, TableOf(rs), w.GetKey())
    ensures w in Matching(rs, pod)
  {
    hide NameOf, Covers, WellFormed, GrantsRoles, TableOf;
    var t := TableOf(rs);
    var known := GetKnownScopeCombination(VocabularyOf(rs), pod);
    TableRefinesMatching(rs, pod);
    var s :| s in t && w.GetKey() in t[s] && NameOf(hash, t, s) == Answer(hash, rs, pod);
    NamesAreNotEmpty(hash, t, s);
    assert known in t && NameOf(hash, t, known) == NameOf(hash, t, s);
    assert w.GetKey() in t[known];
    var x :| x in Matching(rs, pod) && x.GetKey() == w.GetKey();
  }

  lemma ExactNeedsDistinctGrants(hash: string -> string, rs: set<WSAResource>, plan: Plan,
                                 rbs: Bindings, s: Scope, u: Scope, w: WSAResource)
    requires IsPlanFor(hash, rs, plan) && BindingsExact(EnvOf(hash, plan), rbs) && BindingsApart(hash, rs, true)
    requires ValidSet(rs) && Exact(hash, rs, plan, rbs) && plan.targetNamespaces != []
    requires s in TableOf(rs) && u in TableOf(rs) && NameOf(hash, TableOf(rs), s) == NameOf(hash, TableOf(rs), u)
    requires w in rs && GrantsRoles(w) && w.GetKey() in TableOf(rs)[s]
    ensures w.GetKey() in TableOf(rs)[u]
  {
    hide IsPlanFor, BindingsExact, NameOf, Covers, WellFormed, TableOf, BindingKey, Refs, BindingsApart, Matches,
         Deserved;
    DeservedAt(hash, rs, u);
    GrantsRolesIff(hash, w);
    var t, ns, f := TableOf(rs), plan.targetNamespaces[0], Refs(hash, w)[0];
    var n, k := NameOf(hash, TableOf(rs), s), BindingKey(hash, w, f);
    PlanResources(hash, rs, plan);
    ReconciledIsComplete(hash, rs, plan, rbs);
    NamesOfPlan(hash, rs, plan, w);
    TableScopeIsKnown(rs, u);
    assert Answer(hash, rs, u) == n && n in NamesFor(hash, t, w.GetKey());
    assert Key(ns, n) in Elements(rbs[k].value.subjects);
    BoundHasRole(EnvOf(hash, plan), rbs, w, f);
    assert GrantAt(k, f) in Held(rbs, Key(ns, n));
    assert GrantAt(k, f) in Deserved(hash, rs, u);
    var x, g :| x in Matching(rs, u) && x.Namespaced? && g in Refs(hash, x)
                && GrantAt(BindingKey(hash, x, g), g) == GrantAt(k, f);
    SharedBindingIsOwn(hash, rs, w, x, f);
    TableRefinesMatching(rs, u);
  }

  lemma BoundHasRole(env: Env, rbs: Bindings, w: WSAResource, f: RoleRef)
    requires BindingsExact(env, rbs) && w in env.resources && w.Namespaced? && f in Refs(env.hash, w)
    ensures var k := BindingKey(env.hash, w, f); k in rbs && rbs[k].managed && rbs[k].value.roleRef == f
  {
    hide Refs, BindingKey, ExpectedBindings, Env.Explained;
    PartHash(env);
    assert Part(env, true).Bound(w, f, rbs);
    ExplainedIsManaged(Part(env, true), BindingKey(env.hash, w, f), rbs[BindingKey(env.hash, w, f)]);
  }

  // In every reconciled cluster: pods hold exactly the bindings of the namespaced WSAs that
  // match them iff groups with one name grant the same.
  lemma ExactIffDistinctGrants(hash: string -> string, rs: set<WSAResource>, plan: Plan, rbs: Bindings)
    requires IsPlanFor(hash, rs, plan) && BindingsExact(EnvOf(hash, plan), rbs) && BindingsApart(hash, rs, true)
    requires plan.targetNamespaces != []
    ensures DistinctKeys(rs) && (Exact(hash, rs, plan, rbs) <==> DistinctGrants(hash, rs))
  {
    hide IsPlanFor, BindingsExact, BindingsApart, Answer, Held, Deserved, TableOf, NameOf, WellFormed, GrantsRoles,
            Complete;
    PlanIsValid(hash, rs, plan);
    if Exact(hash, rs, plan, rbs) {
      forall s, u, w | s in TableOf(rs) && u in TableOf(rs)
        && NameOf(hash, TableOf(rs), s) == NameOf(hash, TableOf(rs), u) && w in rs && GrantsRoles(w)
        && w.GetKey() in TableOf(rs)[s]
        ensures w.GetKey() in TableOf(rs)[u]
      {
        ExactNeedsDistinctGrants(hash, rs, plan, rbs, s, u, w);
      }
    }
    if DistinctGrants(hash, rs) {
      ReconciledIsComplete(hash, rs, plan, rbs);
      NothingIsMissingIffComplete(hash, rs, plan, rbs);
      forall pod: Scope, ns | ns in plan.targetNamespaces
        ensures Held(rbs, Key(ns, Answer(hash, rs, pod))) == Deserved(hash, rs, pod)
      {
        NothingExtra(hash, rs, plan, rbs, pod, ns);
      }
    }
  }

  lemma PairRefsAgree(hash: string -> string, ms: set<Dim>)
    ensures RefsAgree(hash, Pair(ms))
  {
    assert forall w, f :: w in Pair(ms) && f in Refs(hash, w) ==> f == VIEW;
  }

  // Two dimensions mixed in two resources that grant a role are enough: the plan of the
  // pair can be carried out, and however it is, some pod holds what it does not deserve.
  lemma PairIsOverGranted(hash: string -> string, ms: set<Dim>, plan: Plan)
    requires |ms| >= 2 && IsPlanFor(hash, Pair(ms), plan) && plan.targetNamespaces != []
    requires BindingsApart(hash, Pair(ms), true)
    ensures DistinctKeys(Pair(ms)) && exists all :: AllMade(EnvOf(hash, plan), all)
    ensures forall all :: AllMade(EnvOf(hash, plan), all) ==> HoldsTooMuch(hash, Pair(ms), plan, all.namespaced)
  {
    hide IsPlanFor, AllMade, Exact, DistinctGrants, BindingsApart, HoldsTooMuch, RefsAgree;
    PairGrantsDiffer(hash, ms);
    PairRefsAgree(hash, ms);
    ReconcilableIffRefsAgree(hash, Pair(ms), plan);
    forall all | AllMade(EnvOf(hash, plan), all) ensures HoldsTooMuch(hash, Pair(ms), plan, all.namespaced) {
      assert BindingsExact(EnvOf(hash, plan), all.namespaced) by { MadeIsExact(EnvOf(hash, plan), all); }
      hide BindingsExact;
      ExactIffDistinctGrants(hash, Pair(ms), plan, all.namespaced);
      ReconciledIsComplete(hash, Pair(ms), plan, all.namespaced);
      NothingIsMissingIffComplete(hash, Pair(ms), plan, all.namespaced);
      InexactHoldsTooMuch(hash, Pair(ms), plan, all.namespaced);
    }
  }

  lemma MadeIsExact(env: Env, all: AllBindings)
    requires AllMade(env, all)
    ensures BindingsExact(env, all.namespaced)
  {}

  ghost predicate HoldsTooMuch(hash: string -> string, rs: set<WSAResource>, plan: Plan, rbs: Bindings)
    requires DistinctKeys(rs)
  {
    exists pod: Scope, ns, g :: ns in plan.targetNamespaces
      && g in Held(rbs, Key(ns, Answer(hash, rs, pod))) && g !in Deserved(hash, rs, pod)
  }

  lemma InexactHoldsTooMuch(hash: string -> string, rs: set<WSAResource>, plan: Plan, rbs: Bindings)
    requires DistinctKeys(rs) && NothingIsMissing(hash, rs, plan, rbs) && !Exact(hash, rs, plan, rbs)
    ensures HoldsTooMuch(hash, rs, plan, rbs)
  {
    hide Held, Deserved, Answer;
    var pod: Scope, ns :| ns in plan.targetNamespaces
      && Held(rbs, Key(ns, Answer(hash, rs, pod))) != Deserved(hash, rs, pod);
    assert Deserved(hash, rs, pod) <= Held(rbs, Key(ns, Answer(hash, rs, pod)));
    var g :| g in Held(rbs, Key(ns, Answer(hash, rs, pod))) && g !in Deserved(hash, rs, pod);
  }

  // ---- Resources that no batch can reconcile, whatever the hash

  function BindingRoles(name: string, roles: seq<RoleRef>, clusterRoles: seq<RoleRef>): WSAResource {
    Namespaced("ns", name, SpecOn({}), [], roles, clusterRoles)
  }

  // A Role and a ClusterRole of one name.
  lemma RoleAndClusterRoleClash(hash: string -> string)
    ensures var rs := {BindingRoles("a", [RoleRef("Role", "r")], [RoleRef("ClusterRole", "r")])};
      ValidSet(rs) && !RefsAgree(hash, rs)
  {
    var f, g := RoleRef("Role", "r"), RoleRef("ClusterRole", "r");
    var w := BindingRoles("a", [f], [g]);
    assert f in Refs(hash, w) && g in Refs(hash, w) && BindingKey(hash, w, f) == BindingKey(hash, w, g);
    assert f.kind[0] != g.kind[0];
  }

  // A hyphen that moves from a resource's name to a role's.
  lemma HyphenClash(hash: string -> string)
    ensures var rs := {BindingRoles("a-b", [RoleRef("Role", "c")], []),
                       BindingRoles("a", [RoleRef("Role", "b-c")], [])};
      ValidSet(rs) && !RefsAgree(hash, rs)
  {
    var f, g := RoleRef("Role", "c"), RoleRef("Role", "b-c");
    var w, x := BindingRoles("a-b", [f], []), BindingRoles("a", [g], []);
    assert |w.name| != |x.name| && |f.name| != |g.name|;
    assert BindingText(w, f) == BindingText(x, g);
    assert f in Refs(hash, w) && g in Refs(hash, x) && BindingKey(hash, w, f) == BindingKey(hash, x, g);
  }

  // The same among cluster-scoped resources, whose bindings are named likewise.
  lemma ClusterHyphenClash(hash: string -> string)
    ensures var rs := {ClusterWide("a-b", SpecOn({}), [], [RoleRef("ClusterRole", "c")]),
                       ClusterWide("a", SpecOn({}), [], [RoleRef("ClusterRole", "b-c")])};
      ValidSet(rs) && !RefsAgree(hash, rs)
  {
    var f, g := RoleRef("ClusterRole", "c"), RoleRef("ClusterRole", "b-c");
    var w, x := ClusterWide("a-b", SpecOn({}), [], [f]), ClusterWide("a", SpecOn({}), [], [g]);
    assert |w.name| != |x.name| && |f.name| != |g.name|;
    assert w.name + "-" + f.name == x.name + "-" + g.name;
    assert f in Refs(hash, w) && g in Refs(hash, x) && BindingKey(hash, w, f) == BindingKey(hash, x, g);
  }
}
