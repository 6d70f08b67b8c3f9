// internal/rules/engine.go: the state a replica answers lookups from.
module Engine {
  import opened Scopes
  import opened Generator
  import opened Mappings
  import opened Lookups
  import opened Cluster

  type SAToWSAs = map<string, map<Key, WSAResource>>

  datatype Plan = Plan(
    scopeToSA: map<Scope, string>, saToWSAs: SAToWSAs, wsaToSAs: map<Key, seq<string>>,
    vocabulary: Option<Box>, accounts: seq<ServiceAccount>,
    resources: seq<WSAResource>, targetNamespaces: seq<string>)

  datatype ClusterState = ClusterState(scopeToSA: map<Scope, string>, saToWSAs: SAToWSAs, vocabulary: Box)

  // state is a possible outcome of compiling rs.
  ghost predicate IsCompiled(hash: string -> string, rs: set<WSAResource>, state: ClusterState) {
    && ValidSet(rs)
    && ScopeComputation(state.vocabulary, state.scopeToSA) == Compile(hash, rs)
    && IsSAToWSAs(hash, TableOf(rs), TableOf(rs).Keys, state.saToWSAs)
  }

  // What the engine takes over from a plan.
  ghost function StateOf(plan: Plan): ClusterState
    requires plan.vocabulary.Some?
  {
    ClusterState(plan.scopeToSA, plan.saToWSAs, plan.vocabulary.value)
  }

  ghost predicate IsPlanFor(hash: string -> string, rs: set<WSAResource>, plan: Plan) {
    && plan.vocabulary.Some?
    && IsCompiled(hash, rs, StateOf(plan))
    && IsWSAToSAs(hash, TableOf(rs), plan.wsaToSAs)
    && IsAccounts(hash, TableOf(rs), plan.accounts)
    && Elements(plan.resources) == rs
  }

  ghost predicate InMaps(saToWsaMap: SAToWSAs, k: Key) {
    exists n :: n in saToWsaMap && k in saToWsaMap[n]
  }

  class InMemoryEngine {
    var scopeToSA: map<Scope, string>
    var vocabulary: Box
    var saToWsaMap: SAToWSAs
    var scopeComputation: ScopeComputation
    const configured: bool                      // target namespaces are given, not discovered
    const targetNamespaces: seq<string>
    var namespaceCache: Option<seq<string>>
    ghost var rebuilds: nat                     // how often a rebuild was tried

    ghost predicate Valid()
      reads this
    {
      scopeComputation == ScopeComputation(vocabulary, scopeToSA)
    }

    constructor (configured: bool, targetNamespaces: seq<string>)
      ensures Valid() && saToWsaMap == map[] && namespaceCache == None
      ensures this.configured == configured && this.targetNamespaces == targetNamespaces
      ensures scopeComputation == ScopeComputation([{}, {}, {}, {}, {}, {}], map[])
    {
      scopeToSA, vocabulary, saToWsaMap := map[], [{}, {}, {}, {}, {}, {}], map[];
      scopeComputation := ScopeComputation([{}, {}, {}, {}, {}, {}], map[]);
      this.configured, this.targetNamespaces, namespaceCache := configured, targetNamespaces, None;
    }

    // The cache may have expired at any call. What a failed discovery gave is cached too.
    method GetOrDiscoverTargetNamespaces(c: Cluster, matches: string -> bool) returns (namespaces: seq<string>)
      modifies `namespaceCache, c`logged
      ensures configured ==> namespaces == targetNamespaces && unchanged(this) && unchanged(c)
      ensures !configured ==> namespaceCache == Some(namespaces)
      ensures !configured ==>
        (unchanged(this) && unchanged(c)) || IsDiscovered(c, matches, namespaces, c.logged != old(c.logged))
    {
      if configured {
        return targetNamespaces;
      }
      var expired := *;
      if namespaceCache.Some? && !expired {
        return namespaceCache.value;
      }
      namespaces := DiscoverTargetNamespaces(c, matches);
      namespaceCache := Some(namespaces);
    }

    // A plan without a vocabulary would leave the old one in place.
    method ApplyBatchPlan(plan: Plan)
      requires Valid()
      modifies `scopeToSA, `saToWsaMap, `vocabulary, `scopeComputation
      ensures Valid()
      ensures scopeToSA == plan.scopeToSA && saToWsaMap == plan.saToWSAs
      ensures vocabulary == if plan.vocabulary.Some? then plan.vocabulary.value else old(vocabulary)
    {
      scopeToSA := plan.scopeToSA;
      saToWsaMap := plan.saToWSAs;
      if plan.vocabulary.Some? {
        vocabulary := plan.vocabulary.value;
      }
      scopeComputation := ScopeComputation(vocabulary, scopeToSA);
    }

    method RebuildStateFromCluster(hash: string -> string, c: Cluster) returns (ok: bool)
      requires Valid() && ValidWorkloads(c.workloads)
      modifies `scopeToSA, `saToWsaMap, `vocabulary, `scopeComputation, `rebuilds, c`errors
      ensures Valid() && (ok <==> c.errors == old(c.errors)) && c.errors >= old(c.errors)
      ensures ok ==> IsCompiled(hash, Live(c.workloads), ClusterState(scopeToSA, saToWsaMap, vocabulary))
      ensures !ok ==> unchanged(`scopeToSA, `saToWsaMap, `vocabulary, `scopeComputation)
      ensures rebuilds == old(rebuilds) + 1
    {
      rebuilds := rebuilds + 1;
      var state;
      ok, state := ComputeStateFromCluster(hash, c);
      if ok {
        scopeToSA, saToWsaMap, vocabulary := state.scopeToSA, state.saToWSAs, state.vocabulary;
        scopeComputation := ScopeComputation(vocabulary, scopeToSA);
      }
    }

    // Used by replicas that do not reconcile: the account-to-resources map, which the
    // deletion interlock reads, stays as it is.
    method RefreshScopeMappings(hash: string -> string, c: Cluster) returns (ok: bool)
      requires Valid() && ValidWorkloads(c.workloads)
      modifies `scopeToSA, `saToWsaMap, `vocabulary, `scopeComputation, c`errors
      ensures Valid() && (ok <==> c.errors == old(c.errors)) && c.errors >= old(c.errors)
      ensures saToWsaMap == old(saToWsaMap)
      ensures ok ==> scopeComputation == Compile(hash, Live(c.workloads))
      ensures !ok ==> unchanged(this)
    {
      var state;
      ok, state := ComputeStateFromCluster(hash, c);
      if ok {
        scopeToSA, vocabulary := state.scopeToSA, state.vocabulary;
        scopeComputation := ScopeComputation(vocabulary, scopeToSA);
      }
    }

    // Whatever resources the state was compiled from: no account iff none of them matches,
    // and otherwise one of each that does.
    method GetServiceAccountForScope(pod: Scope) returns (name: string)
      requires Valid()
      ensures name == scopeComputation.GetServiceAccountForScope(pod)
      ensures forall hash: string -> string, rs ::
        ValidSet(rs) && ScopeComputation(vocabulary, scopeToSA) == Compile(hash, rs) ==>
          && (name == "" <==> forall w :: w in rs ==> !Matches(w, pod))
          && (forall w :: w in rs && Matches(w, pod) ==> name in NamesFor(hash, TableOf(rs), w.GetKey()))
    {
      hide Compile, NamesFor, TableOf, Matches, WellFormed;
      name := scopeComputation.GetServiceAccountForScope(pod);
      forall hash: string -> string, rs | ValidSet(rs) && scopeComputation == Compile(hash, rs)
        ensures name == "" <==> forall w :: w in rs ==> !Matches(w, pod)
        ensures forall w :: w in rs && Matches(w, pod) ==> name in NamesFor(hash, TableOf(rs), w.GetKey())
      {
        AnswerEmptyIff(hash, rs, pod);
        forall w | w in rs && Matches(w, pod) ensures name in NamesFor(hash, TableOf(rs), w.GetKey()) {
          NeverUnderGrants(hash, rs, pod, w);
        }
      }
    }

    method IsWSAInMaps(k: Key) returns (b: bool)
      ensures b <==> InMaps(saToWsaMap, k)
    {
      var todo := saToWsaMap.Keys;
      while todo != {}
        invariant todo <= saToWsaMap.Keys
        invariant forall n :: n in saToWsaMap && n !in todo ==> k !in saToWsaMap[n]
      {
        var n :| n in todo;
        todo := todo - {n};
        if k in saToWsaMap[n] {
          return true;
        }
      }
      b := false;
    }
  }

  // The namespaces of the agent's deployments that match, or none if they cannot be listed.
  ghost predicate IsDiscovered(c: Cluster, matches: string -> bool, namespaces: seq<string>, failed: bool)
    reads c
  {
    && NoDuplicates(namespaces)
    && Elements(namespaces) == if failed then {} else set n | n in c.agents && matches(n)
  }

  method DiscoverTargetNamespaces(c: Cluster, matches: string -> bool) returns (namespaces: seq<string>)
    modifies c`logged
    ensures c.logged == old(c.logged) || c.logged == old(c.logged) + 1
    ensures IsDiscovered(c, matches, namespaces, c.logged != old(c.logged))
  {
    namespaces := [];
    if * {
      c.logged := c.logged + 1;
      return;
    }
    var todo := c.agents;
    while todo != {}
      invariant todo <= c.agents && unchanged(c)
      invariant NoDuplicates(namespaces) && Elements(namespaces) == set n | n in c.agents - todo && matches(n)
    {
      var n :| n in todo;
      todo := todo - {n};
      if matches(n) {
        assert n !in Elements(namespaces);
        assert Elements(namespaces + [n]) == Elements(namespaces) + {n};
        namespaces := namespaces + [n];
      }
    }
  }

  method ComputeStateFromCluster(hash: string -> string, c: Cluster) returns (ok: bool, state: ClusterState)
    requires ValidWorkloads(c.workloads)
    modifies c`errors
    ensures (ok <==> c.errors == old(c.errors)) && c.errors >= old(c.errors)
    ensures ok ==> IsCompiled(hash, Live(c.workloads), state)
  {
    hide WellFormed, TableOf, VocabularyOf, IsSAToWSAs;
    state := ClusterState(map[], map[], [{}, {}, {}, {}, {}, {}]);
    LiveIsValid(c.workloads);
    var all;
    ok, all := c.GetAllResources();
    if ok {
      TableIsValid(Live(c.workloads));
      var t, v := ComputeScopesForWSAs(all);
      var scopeToSA, saToWSAs, _, _ := GenerateServiceAccountMappings(hash, t);
      state := ClusterState(scopeToSA, saToWSAs, v);
    }
  }

  // PlanningStage.Execute: only listing the resources can fail.
  method ComputePlan(hash: string -> string, c: Cluster, engine: InMemoryEngine, matches: string -> bool)
    returns (ok: bool, plan: Option<Plan>)
    requires ValidWorkloads(c.workloads)
    modifies engine`namespaceCache, c`errors, c`logged
    ensures (ok <==> c.errors == old(c.errors)) && c.errors >= old(c.errors)
    ensures !ok ==> plan == None
    ensures ok ==> plan.Some? && IsPlanFor(hash, Live(c.workloads), plan.value)
    ensures ok && engine.configured ==> plan.value.targetNamespaces == engine.targetNamespaces
    ensures ok && !engine.configured ==>
      && engine.namespaceCache == Some(plan.value.targetNamespaces)
      && (engine.namespaceCache == old(engine.namespaceCache)
          || IsDiscovered(c, matches, plan.value.targetNamespaces, c.logged != old(c.logged)))
  {
    hide WellFormed, TableOf, VocabularyOf, IsSAToWSAs, IsWSAToSAs, IsAccounts, IsDiscovered;
    plan := None;
    LiveIsValid(c.workloads);
    var all;
    ok, all := c.GetAllResources();
    if ok {
      var namespaces := engine.GetOrDiscoverTargetNamespaces(c, matches);
      TableIsValid(Live(c.workloads));
      var t, v := ComputeScopesForWSAs(all);
      var scopeToSA, saToWSAs, wsaToSAs, accounts := GenerateServiceAccountMappings(hash, t);
      plan := Some(Plan(scopeToSA, saToWSAs, wsaToSAs, Some(v), accounts, all, namespaces));
    }
  }

  // ---- What the account-to-resources map says of a key

  lemma EveryResourceIsInTable(rs: set<WSAResource>, w: WSAResource) returns (s: Scope)
    requires ValidSet(rs) && w in rs
    ensures s in TableOf(rs) && w.GetKey() in TableOf(rs)[s]
  {
    hide WellFormed;
    var v := VocabularyOf(rs);
    var f := (d: Dim) => if w.Values(d) == [] then WILDCARD else w.Values(d)[0];
    s := Build(f);
    forall d: Dim ensures s.At(d) in CoverageBox(w, v)[d] {
      CoverageAt(w, v, d);
      assert s.At(d) == f(d);
    }
    assert w in Covering(rs, v, s);
    TableEntry(rs, v, s);
  }

  lemma TableKeysAreResources(rs: set<WSAResource>, s: Scope, k: Key)
    requires ValidSet(rs) && s in TableOf(rs) && k in TableOf(rs)[s]
    ensures k in Keys(rs)
  {
    hide WellFormed, Covers;
    TableEntry(rs, VocabularyOf(rs), s);
  }

  // With distinct names the map holds exactly the keys of the resources it was made from.
  lemma InMapsIffResource(hash: string -> string, rs: set<WSAResource>, state: ClusterState, k: Key)
    requires IsCompiled(hash, rs, state) && DistinctNames(hash, TableOf(rs))
    ensures InMaps(state.saToWSAs, k) <==> k in Keys(rs)
  {
    hide WellFormed, TableOf, NameOf, Compile;
    var t := TableOf(rs);
    if InMaps(state.saToWSAs, k) {
      var n :| n in state.saToWSAs && k in state.saToWSAs[n];
      var s :| s in t && NameOf(hash, t, s) == n && state.saToWSAs[n] == t[s];
      TableKeysAreResources(rs, s, k);
    }
    if k in Keys(rs) {
      var w :| w in rs && w.GetKey() == k;
      var s := EveryResourceIsInTable(rs, w);
      var n := NameOf(hash, t, s);
      assert n in state.saToWSAs;
      var u :| u in t && NameOf(hash, t, u) == n && state.saToWSAs[n] == t[u];
    }
  }
}
