// internal/rules/generator.go, first half: vocabulary, coverage and the scope table.
// The functions say what is computed, as functions of the SET of resources; the methods
// compute it with the loops of the source, drawing from sets and maps in any order.
module Generator {
  import opened Scopes

  type Table = map<Scope, map<Key, WSAResource>>

  // ---- What is computed

  ghost function KnownValues(rs: set<WSAResource>, d: Dim): set<string> {
    set w, x | w in rs && x in w.Values(d) :: x
  }

  ghost function VocabularyOf(rs: set<WSAResource>): Box {
    seq(6, d requires 0 <= d < 6 => KnownValues(rs, d))
  }

  function KnownValue(known: set<string>, value: string): string {
    if value in known then value else WILDCARD
  }

  // GetKnownScopeCombination: values outside the vocabulary become the wildcard.
  function GetKnownScopeCombination(v: Box, pod: Scope): Scope {
    Scope(KnownValue(v[0], pod.project), KnownValue(v[1], pod.projectGroup),
          KnownValue(v[2], pod.environment), KnownValue(v[3], pod.tenant),
          KnownValue(v[4], pod.step), KnownValue(v[5], pod.space))
  }

  lemma KnownAt(v: Box, pod: Scope, d: Dim)
    ensures GetKnownScopeCombination(v, pod).At(d) == KnownValue(v[d], pod.At(d))
  {}

  function DimensionCoverage(w: WSAResource, v: Box, d: Dim): set<string> {
    if w.Values(d) == [] then v[d] + {WILDCARD} else w.ValueSet(d)
  }

  function CoverageBox(w: WSAResource, v: Box): Box {
    seq(6, d requires 0 <= d < 6 => DimensionCoverage(w, v, d))
  }

  ghost predicate Covers(w: WSAResource, v: Box, s: Scope) {
    InBox(s, CoverageBox(w, v))
  }

  ghost function Covering(rs: set<WSAResource>, v: Box, s: Scope): set<WSAResource> {
    set w | w in rs && Covers(w, v, s)
  }

  ghost function CoveredScopes(rs: set<WSAResource>, v: Box): set<Scope> {
    set w, s | w in rs && s in Product(CoverageBox(w, v)) :: s
  }

  function ByKey(rs: set<WSAResource>): map<Key, WSAResource>
    requires DistinctKeys(rs)
  {
    map w | w in rs :: w.GetKey() := w
  }

  ghost function TableOver(rs: set<WSAResource>, v: Box): Table
    requires DistinctKeys(rs)
  {
    map s | s in CoveredScopes(rs, v) :: ByKey(Covering(rs, v, s))
  }

  ghost function TableOf(rs: set<WSAResource>): Table
    requires DistinctKeys(rs)
  {
    TableOver(rs, VocabularyOf(rs))
  }

  lemma CoveredIffCovering(rs: set<WSAResource>, v: Box, s: Scope)
    ensures s in CoveredScopes(rs, v) <==> Covering(rs, v, s) != {}
  {
    hide Product, InBox;
    if s in CoveredScopes(rs, v) {
      var w :| w in rs && s in Product(CoverageBox(w, v));
      ProductIsBox(s, CoverageBox(w, v));
      assert w in Covering(rs, v, s);
    }
    if Covering(rs, v, s) != {} {
      var w :| w in Covering(rs, v, s);
      ProductIsBox(s, CoverageBox(w, v));
    }
  }

  lemma TableEntry(rs: set<WSAResource>, v: Box, s: Scope)
    requires DistinctKeys(rs)
    ensures s in TableOver(rs, v) <==> Covering(rs, v, s) != {}
    ensures s in TableOver(rs, v) ==> TableOver(rs, v)[s].Keys == Keys(Covering(rs, v, s))
    ensures s in TableOver(rs, v) ==>
      forall w :: w in Covering(rs, v, s) ==> TableOver(rs, v)[s][w.GetKey()] == w
  {
    hide Covers, CoveredScopes;
    CoveredIffCovering(rs, v, s);
  }

  // ---- How it is computed

  method BuildGlobalVocabulary(resources: seq<WSAResource>) returns (v: Box)
    ensures v == VocabularyOf(Elements(resources))
  {
    v := [{}, {}, {}, {}, {}, {}];
    for i := 0 to |resources|
      invariant forall d: Dim :: v[d] == KnownValues(Elements(resources[..i]), d)
    {
      ghost var before := v;
      for d := 0 to 6
        invariant forall e: Dim :: v[e] == before[e] + (if e < d then resources[i].ValueSet(e) else {})
      {
        v := v[d := v[d] + resources[i].ValueSet(d)];
      }
      KnownValuesGrow(resources, i);
    }
    assert resources[..|resources|] == resources;
    assert forall d: Dim :: v[d] == VocabularyOf(Elements(resources))[d];
  }

  lemma KnownValuesGrow(resources: seq<WSAResource>, i: nat)
    requires i < |resources|
    ensures forall d: Dim :: KnownValues(Elements(resources[..i+1]), d)
                             == KnownValues(Elements(resources[..i]), d) + resources[i].ValueSet(d)
  {
    assert Elements(resources[..i+1]) == Elements(resources[..i]) + {resources[i]};
    forall d: Dim ensures KnownValues(Elements(resources[..i+1]), d)
                             == KnownValues(Elements(resources[..i]), d) + resources[i].ValueSet(d)
    {
      var w := resources[i];
      assert forall x :: x in w.ValueSet(d) <==> x in w.Values(d);
    }
  }

  // The set that the recursion below inserts into.
  class ScopeSet {
    var items: set<Scope>

    constructor ()
      ensures items == {}
    {
      items := {};
    }

    method Insert(s: Scope)
      modifies this
      ensures items == old(items) + {s}
    {
      items := items + {s};
    }
  }

  // The scopes that agree with base below dimension k and lie in b from k on.
  ghost predicate Extends(s: Scope, k: nat, base: Scope, b: Box) {
    forall d: Dim :: if d < k then s.At(d) == base.At(d) else s.At(d) in b[d]
  }

  lemma ExtendsStep(s: Scope, k: Dim, base: Scope, b: Box)
    ensures Extends(s, k, base, b) <==> s.At(k) in b[k] && Extends(s, k + 1, base.With(k, s.At(k)), b)
    ensures forall x :: Extends(s, k + 1, base.With(k, x), b) ==> s.At(k) == x
  {
    forall x, d: Dim ensures base.With(k, x).At(d) == if d == k then x else base.At(d) {
      WithAt(base, k, x, d);
    }
    forall x | Extends(s, k + 1, base.With(k, x), b) ensures s.At(k) == x {
      assert base.With(k, x).At(k) == x;
    }
  }

  method GenerateScopeCombinations(currentDim: nat, currentScope: Scope, b: Box, result: ScopeSet)
    requires currentDim <= 6
    modifies result
    ensures forall s :: s in result.items <==> s in old(result.items) || Extends(s, currentDim, currentScope, b)
    decreases 6 - currentDim
  {
    if currentDim == 6 {
      result.Insert(currentScope);
      forall s | Extends(s, 6, currentScope, b) ensures s == currentScope {
        SameAtAll(s, currentScope);
      }
      return;
    }
    var todo := b[currentDim];
    while todo != {}
      invariant todo <= b[currentDim]
      invariant forall s :: s in result.items <==>
        s in old(result.items) || (s.At(currentDim) !in todo && Extends(s, currentDim, currentScope, b))
    {
      var value :| value in todo;
      todo := todo - {value};
      GenerateScopeCombinations(currentDim + 1, currentScope.With(currentDim, value), b, result);
      forall s { ExtendsStep(s, currentDim, currentScope, b); }
    }
  }

  method ComputeWSACoverage(resource: WSAResource, v: Box) returns (coverage: set<Scope>)
    ensures coverage == Product(CoverageBox(resource, v))
  {
    var dimensionCoverage: Box := [{}, {}, {}, {}, {}, {}];
    for d := 0 to 6
      invariant forall e: Dim :: e < d ==> dimensionCoverage[e] == DimensionCoverage(resource, v, e)
    {
      if |resource.Values(d)| == 0 {
        dimensionCoverage := dimensionCoverage[d := v[d] + {WILDCARD}];
      } else {
        dimensionCoverage := dimensionCoverage[d := resource.ValueSet(d)];
      }
    }
    assert dimensionCoverage == CoverageBox(resource, v);
    var coverageSet := new ScopeSet();
    GenerateScopeCombinations(0, EMPTY_SCOPE, dimensionCoverage, coverageSet);
    coverage := coverageSet.items;
    forall s ensures s in coverage <==> s in Product(CoverageBox(resource, v)) {
      ProductIsBox(s, CoverageBox(resource, v));
    }
  }

  ghost function IndicesOf(coverageSets: seq<set<Scope>>, s: Scope): set<nat> {
    set i: nat | i < |coverageSets| && s in coverageSets[i]
  }

  method FindScopeIntersections(coverageSets: seq<set<Scope>>) returns (m: map<Scope, set<nat>>)
    ensures forall s :: s in m <==> IndicesOf(coverageSets, s) != {}
    ensures forall s :: s in m ==> m[s] == IndicesOf(coverageSets, s)
  {
    hide IndicesOf;
    m := map[];
    forall s { NoIndices(coverageSets, s); }
    for i := 0 to |coverageSets|
      invariant forall s :: s in m <==> IndicesOf(coverageSets[..i], s) != {}
      invariant forall s :: s in m ==> m[s] == IndicesOf(coverageSets[..i], s)
    {
      ghost var before := m;
      var todo := coverageSets[i];
      while todo != {}
        invariant todo <= coverageSets[i]
        invariant forall s :: s in m <==> s in before || s in coverageSets[i] - todo
        invariant forall s :: s in m ==>
          m[s] == (if s in before then before[s] else {}) + (if s in coverageSets[i] - todo then {i} else {})
      {
        var s :| s in todo;
        todo := todo - {s};
        if s !in m { m := m[s := {}]; }
        m := m[s := m[s] + {i}];
      }
      forall s { IndicesGrow(coverageSets, i, s); }
    }
    assert coverageSets[..|coverageSets|] == coverageSets;
  }

  lemma NoIndices(coverageSets: seq<set<Scope>>, s: Scope)
    ensures IndicesOf(coverageSets[..0], s) == {}
  {}

  lemma IndicesGrow(coverageSets: seq<set<Scope>>, i: nat, s: Scope)
    requires i < |coverageSets|
    ensures IndicesOf(coverageSets[..i+1], s)
            == IndicesOf(coverageSets[..i], s) + (if s in coverageSets[i] then {i} else {})
  {
    assert coverageSets[..i+1][..i] == coverageSets[..i];
  }

  ghost function At(wsaList: seq<WSAResource>, indices: set<nat>): set<WSAResource>
    requires forall i :: i in indices ==> i < |wsaList|
  {
    set i | i in indices :: wsaList[i]
  }

  lemma AtIsSome(wsaList: seq<WSAResource>, indices: set<nat>)
    requires DistinctKeys(Elements(wsaList))
    requires forall i :: i in indices ==> i < |wsaList|
    ensures DistinctKeys(At(wsaList, indices))
  {}

  lemma NothingByKey(rs: set<WSAResource>)
    requires rs == {}
    ensures DistinctKeys(rs) && ByKey(rs) == map[]
  {}

  lemma ByKeyGrows(rs: set<WSAResource>, w: WSAResource)
    requires DistinctKeys(rs) && DistinctKeys(rs + {w})
    ensures ByKey(rs + {w}) == ByKey(rs)[w.GetKey() := w]
  {}

  method WSAsAt(wsaList: seq<WSAResource>, indices: set<nat>) returns (m: map<Key, WSAResource>)
    requires DistinctKeys(Elements(wsaList))
    requires forall i :: i in indices ==> i < |wsaList|
    ensures m == ByKey(At(wsaList, indices))
  {
    hide DistinctKeys, ByKey;
    m := map[];
    var todo := indices;
    NothingByKey(At(wsaList, indices - todo));
    while todo != {}
      invariant todo <= indices
      invariant DistinctKeys(At(wsaList, indices - todo))
      invariant m == ByKey(At(wsaList, indices - todo))
    {
      var i :| i in todo;
      ghost var done := indices - todo;
      todo := todo - {i};
      m := m[wsaList[i].GetKey() := wsaList[i]];
      assert indices - todo == done + {i};
      assert At(wsaList, done + {i}) == At(wsaList, done) + {wsaList[i]};
      AtIsSome(wsaList, done + {i});
      ByKeyGrows(At(wsaList, done), wsaList[i]);
    }
    assert indices - todo == indices;
  }

  method BuildScopeToWSAMapping(m: map<Scope, set<nat>>, wsaList: seq<WSAResource>) returns (t: Table)
    requires DistinctKeys(Elements(wsaList))
    requires forall s, i :: s in m && i in m[s] ==> i < |wsaList|
    ensures forall s :: s in t <==> s in m && m[s] != {}
    ensures forall s :: s in t ==> t[s] == ByKey(At(wsaList, m[s]))
  {
    t := map[];
    var todo := m.Keys;
    while todo != {}
      invariant todo <= m.Keys
      invariant forall s :: s in t <==> s in m && s !in todo && m[s] != {}
      invariant forall s :: s in t ==> t[s] == ByKey(At(wsaList, m[s]))
    {
      var s :| s in todo;
      todo := todo - {s};
      if |m[s]| > 0 {
        var wsaMap := WSAsAt(wsaList, m[s]);
        t := t[s := wsaMap];
      }
    }
  }

  method ComputeMinimalServiceAccountScopes(wsaList: seq<WSAResource>, v: Box) returns (t: Table)
    requires DistinctKeys(Elements(wsaList))
    ensures t == TableOver(Elements(wsaList), v)
  {
    if |wsaList| == 0 {
      return map[];
    }
    var coverageSets: seq<set<Scope>> := [];
    for i := 0 to |wsaList|
      invariant |coverageSets| == i
      invariant forall j :: 0 <= j < i ==> coverageSets[j] == Product(CoverageBox(wsaList[j], v))
    {
      var c := ComputeWSACoverage(wsaList[i], v);
      coverageSets := coverageSets + [c];
    }
    var m := FindScopeIntersections(coverageSets);
    t := BuildScopeToWSAMapping(m, wsaList);
    TableFromIntersections(wsaList, v, coverageSets, m, t);
  }

  lemma TableFromIntersections(wsaList: seq<WSAResource>, v: Box, cov: seq<set<Scope>>,
                               m: map<Scope, set<nat>>, t: Table)
    requires DistinctKeys(Elements(wsaList))
    requires |cov| == |wsaList|
    requires forall j :: 0 <= j < |cov| ==> cov[j] == Product(CoverageBox(wsaList[j], v))
    requires forall s :: s in m <==> IndicesOf(cov, s) != {}
    requires forall s :: s in m ==> m[s] == IndicesOf(cov, s)
    requires forall s :: s in t <==> s in m && m[s] != {}
    requires forall s :: s in t ==> m[s] == IndicesOf(cov, s) && t[s] == ByKey(At(wsaList, m[s]))
    ensures t == TableOver(Elements(wsaList), v)
  {
    var rs := Elements(wsaList);
    forall s ensures At(wsaList, IndicesOf(cov, s)) == Covering(rs, v, s)
             ensures s in t <==> s in TableOver(rs, v)
    {
      IndicesAreCovering(wsaList, v, cov, s);
      TableEntry(rs, v, s);
    }
  }

  lemma IndicesAreCovering(wsaList: seq<WSAResource>, v: Box, cov: seq<set<Scope>>, s: Scope)
    requires |cov| == |wsaList|
    requires forall j :: 0 <= j < |cov| ==> cov[j] == Product(CoverageBox(wsaList[j], v))
    ensures At(wsaList, IndicesOf(cov, s)) == Covering(Elements(wsaList), v, s)
    ensures IndicesOf(cov, s) == {} <==> Covering(Elements(wsaList), v, s) == {}
  {
    forall i: nat | i < |cov| ensures i in IndicesOf(cov, s) <==> Covers(wsaList[i], v, s) {
      ProductIsBox(s, CoverageBox(wsaList[i], v));
    }
    forall w | w in Covering(Elements(wsaList), v, s) ensures w in At(wsaList, IndicesOf(cov, s)) {
      var i :| 0 <= i < |wsaList| && wsaList[i] == w;
      assert i in IndicesOf(cov, s);
    }
    if IndicesOf(cov, s) != {} {
      var i :| i in IndicesOf(cov, s);
      assert wsaList[i] in At(wsaList, IndicesOf(cov, s));
    }
  }

  // ComputeScopesForWSAs: the vocabulary and the table depend on the set of resources
  // only, not on the order they were listed in nor on any iteration order.
  method ComputeScopesForWSAs(wsaList: seq<WSAResource>) returns (t: Table, v: Box)
    requires DistinctKeys(Elements(wsaList))
    ensures v == VocabularyOf(Elements(wsaList))
    ensures t == TableOf(Elements(wsaList))
  {
    v := BuildGlobalVocabulary(wsaList);
    t := ComputeMinimalServiceAccountScopes(wsaList, v);
  }
}
