// The compiled table against direct matching: internal/rules/scope_computation.go and
// the lookup it performs at pod admission.
module Lookups {
  import opened Scopes
  import opened Generator
  import opened Mappings

  // ScopeComputationService. A scope without an account is answered with "".
  datatype ScopeComputation = ScopeComputation(vocabulary: Box, scopeToSA: map<Scope, string>) {
    function GetServiceAccountForScope(pod: Scope): string {
      var known := GetKnownScopeCombination(vocabulary, pod);
      if known in scopeToSA then scopeToSA[known] else ""
    }
  }

  ghost function Compile(hash: string -> string, rs: set<WSAResource>): ScopeComputation
    requires DistinctKeys(rs)
  {
    ScopeComputation(VocabularyOf(rs), ScopeToSA(hash, TableOf(rs)))
  }

  ghost function Answer(hash: string -> string, rs: set<WSAResource>, pod: Scope): string
    requires DistinctKeys(rs)
  {
    Compile(hash, rs).GetServiceAccountForScope(pod)
  }

  ghost function Matching(rs: set<WSAResource>, pod: Scope): set<WSAResource> {
    set w | w in rs && Matches(w, pod)
  }

  lemma CoverageAt(w: WSAResource, v: Box, d: Dim)
    ensures CoverageBox(w, v)[d] == DimensionCoverage(w, v, d)
  {}

  // The abstraction keeps exactly what every resource can tell apart.
  lemma CoversKnownIffMatches(rs: set<WSAResource>, w: WSAResource, pod: Scope)
    requires ValidSet(rs) && w in rs
    ensures Covers(w, VocabularyOf(rs), GetKnownScopeCombination(VocabularyOf(rs), pod)) <==> Matches(w, pod)
  {
    var v := VocabularyOf(rs);
    forall d: Dim
      ensures GetKnownScopeCombination(v, pod).At(d) in CoverageBox(w, v)[d]
              <==> w.Values(d) == [] || pod.At(d) in w.Values(d)
    {
      CoversKnownAt(rs, w, pod, d);
    }
    MatchesAt(w, pod);
  }

  lemma CoversKnownAt(rs: set<WSAResource>, w: WSAResource, pod: Scope, d: Dim)
    requires ValidSet(rs) && w in rs
    ensures GetKnownScopeCombination(VocabularyOf(rs), pod).At(d) in CoverageBox(w, VocabularyOf(rs))[d]
            <==> w.Values(d) == [] || pod.At(d) in w.Values(d)
  {
    var v := VocabularyOf(rs);
    KnownAt(v, pod, d);
    CoverageAt(w, v, d);
    assert v[d] == KnownValues(rs, d);
    assert WellFormed(w);
    if WILDCARD in w.Values(d) { SlugIsNotWildcard(WILDCARD); }
  }

  // For every resource set and every pod scope, known or not, the abstracted scope is in
  // the table iff some WSA matches the pod, and its entry is the set of matching WSAs.
  lemma TableRefinesMatching(rs: set<WSAResource>, pod: Scope)
    requires ValidSet(rs)
    ensures var known := GetKnownScopeCombination(VocabularyOf(rs), pod);
      && (known in TableOf(rs) <==> Matching(rs, pod) != {})
      && (known in TableOf(rs) ==> TableOf(rs)[known] == ByKey(Matching(rs, pod)))
  {
    var v := VocabularyOf(rs);
    var known := GetKnownScopeCombination(v, pod);
    assert Covering(rs, v, known) == Matching(rs, pod) by {
      forall w | w in rs ensures Covers(w, v, known) <==> Matches(w, pod) {
        CoversKnownIffMatches(rs, w, pod);
      }
    }
    TableEntry(rs, v, known);
  }

  lemma TableIsValid(rs: set<WSAResource>)
    requires ValidSet(rs)
    ensures ValidTable(TableOf(rs))
  {
    var t := TableOf(rs);
    forall s | s in t ensures t[s] != map[] && forall k :: k in t[s] ==> PlainKey(k) {
      TableEntry(rs, VocabularyOf(rs), s);
      var w :| w in Covering(rs, VocabularyOf(rs), s);
      assert w.GetKey() in t[s].Keys;
    }
  }

  lemma NamesAreNotEmpty(hash: string -> string, t: Table, s: Scope)
    requires s in t
    ensures NameOf(hash, t, s) != ""
  {}

  // A pod matched by w is never answered with an account that w is not bound to,
  // whatever the hash does.
  lemma NeverUnderGrants(hash: string -> string, rs: set<WSAResource>, pod: Scope, w: WSAResource)
    requires ValidSet(rs) && w in rs && Matches(w, pod)
    ensures Answer(hash, rs, pod) != ""
    ensures Answer(hash, rs, pod) in NamesFor(hash, TableOf(rs), w.GetKey())
  {
    hide NameOf;
    var known := GetKnownScopeCombination(VocabularyOf(rs), pod);
    TableRefinesMatching(rs, pod);
    assert w in Matching(rs, pod);
    assert w.GetKey() in TableOf(rs)[known];
    NamesAreNotEmpty(hash, TableOf(rs), known);
  }

  // A pod that nothing matches keeps its own account: the answer is empty for it, and for
  // no other.
  lemma AnswerEmptyIff(hash: string -> string, rs: set<WSAResource>, pod: Scope)
    requires ValidSet(rs)
    ensures Answer(hash, rs, pod) == "" <==> forall w :: w in rs ==> !Matches(w, pod)
  {
    hide NameOf, Covers, WellFormed, Matches;
    var known := GetKnownScopeCombination(VocabularyOf(rs), pod);
    TableRefinesMatching(rs, pod);
    if known in TableOf(rs) {
      NamesAreNotEmpty(hash, TableOf(rs), known);
      var w :| w in Matching(rs, pod);
    } else {
      forall w | w in rs ensures !Matches(w, pod) {
        assert w !in Matching(rs, pod);
      }
    }
  }

  // Groups with different WSA sets have different names.
  ghost predicate DistinctNames(hash: string -> string, t: Table) {
    forall s, u :: s in t && u in t && NameOf(hash, t, s) == NameOf(hash, t, u) ==> t[s].Keys == t[u].Keys
  }

  ghost predicate LookupExact(hash: string -> string, rs: set<WSAResource>)
    requires DistinctKeys(rs)
  {
    forall pod: Scope, w :: w in rs ==>
      (Answer(hash, rs, pod) in NamesFor(hash, TableOf(rs), w.GetKey()) <==> Matches(w, pod))
  }

  lemma NeverOverGrants(hash: string -> string, rs: set<WSAResource>, pod: Scope, w: WSAResource)
    requires ValidSet(rs) && w in rs && DistinctNames(hash, TableOf(rs))
    requires Answer(hash, rs, pod) in NamesFor(hash, TableOf(rs), w.GetKey())
    ensures Matches(w, pod)
  {
    hide NameOf, Covers, WellFormed;
    var t := TableOf(rs);
    var known := GetKnownScopeCombination(VocabularyOf(rs), pod);
    TableRefinesMatching(rs, pod);
    var s :| s in t && w.GetKey() in t[s] && NameOf(hash, t, s) == Answer(hash, rs, pod);
    NamesAreNotEmpty(hash, t, s);
    assert known in t && w.GetKey() in t[known];
    var x :| x in Matching(rs, pod) && x.GetKey() == w.GetKey();
  }

  lemma CoveredValueIsKnown(rs: set<WSAResource>, w: WSAResource, s: Scope, d: Dim)
    requires ValidSet(rs) && w in rs && Covers(w, VocabularyOf(rs), s)
    ensures GetKnownScopeCombination(VocabularyOf(rs), s).At(d) == s.At(d)
    ensures s.At(d) == WILDCARD || (Named(s.At(d)) && s.At(d) in VocabularyOf(rs)[d])
  {
    var v := VocabularyOf(rs);
    KnownAt(v, s, d);
    CoverageAt(w, v, d);
    assert v[d] == KnownValues(rs, d);
    assert s.At(d) in DimensionCoverage(w, v, d);
    if s.At(d) in v[d] {
      var x :| x in rs && s.At(d) in x.Values(d);
      assert WellFormed(x);
      SlugIsNotWildcard(s.At(d));
    }
  }

  // A scope of the table, read as a pod's scope, abstracts to itself.
  lemma TableScopeIsKnown(rs: set<WSAResource>, s: Scope)
    requires ValidSet(rs) && s in TableOf(rs)
    ensures GetKnownScopeCombination(VocabularyOf(rs), s) == s
    ensures forall d: Dim :: s.At(d) == WILDCARD || (Named(s.At(d)) && s.At(d) in VocabularyOf(rs)[d])
  {
    hide WellFormed, CoverageBox, InBox;
    var v := VocabularyOf(rs);
    TableEntry(rs, v, s);
    var w :| w in Covering(rs, v, s);
    forall d: Dim
      ensures GetKnownScopeCombination(v, s).At(d) == s.At(d)
      ensures s.At(d) == WILDCARD || (Named(s.At(d)) && s.At(d) in v[d])
    {
      CoveredValueIsKnown(rs, w, s, d);
    }
    SameAtAll(GetKnownScopeCombination(v, s), s);
  }

  lemma ExactNeedsDistinctNames(hash: string -> string, rs: set<WSAResource>, s: Scope, u: Scope, k: Key)
    requires ValidSet(rs) && LookupExact(hash, rs)
    requires s in TableOf(rs) && u in TableOf(rs) && k in TableOf(rs)[s]
    requires NameOf(hash, TableOf(rs), s) == NameOf(hash, TableOf(rs), u)
    ensures k in TableOf(rs)[u]
  {
    hide NameOf, Covers, WellFormed;
    var t := TableOf(rs);
    TableScopeIsKnown(rs, u);
    TableEntry(rs, VocabularyOf(rs), s);
    var w :| w in rs && w.GetKey() == k;
    assert Answer(hash, rs, u) == NameOf(hash, t, s);
    assert Answer(hash, rs, u) in NamesFor(hash, t, k);
    assert Matches(w, u);
    TableRefinesMatching(rs, u);
    assert w in Matching(rs, u);
  }

  // Lookups grant to exactly the matching WSAs iff groups have distinct names.
  lemma LookupExactIffDistinctNames(hash: string -> string, rs: set<WSAResource>)
    requires ValidSet(rs)
    ensures LookupExact(hash, rs) <==> DistinctNames(hash, TableOf(rs))
  {
    hide NameOf, Covers, WellFormed, Matches;
    var t := TableOf(rs);
    if LookupExact(hash, rs) {
      forall s, u | s in t && u in t && NameOf(hash, t, s) == NameOf(hash, t, u)
        ensures t[s].Keys == t[u].Keys
      {
        forall k | k in t[s] ensures k in t[u] { ExactNeedsDistinctNames(hash, rs, s, u, k); }
        forall k | k in t[u] ensures k in t[s] { ExactNeedsDistinctNames(hash, rs, u, s, k); }
      }
    }
    if DistinctNames(hash, t) {
      forall pod: Scope, w | w in rs
        ensures Answer(hash, rs, pod) in NamesFor(hash, t, w.GetKey()) <==> Matches(w, pod)
      {
        if Matches(w, pod) { NeverUnderGrants(hash, rs, pod, w); }
        if Answer(hash, rs, pod) in NamesFor(hash, t, w.GetKey()) { NeverOverGrants(hash, rs, pod, w); }
      }
    }
  }
}
