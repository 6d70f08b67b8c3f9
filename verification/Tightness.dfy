// The bound of BoxClosure is tight: whatever two or more dimensions may be mixed, two
// resources suffice for two WSA sets to share a name.
module Tightness {
  import opened Scopes
  import opened Generator
  import opened Mappings
  import opened Lookups
  import opened BoxClosure

  // Constrains exactly the dimensions of ms, each to the one value "p".
  function SpecOn(ms: set<Dim>): (spec: ScopeSpec)
    ensures forall d: Dim :: spec.At(d) == if d in ms then ["p"] else []
  {
    var f := (d: Dim) => if d in ms then ["p"] else [];
    ScopeSpec(f(0), f(1), f(2), f(3), f(4), f(5))
  }

  const VIEW := RoleRef("Role", "view")

  function Open(): WSAResource {
    Namespaced("ns", "open", SpecOn({}), [], [VIEW], [])
  }

  function Narrow(ms: set<Dim>): WSAResource {
    Namespaced("ns", "narrow", SpecOn(ms), [], [VIEW], [])
  }

  function Pair(ms: set<Dim>): set<WSAResource> { {Open(), Narrow(ms)} }

  // The scope that is "p" on the dimensions of ps and the wildcard elsewhere.
  ghost function ScopeOn(ps: set<Dim>): (s: Scope)
    ensures forall d: Dim :: s.At(d) == if d in ps then "p" else WILDCARD
  {
    Build(d => if d in ps then "p" else WILDCARD)
  }

  lemma DifferentNames()
    ensures Open().GetKey() != Narrow({}).GetKey()
  {
    assert "open"[0] != "narrow"[0];
  }

  lemma PairIsValid(ms: set<Dim>)
    ensures ValidSet(Pair(ms))
    ensures Open().GetKey() != Narrow(ms).GetKey()
  {
    DifferentNames();
    assert Slug("p");
  }

  lemma PairMixedDims(ms: set<Dim>)
    ensures MixedDims(Pair(ms)) == ms
  {
    forall d: Dim ensures Mixed(Pair(ms), d) <==> d in ms {
      if d in ms {
        assert Open().Values(d) == [] && Narrow(ms).Values(d) != [];
      }
    }
  }

  lemma PairVocabulary(ms: set<Dim>, d: Dim)
    ensures VocabularyOf(Pair(ms))[d] == if d in ms then {"p"} else {}
  {
    assert VocabularyOf(Pair(ms))[d] == KnownValues(Pair(ms), d);
    if d in ms { assert "p" in Narrow(ms).Values(d); }
  }

  lemma PairCovers(ms: set<Dim>, ps: set<Dim>)
    requires ps <= ms
    ensures Covers(Open(), VocabularyOf(Pair(ms)), ScopeOn(ps))
    ensures Covers(Narrow(ms), VocabularyOf(Pair(ms)), ScopeOn(ps)) <==> ps == ms
  {
    var v := VocabularyOf(Pair(ms));
    forall d: Dim
      ensures ScopeOn(ps).At(d) in CoverageBox(Open(), v)[d]
      ensures ScopeOn(ps).At(d) in CoverageBox(Narrow(ms), v)[d] <==> d !in ms || d in ps
    {
      PairVocabulary(ms, d);
      CoverageAt(Open(), v, d);
      CoverageAt(Narrow(ms), v, d);
    }
    if Covers(Narrow(ms), v, ScopeOn(ps)) {
      forall d | d in ms ensures d in ps {
        assert ScopeOn(ps).At(d) in CoverageBox(Narrow(ms), v)[d];
      }
    }
  }

  lemma PairTable(ms: set<Dim>, ps: set<Dim>)
    requires ps <= ms
    ensures DistinctKeys(Pair(ms)) && ScopeOn(ps) in TableOf(Pair(ms))
    ensures TableOf(Pair(ms))[ScopeOn(ps)].Keys
            == if ps == ms then {Open().GetKey(), Narrow(ms).GetKey()} else {Open().GetKey()}
  {
    hide Covers, WellFormed, VocabularyOf, TableOver;
    PairIsValid(ms);
    var s, v := ScopeOn(ps), VocabularyOf(Pair(ms));
    PairCovers(ms, ps);
    TableEntry(Pair(ms), v, s);
    assert Open() in Covering(Pair(ms), v, s);
    assert Covering(Pair(ms), v, s) == if ps == ms then {Open(), Narrow(ms)} else {Open()};
  }

  // A group that has p on every dimension of ms, in one scope or in several.
  lemma PairGroupValues(ms: set<Dim>, ps: set<Dim>, d: Dim)
    requires ps <= ms && DistinctKeys(Pair(ms)) && ScopeOn(ps) in TableOf(Pair(ms))
    requires d in ms ==> exists qs :: d in qs && ScopeOn(qs) in GroupOf(TableOf(Pair(ms)), ScopeOn(ps))
    ensures GroupValues(GroupOf(TableOf(Pair(ms)), ScopeOn(ps)), d) == if d in ms then {"p"} else {}
  {
    hide TableOf, Slug;
    var t := TableOf(Pair(ms));
    var group := GroupOf(t, ScopeOn(ps));
    PairIsValid(ms);
    PairVocabulary(ms, d);
    forall x | x in GroupValues(group, d) ensures d in ms && x == "p" {
      var u :| u in group && Named(u.At(d)) && u.At(d) == x;
      TableScopeIsKnown(Pair(ms), u);
    }
    if d in ms {
      var qs :| d in qs && ScopeOn(qs) in group;
      assert ScopeOn(qs).At(d) == "p" && Named("p");
    }
  }

  lemma SameDims(t: Table, s: Scope, u: Scope)
    requires s in t && u in t
    requires forall d: Dim :: GroupValues(GroupOf(t, s), d) == GroupValues(GroupOf(t, u), d)
    ensures GroupDims(t, s) == GroupDims(t, u)
  {
    hide GroupValues;
    assert forall d: Dim :: GroupValues(GroupOf(t, s), d) == GroupValues(GroupOf(t, u), d);
  }

  lemma PairSharesName(hash: string -> string, ms: set<Dim>)
    requires |ms| >= 2
    ensures DistinctKeys(Pair(ms))
    ensures var t := TableOf(Pair(ms));
      && ScopeOn(ms) in t && ScopeOn({}) in t && NameOf(hash, t, ScopeOn(ms)) == NameOf(hash, t, ScopeOn({}))
      && t[ScopeOn(ms)].Keys == {Open().GetKey(), Narrow(ms).GetKey()} && t[ScopeOn({})].Keys == {Open().GetKey()}
  {
    hide TableOf, GroupValues, GroupDims, Slug, WellFormed;
    PairIsValid(ms);
    var t, full, bare := TableOf(Pair(ms)), ScopeOn(ms), ScopeOn({});
    PairTable(ms, ms);
    assert ms != {};
    PairTable(ms, {});
    forall d: Dim ensures GroupValues(GroupOf(t, full), d) == GroupValues(GroupOf(t, bare), d) {
      assert d in ms ==> full in GroupOf(t, full);
      if d in ms {
        assert |{d}| == 1;
        PairTable(ms, {d});
        assert ScopeOn({d}) in GroupOf(t, bare);
      }
      PairGroupValues(ms, ms, d);
      PairGroupValues(ms, {}, d);
    }
    SameDims(t, full, bare);
  }

  // {open} and {open, narrow} share their name as soon as ms has two dimensions.
  lemma PairNamesCollide(hash: string -> string, ms: set<Dim>)
    requires |ms| >= 2
    ensures ValidSet(Pair(ms)) && !DistinctNames(hash, TableOf(Pair(ms)))
  {
    hide TableOf, NameOf, WellFormed;
    PairIsValid(ms);
    PairSharesName(hash, ms);
    assert Narrow(ms).GetKey() in TableOf(Pair(ms))[ScopeOn(ms)];
  }

  lemma OpenIsEverywhere(ms: set<Dim>, s: Scope)
    requires DistinctKeys(Pair(ms)) && s in TableOf(Pair(ms))
    ensures Open().GetKey() in TableOf(Pair(ms))[s]
    ensures TableOf(Pair(ms))[s].Keys <= {Open().GetKey(), Narrow(ms).GetKey()}
  {
    hide WellFormed, CoverageBox;
    PairIsValid(ms);
    var v := VocabularyOf(Pair(ms));
    TableScopeIsKnown(Pair(ms), s);
    TableEntry(Pair(ms), v, s);
    forall d: Dim ensures s.At(d) in CoverageBox(Open(), v)[d] { CoverageAt(Open(), v, d); }
    assert Open() in Covering(Pair(ms), v, s);
  }

  ghost predicate AlwaysDistinct(ms: set<Dim>) {
    forall hash: string -> string, rs: set<WSAResource> |
      ValidSet(rs) && MixedDims(rs) == ms && CollisionFree(hash, TableOf(rs)) :: DistinctNames(hash, TableOf(rs))
  }

  // For every set ms of dimensions: all resource sets whose mixed dimensions are ms get
  // distinct names, under every collision-free hash, iff ms has at most one dimension.
  lemma DistinctNamesIffOneMixedDimension(ms: set<Dim>)
    ensures AlwaysDistinct(ms) <==> |ms| <= 1
  {
    hide TableOf, WellFormed, DistinctNames, MixedDims, GroupDims;
    if |ms| <= 1 {
      forall hash: string -> string, rs: set<WSAResource> |
        ValidSet(rs) && MixedDims(rs) == ms && CollisionFree(hash, TableOf(rs))
        ensures DistinctNames(hash, TableOf(rs))
      {
        OneMixedDimension(hash, rs);
      }
    } else {
      var identity := (s: string) => s;
      PairIsValid(ms);
      PairMixedDims(ms);
      PairNamesCollide(identity, ms);
      assert CollisionFree(identity, TableOf(Pair(ms)));
    }
  }
}
