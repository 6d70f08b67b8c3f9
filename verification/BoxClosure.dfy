// When do different WSA sets get different service account names? A name is computed from
// a group's values with wildcards dropped (generator.go:283-300), not from its WSA set.
module BoxClosure {
  import opened Text
  import opened Scopes
  import opened Generator
  import opened Naming
  import opened Mappings
  import opened Lookups

  // A dimension that some resource leaves empty and another constrains.
  ghost predicate Mixed(rs: set<WSAResource>, d: Dim) {
    exists a, b :: a in rs && b in rs && a.Values(d) == [] && b.Values(d) != []
  }

  ghost function MixedDims(rs: set<WSAResource>): set<Dim> {
    set d: Dim | Mixed(rs, d)
  }

  // No two canonical strings of the table's groups collide.
  ghost predicate CollisionFree(hash: string -> string, t: Table) {
    forall s, u :: s in t && u in t
      && hash(Canonical(GroupDims(t, s))) == hash(Canonical(GroupDims(t, u)))
      ==> Canonical(GroupDims(t, s)) == Canonical(GroupDims(t, u))
  }

  // ---- Names determine the groups' values

  lemma TableValueIsSlug(rs: set<WSAResource>, s: Scope, d: Dim)
    requires ValidSet(rs) && s in TableOf(rs) && Named(s.At(d))
    ensures Slug(s.At(d))
  {
    hide TableOf;
    TableScopeIsKnown(rs, s);
    assert VocabularyOf(rs)[d] == KnownValues(rs, d);
    var w :| w in rs && s.At(d) in w.Values(d);
    assert WellFormed(w);
  }

  lemma GroupValuesAreSlugs(rs: set<WSAResource>, s: Scope, d: Dim)
    requires ValidSet(rs) && s in TableOf(rs)
    ensures Slugs(GroupDims(TableOf(rs), s).At(d))
  {
    hide TableOf, WellFormed, DimsOf, Slug;
    var t := TableOf(rs);
    var values := GroupValues(GroupOf(t, s), d);
    DimsAt(GroupOf(t, s), d);
    forall x | x in values ensures Slug(x) {
      var u :| u in GroupOf(t, s) && Named(u.At(d)) && u.At(d) == x;
      TableValueIsSlug(rs, u, d);
    }
    assert forall i :: 0 <= i < |Sorted(values)| ==> Sorted(values)[i] in values;
  }

  lemma SameNameSameValues(hash: string -> string, rs: set<WSAResource>, s: Scope, u: Scope)
    requires ValidSet(rs) && CollisionFree(hash, TableOf(rs))
    requires s in TableOf(rs) && u in TableOf(rs)
    requires NameOf(hash, TableOf(rs), s) == NameOf(hash, TableOf(rs), u)
    ensures GroupDims(TableOf(rs), s) == GroupDims(TableOf(rs), u)
  {
    hide GroupDims, Canonical, WellFormed, TableOf;
    var t := TableOf(rs);
    var g, h := GroupDims(t, s), GroupDims(t, u);
    forall d: Dim ensures Slugs(g.At(d)) && Slugs(h.At(d)) {
      GroupValuesAreSlugs(rs, s, d);
      GroupValuesAreSlugs(rs, u, d);
    }
    var prefix := "octopus-sa-";
    assert (prefix + hash(Canonical(g)))[|prefix|..] == hash(Canonical(g));
    assert (prefix + hash(Canonical(h)))[|prefix|..] == hash(Canonical(h));
    CanonicalInjective(g, h);
  }

  lemma SameDimsSameValues(t: Table, s: Scope, u: Scope, d: Dim)
    requires s in t && u in t && GroupDims(t, s) == GroupDims(t, u)
    ensures GroupValues(GroupOf(t, s), d) == GroupValues(GroupOf(t, u), d)
  {
    DimsAt(GroupOf(t, s), d);
    DimsAt(GroupOf(t, u), d);
    assert forall x :: x in GroupValues(GroupOf(t, s), d) <==> x in Sorted(GroupValues(GroupOf(t, s), d));
  }

  // ---- Box closure

  // The value of s in d is also the value of some scope of the group of u.
  ghost predicate Shared(t: Table, u: Scope, s: Scope, d: Dim)
    requires u in t
  {
    exists x :: x in GroupOf(t, u) && x.At(d) == s.At(d)
  }

  // The product of a group's per-dimension values, wildcards included, stays inside every
  // box of its WSA set.
  lemma ProductStaysInside(rs: set<WSAResource>, s: Scope, x: Scope)
    requires ValidSet(rs) && s in TableOf(rs)
    requires forall d: Dim :: Shared(TableOf(rs), s, x, d)
    ensures x in TableOf(rs) && TableOf(rs)[s].Keys <= TableOf(rs)[x].Keys
  {
    hide WellFormed, CoverageBox;
    var t, v := TableOf(rs), VocabularyOf(rs);
    forall w | w in Covering(rs, v, s) ensures w in Covering(rs, v, x) {
      forall d: Dim ensures x.At(d) in CoverageBox(w, v)[d] {
        assert Shared(t, s, x, d);
        var u :| u in GroupOf(t, s) && u.At(d) == x.At(d);
        CoveredTogether(rs, w, s, u);
      }
    }
    TableEntry(rs, v, s);
    TableEntry(rs, v, x);
  }

  lemma CoveredTogether(rs: set<WSAResource>, w: WSAResource, s: Scope, u: Scope)
    requires ValidSet(rs) && s in TableOf(rs) && w in Covering(rs, VocabularyOf(rs), s)
    requires u in GroupOf(TableOf(rs), s)
    ensures Covers(w, VocabularyOf(rs), u)
  {
    hide WellFormed, CoverageBox, InBox;
    TableEntry(rs, VocabularyOf(rs), s);
    TableEntry(rs, VocabularyOf(rs), u);
    assert w.GetKey() in TableOf(rs)[u].Keys;
    var x :| x in Covering(rs, VocabularyOf(rs), u) && x.GetKey() == w.GetKey();
  }

  lemma NamedValueIsShared(t: Table, s: Scope, u: Scope, d: Dim)
    requires s in t && u in t && GroupDims(t, s) == GroupDims(t, u)
    requires Named(s.At(d))
    ensures Shared(t, u, s, d)
  {
    SameDimsSameValues(t, s, u, d);
    assert s in GroupOf(t, s);
    assert s.At(d) in GroupValues(GroupOf(t, s), d);
  }

  lemma UnmixedValueIsShared(rs: set<WSAResource>, s: Scope, u: Scope, d: Dim)
    requires ValidSet(rs) && !Mixed(rs, d)
    requires s in TableOf(rs) && u in TableOf(rs) && GroupDims(TableOf(rs), s) == GroupDims(TableOf(rs), u)
    ensures Shared(TableOf(rs), u, s, d)
  {
    hide WellFormed, GroupDims, TableOf;
    var t := TableOf(rs);
    TableScopeIsKnown(rs, s);
    TableScopeIsKnown(rs, u);
    if Named(s.At(d)) {
      NamedValueIsShared(t, s, u, d);
    } else {
      UnmixedWildcard(rs, s, u, d);
      assert u in GroupOf(t, u);
    }
  }

  lemma UnmixedWildcard(rs: set<WSAResource>, s: Scope, u: Scope, d: Dim)
    requires ValidSet(rs) && !Mixed(rs, d)
    requires s in TableOf(rs) && u in TableOf(rs) && s.At(d) == WILDCARD
    ensures u.At(d) == WILDCARD
  {
    var v := VocabularyOf(rs);
    TableEntry(rs, v, s);
    var w :| w in Covering(rs, v, s);
    CoverageAt(w, v, d);
    assert WellFormed(w);
    assert s.At(d) in DimensionCoverage(w, v, d);
    if w.Values(d) != [] { SlugIsNotWildcard(WILDCARD); }
    assert KnownValues(rs, d) == {};
    TableScopeIsKnown(rs, u);
  }

  // A scope of the group of s whose value in d, if it can be, is not the wildcard.
  lemma PickNamed(t: Table, s: Scope, d: Dim) returns (p: Scope)
    requires s in t
    ensures p in GroupOf(t, s) && GroupDims(t, p) == GroupDims(t, s)
    ensures Named(p.At(d)) || GroupValues(GroupOf(t, s), d) == {}
  {
    p := s;
    if GroupValues(GroupOf(t, s), d) != {} {
      var x :| x in GroupValues(GroupOf(t, s), d);
      p :| p in GroupOf(t, s) && Named(p.At(d)) && p.At(d) == x;
    }
    assert GroupOf(t, p) == GroupOf(t, s);
  }

  lemma PickedValueIsShared(rs: set<WSAResource>, s: Scope, u: Scope, p: Scope, d: Dim)
    requires ValidSet(rs) && s in TableOf(rs) && u in TableOf(rs)
    requires GroupDims(TableOf(rs), s) == GroupDims(TableOf(rs), u)
    requires p in GroupOf(TableOf(rs), s) && GroupDims(TableOf(rs), p) == GroupDims(TableOf(rs), s)
    requires Named(p.At(d)) || GroupValues(GroupOf(TableOf(rs), s), d) == {}
    ensures Shared(TableOf(rs), u, p, d)
  {
    hide GroupDims, TableOf, WellFormed;
    var t := TableOf(rs);
    if Named(p.At(d)) {
      NamedValueIsShared(t, p, u, d);
    } else {
      SameDimsSameValues(t, s, u, d);
      assert u in GroupOf(t, u) && u.At(d) !in GroupValues(GroupOf(t, u), d);
      TableScopeIsKnown(rs, p);
      TableScopeIsKnown(rs, u);
    }
  }

  lemma SameValuesContained(rs: set<WSAResource>, s: Scope, u: Scope, m: Dim)
    requires ValidSet(rs) && MixedDims(rs) <= {m}
    requires s in TableOf(rs) && u in TableOf(rs) && GroupDims(TableOf(rs), s) == GroupDims(TableOf(rs), u)
    ensures TableOf(rs)[u].Keys <= TableOf(rs)[s].Keys
  {
    hide GroupDims, TableOf, Mixed, WellFormed;
    var t := TableOf(rs);
    var p := PickNamed(t, s, m);
    forall d: Dim ensures Shared(t, u, p, d) {
      if d == m {
        PickedValueIsShared(rs, s, u, p, d);
      } else {
        assert d !in MixedDims(rs);
        UnmixedValueIsShared(rs, p, u, d);
      }
    }
    ProductStaysInside(rs, u, p);
  }

  // If at most one dimension is mixed, different WSA sets get different names.
  lemma OneMixedDimension(hash: string -> string, rs: set<WSAResource>)
    requires ValidSet(rs) && CollisionFree(hash, TableOf(rs))
    requires |MixedDims(rs)| <= 1
    ensures DistinctNames(hash, TableOf(rs))
  {
    hide GroupDims, TableOf, Mixed, WellFormed, NameOf, CollisionFree, MixedDims;
    var t := TableOf(rs);
    var m: Dim := AtMostOne(MixedDims(rs));
    forall s, u | s in t && u in t && NameOf(hash, t, s) == NameOf(hash, t, u)
      ensures t[s].Keys == t[u].Keys
    {
      SameNameSameValues(hash, rs, s, u);
      SameValuesContained(rs, s, u, m);
      SameValuesContained(rs, u, s, m);
    }
  }

  lemma AtMostOne(ms: set<Dim>) returns (m: Dim)
    requires |ms| <= 1
    ensures ms <= {m}
  {
    m := 0;
    if ms != {} {
      m :| m in ms;
      assert |ms - {m}| == 0;
    }
  }
}
