// How large the compiled structures get.
module Sizes {
  import opened Scopes
  import opened Generator
  import opened Mappings
  import opened Lookups

  // ---- Cardinalities

  lemma {:induction false} CardOfImage<X, Y>(xs: set<X>, f: X --> Y, ys: set<Y>)
    requires forall x :: x in xs ==> f.requires(x)
    requires ys == set x | x in xs :: f(x)
    ensures |ys| <= |xs|
    ensures |ys| == |xs| <==> forall x, z :: x in xs && z in xs && f(x) == f(z) ==> x == z
  {
    if xs != {} {
      var x :| x in xs;
      var rest := xs - {x};
      var ys' := set z | z in rest :: f(z);
      CardOfImage(rest, f, ys');
      assert ys == ys' + {f(x)};
      if f(x) in ys' {
        assert ys == ys';
        var z :| z in rest && f(z) == f(x);
      }
    }
  }

  ghost function Pairs<X, Y>(xs: set<X>, ys: set<Y>): set<(X, Y)> {
    set x, y | x in xs && y in ys :: (x, y)
  }

  lemma PairsSplit<X, Y>(xs: set<X>, ys: set<Y>, x: X)
    requires x in xs
    ensures var column := set y | y in ys :: (x, y);
      Pairs(xs, ys) == Pairs(xs - {x}, ys) + column && Pairs(xs - {x}, ys) !! column
  {}

  lemma {:induction false} CardOfPairs<X, Y>(xs: set<X>, ys: set<Y>)
    ensures |Pairs(xs, ys)| == |xs| * |ys|
  {
    if xs == {} {
      assert Pairs(xs, ys) == {};
    } else {
      var x :| x in xs;
      var rest := xs - {x};
      CardOfPairs(rest, ys);
      var column := set y | y in ys :: (x, y);
      CardOfImage(ys, y => (x, y), column);
      PairsSplit(xs, ys, x);
      hide Pairs;
      assert |xs| * |ys| == |rest| * |ys| + |ys| by { assert |xs| == |rest| + 1; }
    }
  }

  lemma CardIsMonotone<X>(xs: set<X>, ys: set<X>)
    requires xs <= ys
    ensures |xs| <= |ys|
  {
    assert ys == xs + (ys - xs);
  }

  // ---- A box

  ghost function Volume(b: Box): nat {
    |b[0]| * |b[1]| * |b[2]| * |b[3]| * |b[4]| * |b[5]|
  }

  type Nested = (((((string, string), string), string), string), string)

  ghost function Nest(b: Box): set<Nested> {
    Pairs(Pairs(Pairs(Pairs(Pairs(b[0], b[1]), b[2]), b[3]), b[4]), b[5])
  }

  ghost function Flat(n: Nested): Scope {
    Scope(n.0.0.0.0.0, n.0.0.0.0.1, n.0.0.0.1, n.0.0.1, n.0.1, n.1)
  }

  lemma CardOfNest(b: Box)
    ensures |Nest(b)| == Volume(b)
  {
    hide Pairs;
    CardOfPairs(b[0], b[1]);
    CardOfPairs(Pairs(b[0], b[1]), b[2]);
    CardOfPairs(Pairs(Pairs(b[0], b[1]), b[2]), b[3]);
    CardOfPairs(Pairs(Pairs(Pairs(b[0], b[1]), b[2]), b[3]), b[4]);
    CardOfPairs(Pairs(Pairs(Pairs(Pairs(b[0], b[1]), b[2]), b[3]), b[4]), b[5]);
  }

  lemma FlatNest(b: Box)
    ensures Product(b) == set n | n in Nest(b) :: Flat(n)
  {
    forall s | s in Product(b) ensures s in set n | n in Nest(b) :: Flat(n) {
      var n := (((((s.project, s.projectGroup), s.environment), s.tenant), s.step), s.space);
      assert n in Nest(b) && Flat(n) == s;
    }
  }

  lemma CardOfProduct(b: Box)
    ensures |Product(b)| == Volume(b)
  {
    hide Product, Volume, Nest;
    CardOfNest(b);
    FlatNest(b);
    CardOfImage(Nest(b), n => Flat(n), Product(b));
  }

  // ---- What the generator builds

  lemma CardOfDimension(rs: set<WSAResource>, w: WSAResource, d: Dim)
    requires ValidSet(rs)
    ensures |DimensionCoverage(w, VocabularyOf(rs), d)|
            == if w.Values(d) == [] then |VocabularyOf(rs)[d]| + 1 else |w.ValueSet(d)|
  {
    assert VocabularyOf(rs)[d] == KnownValues(rs, d);
    if WILDCARD in KnownValues(rs, d) {
      var x :| x in rs && WILDCARD in x.Values(d);
      assert WellFormed(x);
      SlugIsNotWildcard(WILDCARD);
    }
  }

  ghost function Width(rs: set<WSAResource>, w: WSAResource, d: Dim): nat {
    if w.Values(d) == [] then |VocabularyOf(rs)[d]| + 1 else |w.ValueSet(d)|
  }

  // A WSA covers the product over the dimensions of its distinct values, or of the whole
  // vocabulary and one unknown value where it has none.
  lemma CoverageSize(rs: set<WSAResource>, w: WSAResource)
    requires ValidSet(rs)
    ensures |Product(CoverageBox(w, VocabularyOf(rs)))|
            == Width(rs, w, 0) * Width(rs, w, 1) * Width(rs, w, 2)
               * Width(rs, w, 3) * Width(rs, w, 4) * Width(rs, w, 5)
  {
    hide Product, VocabularyOf, DimensionCoverage, WellFormed;
    var v := VocabularyOf(rs);
    CardOfProduct(CoverageBox(w, v));
    CardOfDimension(rs, w, 0); CardOfDimension(rs, w, 1); CardOfDimension(rs, w, 2);
    CardOfDimension(rs, w, 3); CardOfDimension(rs, w, 4); CardOfDimension(rs, w, 5);
    CoverageAt(w, v, 0); CoverageAt(w, v, 1); CoverageAt(w, v, 2);
    CoverageAt(w, v, 3); CoverageAt(w, v, 4); CoverageAt(w, v, 5);
  }

  // The scopes a pod can be abstracted to.
  ghost function Universe(v: Box): Box {
    seq(6, d requires 0 <= d < 6 => v[d] + {WILDCARD})
  }

  lemma TableInUniverse(rs: set<WSAResource>, s: Scope)
    requires ValidSet(rs) && s in TableOf(rs)
    ensures s in Product(Universe(VocabularyOf(rs)))
  {
    hide TableOf, WellFormed, Product;
    TableScopeIsKnown(rs, s);
    ProductIsBox(s, Universe(VocabularyOf(rs)));
  }

  lemma TableSize(rs: set<WSAResource>)
    requires ValidSet(rs)
    ensures var v := VocabularyOf(rs);
      |TableOf(rs)| <= (|v[0]| + 1) * (|v[1]| + 1) * (|v[2]| + 1) * (|v[3]| + 1) * (|v[4]| + 1) * (|v[5]| + 1)
  {
    hide TableOf, WellFormed, VocabularyOf, Product;
    var v, u := VocabularyOf(rs), Universe(VocabularyOf(rs));
    forall s | s in TableOf(rs).Keys ensures s in Product(u) { TableInUniverse(rs, s); }
    CardIsMonotone(TableOf(rs).Keys, Product(u));
    CardOfProduct(u);
    forall d: Dim ensures |u[d]| == |v[d]| + 1 {
      CardOfDimension(rs, Unconstrained(), d);
      assert u[d] == v[d] + {WILDCARD};
    }
    assert |u[0]| == |v[0]| + 1 && |u[1]| == |v[1]| + 1 && |u[2]| == |v[2]| + 1;
    assert |u[3]| == |v[3]| + 1 && |u[4]| == |v[4]| + 1 && |u[5]| == |v[5]| + 1;
  }

  function Unconstrained(): WSAResource {
    Namespaced("ns", "any", ScopeSpec([], [], [], [], [], []), [], [], [])
  }

  ghost function AllNames(hash: string -> string, t: Table): set<string> {
    set s | s in t :: NameOf(hash, t, s)
  }

  ghost function NameOfKeys(hash: string -> string, t: Table, keys: set<Key>): string
    requires keys in WSASets(t)
  {
    var s :| s in t && t[s].Keys == keys;
    NameOf(hash, t, s)
  }

  lemma NameOfKeysIsName(hash: string -> string, t: Table, s: Scope)
    requires s in t
    ensures t[s].Keys in WSASets(t) && NameOfKeys(hash, t, t[s].Keys) == NameOf(hash, t, s)
  {
    hide NameOf;
    assert t[s].Keys in WSASets(t);
    var u :| u in t && t[u].Keys == t[s].Keys && NameOfKeys(hash, t, t[s].Keys) == NameOf(hash, t, u);
    SameKeysSameName(hash, t, s, u);
  }

  lemma CardOfNames(hash: string -> string, t: Table)
    ensures |AllNames(hash, t)| <= |WSASets(t)|
    ensures |AllNames(hash, t)| == |WSASets(t)| <==> DistinctNames(hash, t)
  {
    hide NameOf, NameOfKeys;
    var f := (keys: set<Key>) requires keys in WSASets(t) => NameOfKeys(hash, t, keys);
    forall s | s in t ensures t[s].Keys in WSASets(t) && f(t[s].Keys) == NameOf(hash, t, s) {
      NameOfKeysIsName(hash, t, s);
    }
    assert AllNames(hash, t) == set keys | keys in WSASets(t) :: f(keys);
    CardOfImage(WSASets(t), f, AllNames(hash, t));
  }

  ghost function AccountNames(accounts: seq<ServiceAccount>): set<string> {
    set a | a in accounts :: a.name
  }

  lemma {:induction false} CardOfAccountNames(accounts: seq<ServiceAccount>)
    requires forall i, j :: 0 <= i < j < |accounts| ==> accounts[i].name != accounts[j].name
    ensures |AccountNames(accounts)| == |accounts|
  {
    if accounts != [] {
      var first, rest := accounts[0], accounts[1..];
      CardOfAccountNames(rest);
      assert accounts == [first] + rest;
      assert AccountNames(accounts) == {first.name} + AccountNames(rest);
      assert first.name !in AccountNames(rest);
    }
  }

  lemma AccountNamesAreAllNames(hash: string -> string, t: Table, accounts: seq<ServiceAccount>)
    requires IsAccounts(hash, t, accounts)
    ensures AccountNames(accounts) == AllNames(hash, t)
  {
    hide NameOf, GroupDims;
    forall n | n in AccountNames(accounts) ensures n in AllNames(hash, t) {
      var i :| 0 <= i < |accounts| && accounts[i].name == n;
      assert IsGroupAccount(hash, t, accounts[i]);
    }
    forall n | n in AllNames(hash, t) ensures n in AccountNames(accounts) {
      var s :| s in t && NameOf(hash, t, s) == n;
      var i :| 0 <= i < |accounts| && accounts[i].name == n;
      assert accounts[i] in accounts;
    }
  }

  // There are at most as many accounts as WSA sets, and as many exactly when names are
  // distinct: comparing the two counts decides whether lookups are exact.
  lemma AccountsCount(hash: string -> string, t: Table, accounts: seq<ServiceAccount>)
    requires IsAccounts(hash, t, accounts)
    ensures |accounts| <= |WSASets(t)|
    ensures |accounts| == |WSASets(t)| <==> DistinctNames(hash, t)
  {
    hide AllNames, WSASets, DistinctNames;
    AccountNamesAreAllNames(hash, t, accounts);
    CardOfAccountNames(accounts);
    CardOfNames(hash, t);
  }
}
