// internal/rules/generator.go:241-392: grouping the table's scopes by WSA set, one
// service account per group.
module Mappings {
  import opened Text
  import opened Scopes
  import opened Generator
  import opened Naming

  // A service account object; its labels and annotations are printed from dims.
  datatype ServiceAccount = ServiceAccount(name: string, dims: GroupedDimensions)

  // ---- What is computed

  ghost predicate ValidTable(t: Table) {
    forall s :: s in t ==> t[s] != map[] && forall k :: k in t[s] ==> PlainKey(k)
  }

  ghost function GroupOf(t: Table, s: Scope): (scopes: set<Scope>)
    requires s in t
    ensures scopes <= t.Keys
  {
    set u | u in t && t[u].Keys == t[s].Keys
  }

  ghost function WSASets(t: Table): set<set<Key>> {
    set s | s in t :: t[s].Keys
  }

  predicate Named(value: string) { value != "" && value != WILDCARD }

  ghost function GroupValues(scopes: set<Scope>, d: Dim): set<string> {
    set s | s in scopes && Named(s.At(d)) :: s.At(d)
  }

  ghost function DimsOf(scopes: set<Scope>): GroupedDimensions {
    GroupedDimensions(
      Sorted(GroupValues(scopes, 0)), Sorted(GroupValues(scopes, 1)), Sorted(GroupValues(scopes, 2)),
      Sorted(GroupValues(scopes, 3)), Sorted(GroupValues(scopes, 4)), Sorted(GroupValues(scopes, 5)))
  }

  lemma DimsAt(scopes: set<Scope>, d: Dim)
    ensures DimsOf(scopes).At(d) == Sorted(GroupValues(scopes, d))
  {}

  // The labels of an account, dimension by dimension.
  lemma DimsByField(scopes: set<Scope>)
    ensures var g := DimsOf(scopes);
      && g.projects == Sorted(set s | s in scopes && s.project != "" && s.project != "*" :: s.project)
      && g.projectGroups
         == Sorted(set s | s in scopes && s.projectGroup != "" && s.projectGroup != "*" :: s.projectGroup)
      && g.environments == Sorted(set s | s in scopes && s.environment != "" && s.environment != "*" :: s.environment)
      && g.tenants == Sorted(set s | s in scopes && s.tenant != "" && s.tenant != "*" :: s.tenant)
      && g.steps == Sorted(set s | s in scopes && s.step != "" && s.step != "*" :: s.step)
      && g.spaces == Sorted(set s | s in scopes && s.space != "" && s.space != "*" :: s.space)
  {
    assert GroupValues(scopes, 0) == set s | s in scopes && s.project != "" && s.project != "*" :: s.project;
    assert GroupValues(scopes, 1)
        == set s | s in scopes && s.projectGroup != "" && s.projectGroup != "*" :: s.projectGroup;
    assert GroupValues(scopes, 2)
        == set s | s in scopes && s.environment != "" && s.environment != "*" :: s.environment;
    assert GroupValues(scopes, 3) == set s | s in scopes && s.tenant != "" && s.tenant != "*" :: s.tenant;
    assert GroupValues(scopes, 4) == set s | s in scopes && s.step != "" && s.step != "*" :: s.step;
    assert GroupValues(scopes, 5) == set s | s in scopes && s.space != "" && s.space != "*" :: s.space;
  }

  ghost function GroupDims(t: Table, s: Scope): GroupedDimensions
    requires s in t
  {
    DimsOf(GroupOf(t, s))
  }

  ghost function NameOf(hash: string -> string, t: Table, s: Scope): string
    requires s in t
  {
    ServiceAccountName(hash, GroupDims(t, s))
  }

  ghost function ScopeToSA(hash: string -> string, t: Table): map<Scope, string> {
    map s | s in t :: NameOf(hash, t, s)
  }

  // The names a key takes part in, over the scopes in done.
  ghost function NamesOver(hash: string -> string, t: Table, done: set<Scope>, k: Key): set<string>
    requires done <= t.Keys
  {
    set s | s in done && k in t[s] :: NameOf(hash, t, s)
  }

  ghost function NamesFor(hash: string -> string, t: Table, k: Key): set<string> {
    NamesOver(hash, t, t.Keys, k)
  }

  ghost function KeysOver(t: Table, done: set<Scope>): set<Key>
    requires done <= t.Keys
  {
    set s, k | s in done && k in t[s] :: k
  }

  ghost predicate NoDuplicates<T>(xs: seq<T>) {
    forall i, j :: 0 <= i < j < |xs| ==> xs[i] != xs[j]
  }

  // Group names may coincide, and then the group visited last wins: the maps keyed by
  // name hold the entry of some group of that name.
  ghost predicate IsSAToWSAs(hash: string -> string, t: Table, done: set<Scope>,
                             m: map<string, map<Key, WSAResource>>)
    requires done <= t.Keys
  {
    && (forall s :: s in done ==> NameOf(hash, t, s) in m)
    && (forall n :: n in m ==> exists s :: s in done && NameOf(hash, t, s) == n && m[n] == t[s])
  }

  ghost predicate IsUniqueAccounts(hash: string -> string, t: Table, done: set<Scope>,
                                   m: map<string, ServiceAccount>)
    requires done <= t.Keys
  {
    && (forall s :: s in done ==> NameOf(hash, t, s) in m)
    && (forall n :: n in m ==> exists s :: s in done && NameOf(hash, t, s) == n
                                           && m[n] == ServiceAccount(n, GroupDims(t, s)))
  }

  ghost predicate IsNameSets(hash: string -> string, t: Table, done: set<Scope>, m: map<Key, set<string>>)
    requires done <= t.Keys
  {
    && m.Keys == KeysOver(t, done)
    && (forall k :: k in m ==> m[k] == NamesOver(hash, t, done, k))
  }

  // The slices a map of name sets is converted to, in any order.
  ghost predicate IsWSAToSAs(hash: string -> string, t: Table, m: map<Key, seq<string>>) {
    && m.Keys == KeysOver(t, t.Keys)
    && (forall k :: k in m ==> NoDuplicates(m[k]) && Elements(m[k]) == NamesFor(hash, t, k))
  }

  // One account per name, built from a group of that name.
  ghost predicate IsAccounts(hash: string -> string, t: Table, accounts: seq<ServiceAccount>) {
    && (forall i, j :: 0 <= i < j < |accounts| ==> accounts[i].name != accounts[j].name)
    && (forall s :: s in t ==> exists i :: 0 <= i < |accounts| && accounts[i].name == NameOf(hash, t, s))
    && (forall i :: 0 <= i < |accounts| ==> IsGroupAccount(hash, t, accounts[i]))
  }

  ghost predicate IsGroupAccount(hash: string -> string, t: Table, a: ServiceAccount) {
    exists s :: s in t && a == ServiceAccount(NameOf(hash, t, s), GroupDims(t, s))
  }

  lemma SameKeysSameName(hash: string -> string, t: Table, s: Scope, u: Scope)
    requires s in t && u in t && t[s].Keys == t[u].Keys
    ensures GroupOf(t, s) == GroupOf(t, u)
    ensures NameOf(hash, t, s) == NameOf(hash, t, u)
  {
    assert GroupOf(t, s) == GroupOf(t, u);
  }

  // ---- How it is computed

  ghost predicate IsGrouping(t: Table, groups: map<string, seq<Scope>>) {
    && (forall s :: s in t ==> GroupKey(t[s].Keys) in groups)
    && (forall g :: g in groups ==> groups[g] != [] && NoDuplicates(groups[g]))
    && (forall g, s :: g in groups ==> (s in groups[g] <==> s in t && GroupKey(t[s].Keys) == g))
  }

  method GroupScopesByWSASet(t: Table) returns (groups: map<string, seq<Scope>>)
    ensures IsGrouping(t, groups)
  {
    groups := map[];
    var todo := t.Keys;
    while todo != {}
      invariant todo <= t.Keys
      invariant forall s :: s in t && s !in todo ==> GroupKey(t[s].Keys) in groups
      invariant forall g :: g in groups ==> groups[g] != [] && NoDuplicates(groups[g])
      invariant forall g, s :: g in groups ==>
        (s in groups[g] <==> s in t && s !in todo && GroupKey(t[s].Keys) == g)
    {
      var s :| s in todo;
      todo := todo - {s};
      var wsaSetKey := GroupKey(t[s].Keys);
      var scopes := if wsaSetKey in groups then groups[wsaSetKey] else [];
      assert s !in scopes;
      groups := groups[wsaSetKey := scopes + [s]];
    }
  }

  // The joined key strings partition the table by WSA key set.
  lemma GroupingIsPartition(t: Table, groups: map<string, seq<Scope>>)
    requires ValidTable(t) && IsGrouping(t, groups)
    ensures forall s :: s in t ==> exists g :: g in groups && s in groups[g]
    ensures forall g, h, s :: g in groups && h in groups && s in groups[g] && s in groups[h] ==> g == h
    ensures forall g, s :: g in groups && s in groups[g] ==> s in t && Elements(groups[g]) == GroupOf(t, s)
  {
    forall s | s in t ensures exists g :: g in groups && s in groups[g] {
      assert s in groups[GroupKey(t[s].Keys)];
    }
    forall g, h, s | g in groups && h in groups && s in groups[g] && s in groups[h] ensures g == h {
      assert GroupKey(t[s].Keys) == g;
    }
    forall g, s | g in groups && s in groups[g] ensures Elements(groups[g]) == GroupOf(t, s) {
      forall u ensures u in groups[g] <==> u in GroupOf(t, s) {
        if u in groups[g] {
          GroupKeyInjective(t[u].Keys, t[s].Keys);
        }
      }
    }
  }

  method CollectDimensionValues(scopes: seq<Scope>) returns (g: GroupedDimensions)
    ensures g == DimsOf(Elements(scopes))
  {
    var values: Box := [{}, {}, {}, {}, {}, {}];
    for i := 0 to |scopes|
      invariant forall d: Dim :: values[d] == GroupValues(Elements(scopes[..i]), d)
    {
      ghost var before := values;
      for d := 0 to 6
        invariant forall e: Dim ::
          values[e] == before[e] + (if e < d && Named(scopes[i].At(e)) then {scopes[i].At(e)} else {})
      {
        if scopes[i].At(d) != "" && scopes[i].At(d) != WILDCARD {
          values := values[d := values[d] + {scopes[i].At(d)}];
        }
      }
      assert Elements(scopes[..i+1]) == Elements(scopes[..i]) + {scopes[i]};
    }
    assert scopes[..|scopes|] == scopes;
    return GroupedDimensions(Sorted(values[0]), Sorted(values[1]), Sorted(values[2]),
                             Sorted(values[3]), Sorted(values[4]), Sorted(values[5]));
  }

  // ---- One service account per group

  lemma GroupSharesName(hash: string -> string, t: Table, s: Scope)
    requires s in t
    ensures s in GroupOf(t, s) && GroupOf(t, s) <= t.Keys
    ensures forall u :: u in GroupOf(t, s) ==> NameOf(hash, t, u) == NameOf(hash, t, s)
  {
    forall u | u in GroupOf(t, s) ensures NameOf(hash, t, u) == NameOf(hash, t, s) {
      SameKeysSameName(hash, t, s, u);
    }
  }

  // Adding the group of s to the scopes done, for each of the four maps.
  lemma StepScopeToSA(hash: string -> string, t: Table, done: set<Scope>, s: Scope, m: map<Scope, string>)
    requires done <= t.Keys && s in t
    requires m == map u | u in done :: NameOf(hash, t, u)
    ensures done + GroupOf(t, s) <= t.Keys
    ensures m + (map u | u in GroupOf(t, s) :: NameOf(hash, t, s))
            == map u | u in done + GroupOf(t, s) :: NameOf(hash, t, u)
  {
    GroupSharesName(hash, t, s);
  }

  lemma StepSAToWSAs(hash: string -> string, t: Table, done: set<Scope>, s: Scope,
                     m: map<string, map<Key, WSAResource>>)
    requires done <= t.Keys && s in t && IsSAToWSAs(hash, t, done, m)
    ensures done + GroupOf(t, s) <= t.Keys
    ensures IsSAToWSAs(hash, t, done + GroupOf(t, s), m[NameOf(hash, t, s) := t[s]])
  {
    hide NameOf, GroupOf;
    GroupSharesName(hash, t, s);
  }

  lemma StepAccounts(hash: string -> string, t: Table, done: set<Scope>, s: Scope,
                     m: map<string, ServiceAccount>)
    requires done <= t.Keys && s in t && IsUniqueAccounts(hash, t, done, m)
    ensures done + GroupOf(t, s) <= t.Keys
    ensures IsUniqueAccounts(hash, t, done + GroupOf(t, s),
              m[NameOf(hash, t, s) := ServiceAccount(NameOf(hash, t, s), GroupDims(t, s))])
  {
    GroupSharesName(hash, t, s);
  }

  lemma StepNameSets(hash: string -> string, t: Table, done: set<Scope>, s: Scope,
                     m: map<Key, set<string>>, r: map<Key, set<string>>)
    requires done <= t.Keys && s in t && IsNameSets(hash, t, done, m)
    requires IsAddName(m, t[s], NameOf(hash, t, s), r)
    ensures done + GroupOf(t, s) <= t.Keys
    ensures IsNameSets(hash, t, done + GroupOf(t, s), r)
  {
    hide NamesOver, KeysOver, NameOf, GroupOf;
    forall k { NamesStep(hash, t, done, s, k); }
  }

  lemma NamesStep(hash: string -> string, t: Table, done: set<Scope>, s: Scope, k: Key)
    requires done <= t.Keys && s in t
    ensures done + GroupOf(t, s) <= t.Keys
    ensures NamesOver(hash, t, done + GroupOf(t, s), k)
            == NamesOver(hash, t, done, k) + (if k in t[s] then {NameOf(hash, t, s)} else {})
    ensures k !in KeysOver(t, done) ==> NamesOver(hash, t, done, k) == {}
    ensures k in KeysOver(t, done + GroupOf(t, s)) <==> k in KeysOver(t, done) || k in t[s]
  {
    hide NameOf;
    GroupSharesName(hash, t, s);
  }

  ghost predicate IsAddName(m: map<Key, set<string>>, wsaMap: map<Key, WSAResource>, name: string,
                            r: map<Key, set<string>>)
  {
    && r.Keys == m.Keys + wsaMap.Keys
    && (forall k :: k in r ==>
          r[k] == (if k in m then m[k] else {}) + (if k in wsaMap then {name} else {}))
  }

  method AddName(m: map<Key, set<string>>, wsaMap: map<Key, WSAResource>, name: string)
    returns (r: map<Key, set<string>>)
    ensures IsAddName(m, wsaMap, name, r)
  {
    r := m;
    var todo := wsaMap.Keys;
    while todo != {}
      invariant todo <= wsaMap.Keys
      invariant r.Keys == m.Keys + (wsaMap.Keys - todo)
      invariant forall k :: k in r ==>
        r[k] == (if k in m then m[k] else {}) + (if k in wsaMap && k !in todo then {name} else {})
    {
      var k :| k in todo;
      todo := todo - {k};
      if k in r {
        r := r[k := r[k] + {name}];
      } else {
        r := r[k := {name}];
      }
    }
  }

  method SliceOf(xs: set<string>) returns (r: seq<string>)
    ensures NoDuplicates(r) && Elements(r) == xs
  {
    r := [];
    var todo := xs;
    while todo != {}
      invariant todo <= xs
      invariant NoDuplicates(r) && Elements(r) == xs - todo
    {
      var x :| x in todo;
      todo := todo - {x};
      assert x !in Elements(r);
      assert Elements(r + [x]) == Elements(r) + {x};
      r := r + [x];
    }
  }

  method SlicesOf(m: map<Key, set<string>>) returns (r: map<Key, seq<string>>)
    ensures r.Keys == m.Keys
    ensures forall k :: k in m ==> NoDuplicates(r[k]) && Elements(r[k]) == m[k]
  {
    r := map[];
    var todo := m.Keys;
    while todo != {}
      invariant todo <= m.Keys
      invariant r.Keys == m.Keys - todo
      invariant forall k :: k in r ==> NoDuplicates(r[k]) && Elements(r[k]) == m[k]
    {
      var k :| k in todo;
      todo := todo - {k};
      var slice := SliceOf(m[k]);
      r := r[k := slice];
    }
  }

  method AccountsOf(m: map<string, ServiceAccount>) returns (accounts: seq<ServiceAccount>)
    requires forall n :: n in m ==> m[n].name == n
    ensures forall i, j :: 0 <= i < j < |accounts| ==> accounts[i].name != accounts[j].name
    ensures forall n :: n in m ==> exists i :: 0 <= i < |accounts| && accounts[i].name == n
    ensures forall i :: 0 <= i < |accounts| ==> accounts[i].name in m && accounts[i] == m[accounts[i].name]
  {
    accounts := [];
    var todo := m.Keys;
    while todo != {}
      invariant todo <= m.Keys
      invariant forall i, j :: 0 <= i < j < |accounts| ==> accounts[i].name != accounts[j].name
      invariant forall i :: 0 <= i < |accounts| ==>
        accounts[i].name in m && accounts[i].name !in todo && accounts[i] == m[accounts[i].name]
      invariant forall n :: n in m && n !in todo ==> exists i :: 0 <= i < |accounts| && accounts[i].name == n
    {
      var n :| n in todo;
      todo := todo - {n};
      ghost var before := accounts;
      accounts := accounts + [m[n]];
      assert accounts[|before|].name == n;
      forall x | x in m && x !in todo ensures exists i :: 0 <= i < |accounts| && accounts[i].name == x {
        if x != n {
          var i :| 0 <= i < |before| && before[i].name == x;
          assert accounts[i].name == x;
        }
      }
    }
  }

  // The four maps after visiting the groups of the scopes in done.
  ghost predicate Progress(hash: string -> string, t: Table, done: set<Scope>,
                           scopeToSA: map<Scope, string>, saToWSAs: map<string, map<Key, WSAResource>>,
                           accounts: map<string, ServiceAccount>, nameSets: map<Key, set<string>>)
    requires done <= t.Keys
  {
    && scopeToSA == (map u | u in done :: NameOf(hash, t, u))
    && IsSAToWSAs(hash, t, done, saToWSAs)
    && IsUniqueAccounts(hash, t, done, accounts)
    && IsNameSets(hash, t, done, nameSets)
  }

  lemma StepAll(hash: string -> string, t: Table, done: set<Scope>, s: Scope,
                scopeToSA: map<Scope, string>, saToWSAs: map<string, map<Key, WSAResource>>,
                accounts: map<string, ServiceAccount>, nameSets: map<Key, set<string>>,
                added: map<Key, set<string>>)
    requires done <= t.Keys && s in t
    requires Progress(hash, t, done, scopeToSA, saToWSAs, accounts, nameSets)
    requires IsAddName(nameSets, t[s], NameOf(hash, t, s), added)
    ensures var name := NameOf(hash, t, s);
      Progress(hash, t, done + GroupOf(t, s),
               scopeToSA + (map u | u in GroupOf(t, s) :: name), saToWSAs[name := t[s]],
               accounts[name := ServiceAccount(name, GroupDims(t, s))], added)
  {
    hide IsSAToWSAs, IsUniqueAccounts, IsNameSets, NameOf, GroupDims, GroupOf;
    StepScopeToSA(hash, t, done, s, scopeToSA);
    StepSAToWSAs(hash, t, done, s, saToWSAs);
    StepAccounts(hash, t, done, s, accounts);
    StepNameSets(hash, t, done, s, nameSets, added);
  }

  method GenerateServiceAccountMappings(hash: string -> string, t: Table)
    returns (scopeToSA: map<Scope, string>, saToWSAs: map<string, map<Key, WSAResource>>,
             wsaToSAs: map<Key, seq<string>>, accounts: seq<ServiceAccount>)
    requires ValidTable(t)
    ensures scopeToSA == ScopeToSA(hash, t)
    ensures IsSAToWSAs(hash, t, t.Keys, saToWSAs)
    ensures IsWSAToSAs(hash, t, wsaToSAs)
    ensures IsAccounts(hash, t, accounts)
  {
    hide Progress, IsAddName, IsSAToWSAs, IsWSAToSAs, IsAccounts, IsGrouping, Visited;
    hide GroupOf, GroupKey, ValidTable, GroupDims, DimsOf, Canonical;
    scopeToSA, saToWSAs := map[], map[];
    var uniqueServiceAccounts: map<string, ServiceAccount> := map[];
    var nameSets: map<Key, set<string>> := map[];
    var groups := GroupScopesByWSASet(t);
    ghost var done: set<Scope> := {};
    NothingDone(hash, t, groups);
    var todo := groups.Keys;
    while todo != {}
      invariant todo <= groups.Keys
      invariant done <= t.Keys && Visited(t, groups, todo, done)
      invariant Progress(hash, t, done, scopeToSA, saToWSAs, uniqueServiceAccounts, nameSets)
    {
      var g :| g in todo;
      VisitStep(hash, t, groups, todo, done, g);
      todo := todo - {g};
      var scopes := groups[g];
      var s0 := scopes[0];
      var grouped := CollectDimensionValues(scopes);
      var name := ServiceAccountName(hash, grouped);
      var wsaMap := t[s0];
      var added := AddName(nameSets, wsaMap, name);
      StepAll(hash, t, done, s0, scopeToSA, saToWSAs, uniqueServiceAccounts, nameSets, added);
      scopeToSA := MapAll(scopeToSA, scopes, name);
      uniqueServiceAccounts := uniqueServiceAccounts[name := ServiceAccount(name, grouped)];
      saToWSAs := saToWSAs[name := wsaMap];
      nameSets := added;
      done := done + GroupOf(t, s0);
    }
    AllDone(t, groups, done);
    wsaToSAs := SlicesOf(nameSets);
    MapsDone(hash, t, scopeToSA, saToWSAs, uniqueServiceAccounts, nameSets, wsaToSAs);
    accounts := AccountsOf(uniqueServiceAccounts);
    AccountsFromMap(hash, t, uniqueServiceAccounts, accounts);
  }

  lemma NothingDone(hash: string -> string, t: Table, groups: map<string, seq<Scope>>)
    requires IsGrouping(t, groups)
    ensures Progress(hash, t, {}, map[], map[], map[], map[])
    ensures Visited(t, groups, groups.Keys, {})
  {}

  lemma MapsDone(hash: string -> string, t: Table,
                 scopeToSA: map<Scope, string>, saToWSAs: map<string, map<Key, WSAResource>>,
                 accounts: map<string, ServiceAccount>, nameSets: map<Key, set<string>>,
                 slices: map<Key, seq<string>>)
    requires Progress(hash, t, t.Keys, scopeToSA, saToWSAs, accounts, nameSets)
    requires slices.Keys == nameSets.Keys
    requires forall k :: k in nameSets ==> NoDuplicates(slices[k]) && Elements(slices[k]) == nameSets[k]
    ensures scopeToSA == ScopeToSA(hash, t)
    ensures IsSAToWSAs(hash, t, t.Keys, saToWSAs)
    ensures IsUniqueAccounts(hash, t, t.Keys, accounts)
    ensures IsWSAToSAs(hash, t, slices)
    ensures forall n :: n in accounts ==> accounts[n].name == n
  {}

  lemma AccountsFromMap(hash: string -> string, t: Table, m: map<string, ServiceAccount>,
                        accounts: seq<ServiceAccount>)
    requires IsUniqueAccounts(hash, t, t.Keys, m)
    requires forall i, j :: 0 <= i < j < |accounts| ==> accounts[i].name != accounts[j].name
    requires forall n :: n in m ==> exists i :: 0 <= i < |accounts| && accounts[i].name == n
    requires forall i :: 0 <= i < |accounts| ==> accounts[i].name in m && accounts[i] == m[accounts[i].name]
    ensures IsAccounts(hash, t, accounts)
  {
    forall i | 0 <= i < |accounts| ensures IsGroupAccount(hash, t, accounts[i]) {
      var n := accounts[i].name;
      assert n in m;
      var s :| s in t && NameOf(hash, t, s) == n && m[n] == ServiceAccount(n, GroupDims(t, s));
    }
  }

  method MapAll(m: map<Scope, string>, scopes: seq<Scope>, name: string) returns (r: map<Scope, string>)
    ensures r == m + map s | s in Elements(scopes) :: name
  {
    r := m;
    for i := 0 to |scopes|
      invariant r == m + map s | s in Elements(scopes[..i]) :: name
    {
      r := r[scopes[i] := name];
      assert Elements(scopes[..i+1]) == Elements(scopes[..i]) + {scopes[i]};
    }
    assert scopes[..|scopes|] == scopes;
  }

  // done holds the scopes of the groups no longer to do.
  ghost predicate Visited(t: Table, groups: map<string, seq<Scope>>, todo: set<string>, done: set<Scope>) {
    forall g, s :: g in groups && s in groups[g] ==> (s in done <==> g !in todo)
  }

  lemma VisitStep(hash: string -> string, t: Table, groups: map<string, seq<Scope>>, todo: set<string>,
                  done: set<Scope>, g: string)
    requires ValidTable(t) && IsGrouping(t, groups) && g in todo && todo <= groups.Keys
    requires Visited(t, groups, todo, done)
    ensures groups[g] != [] && groups[g][0] in t
    ensures Elements(groups[g]) == GroupOf(t, groups[g][0])
    ensures DimsOf(Elements(groups[g])) == GroupDims(t, groups[g][0])
    ensures ServiceAccountName(hash, DimsOf(Elements(groups[g]))) == NameOf(hash, t, groups[g][0])
    ensures Visited(t, groups, todo - {g}, done + GroupOf(t, groups[g][0]))
  {
    hide GroupKey, DimsOf, Canonical;
    GroupingIsPartition(t, groups);
    var s0 := groups[g][0];
    assert s0 in groups[g];
    forall h, s | h in groups && s in groups[h]
      ensures s in done + GroupOf(t, s0) <==> h !in todo - {g}
    {
      assert s in GroupOf(t, s0) <==> s in groups[g];
    }
  }

  lemma AllDone(t: Table, groups: map<string, seq<Scope>>, done: set<Scope>)
    requires IsGrouping(t, groups) && done <= t.Keys
    requires Visited(t, groups, {}, done)
    ensures done == t.Keys
  {
    forall s | s in t ensures s in done {
      assert s in groups[GroupKey(t[s].Keys)];
    }
  }
}
