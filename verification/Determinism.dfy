// Which results depend on the order in which the groups are visited? Vocabulary, scope map
// and account names are functions of the resource set by the contracts of Generator and
// Mappings; the results that are keyed by account name are folded over an order here.
module Determinism {
  import opened Scopes
  import opened Generator
  import opened Naming
  import opened Mappings
  import opened Lookups
  import opened BoxClosure
  import opened Tightness
  import opened Engine

  // ---- Visiting groups in an order

  // One scope for each group of the table.
  ghost predicate IsOrder(t: Table, order: seq<Scope>) {
    && (forall i :: 0 <= i < |order| ==> order[i] in t)
    && (forall i, j :: 0 <= i < j < |order| ==> t[order[i]].Keys != t[order[j]].Keys)
    && (forall s :: s in t ==> exists i :: 0 <= i < |order| && t[order[i]].Keys == t[s].Keys)
  }

  // What is stored under each name once all have been visited: a later value replaces an
  // earlier one.
  ghost function After<V>(names: seq<string>, values: seq<V>): map<string, V>
    requires |names| == |values|
  {
    if names == [] then map[] else
      var n := |names| - 1;
      After(names[..n], values[..n])[names[n] := values[n]]
  }

  lemma {:induction false} AfterIsLast<V>(names: seq<string>, values: seq<V>, i: nat)
    requires |names| == |values| && i < |names|
    requires forall j :: i < j < |names| ==> names[j] != names[i]
    ensures names[i] in After(names, values) && After(names, values)[names[i]] == values[i]
  {
    var n := |names| - 1;
    if i < n { AfterIsLast(names[..n], values[..n], i); }
  }

  lemma {:induction false} AfterComesFrom<V>(names: seq<string>, values: seq<V>, x: string) returns (i: nat)
    requires |names| == |values| && x in After(names, values)
    ensures i < |names| && names[i] == x && After(names, values)[x] == values[i]
  {
    var n := |names| - 1;
    i := n;
    if names[n] != x { i := AfterComesFrom(names[..n], values[..n], x); }
  }

  lemma {:induction false} AfterHasAll<V>(names: seq<string>, values: seq<V>, i: nat)
    requires |names| == |values| && i < |names|
    ensures names[i] in After(names, values)
  {
    var n := |names| - 1;
    if i < n { AfterHasAll(names[..n], values[..n], i); }
  }

  ghost function NamesIn(hash: string -> string, t: Table, order: seq<Scope>): seq<string>
    requires IsOrder(t, order)
  {
    seq(|order|, i requires 0 <= i < |order| => NameOf(hash, t, order[i]))
  }

  // The map of the loop over the groups, storing the value of each under its name.
  ghost function Outcome<V>(hash: string -> string, t: Table, values: map<Scope, V>, order: seq<Scope>): map<string, V>
    requires IsOrder(t, order) && values.Keys == t.Keys
  {
    After(NamesIn(hash, t, order), seq(|order|, i requires 0 <= i < |order| => values[order[i]]))
  }

  // ---- The outcomes are what the contracts admit

  // A group's value does not depend on the scope that stands for it.
  ghost predicate Uniform<V>(t: Table, values: map<Scope, V>) {
    values.Keys == t.Keys && forall s, u :: s in t && u in t && t[s].Keys == t[u].Keys ==> values[s] == values[u]
  }

  ghost predicate Admitted<V>(hash: string -> string, t: Table, values: map<Scope, V>, m: map<string, V>)
    requires values.Keys == t.Keys
  {
    && (forall s :: s in t ==> NameOf(hash, t, s) in m)
    && (forall n :: n in m ==> exists s :: s in t && NameOf(hash, t, s) == n && m[n] == values[s])
  }

  lemma UniformKeys<V>(t: Table, values: map<Scope, V>)
    requires Uniform(t, values)
    ensures values.Keys == t.Keys
  {}

  lemma OutcomeHasName<V>(hash: string -> string, t: Table, values: map<Scope, V>, order: seq<Scope>, s: Scope)
    requires values.Keys == t.Keys && IsOrder(t, order) && s in t
    ensures NameOf(hash, t, s) in Outcome(hash, t, values, order)
  {
    hide NameOf;
    var i :| 0 <= i < |order| && t[order[i]].Keys == t[s].Keys;
    SameKeysSameName(hash, t, s, order[i]);
    AfterHasAll(NamesIn(hash, t, order), seq(|order|, i requires 0 <= i < |order| => values[order[i]]), i);
  }

  lemma OutcomeComesFrom<V>(hash: string -> string, t: Table, values: map<Scope, V>, order: seq<Scope>, n: string)
    returns (s: Scope)
    requires values.Keys == t.Keys && IsOrder(t, order) && n in Outcome(hash, t, values, order)
    ensures s in t && NameOf(hash, t, s) == n && Outcome(hash, t, values, order)[n] == values[s]
  {
    hide NameOf;
    var i := AfterComesFrom(NamesIn(hash, t, order), seq(|order|, i requires 0 <= i < |order| => values[order[i]]), n);
    s := order[i];
  }

  lemma OutcomeIsAdmitted<V>(hash: string -> string, t: Table, values: map<Scope, V>, order: seq<Scope>)
    requires values.Keys == t.Keys && IsOrder(t, order)
    ensures Admitted(hash, t, values, Outcome(hash, t, values, order))
  {
    hide NameOf, IsOrder, Outcome;
    forall s | s in t ensures NameOf(hash, t, s) in Outcome(hash, t, values, order) {
      OutcomeHasName(hash, t, values, order, s);
    }
    forall n | n in Outcome(hash, t, values, order)
      ensures exists s :: s in t && NameOf(hash, t, s) == n && Outcome(hash, t, values, order)[n] == values[s]
    {
      var s := OutcomeComesFrom(hash, t, values, order, n);
    }
  }

  lemma {:induction false} Listed<T>(xs: set<T>) returns (r: seq<T>)
    ensures NoDuplicates(r) && Elements(r) == xs
  {
    r := [];
    if xs != {} {
      var x :| x in xs;
      var rest := Listed(xs - {x});
      r := [x] + rest;
      assert x !in Elements(rest) && Elements(r) == {x} + Elements(rest);
    }
  }

  ghost function Representative(t: Table, keys: set<Key>): (s: Scope)
    requires keys in WSASets(t)
    ensures s in t && t[s].Keys == keys
  {
    var s :| s in t && t[s].Keys == keys; s
  }

  // The group whose value m holds.
  ghost function Winner<V>(hash: string -> string, t: Table, values: map<Scope, V>, m: map<string, V>, n: string)
    : (s: Scope)
    requires values.Keys == t.Keys && Admitted(hash, t, values, m) && n in m
    ensures s in t && NameOf(hash, t, s) == n && m[n] == values[s]
  {
    var s :| s in t && NameOf(hash, t, s) == n && m[n] == values[s]; s
  }

  ghost predicate Wins<V>(hash: string -> string, t: Table, values: map<Scope, V>, m: map<string, V>, keys: set<Key>)
    requires values.Keys == t.Keys && Admitted(hash, t, values, m) && keys in WSASets(t)
  {
    t[Winner(hash, t, values, m, NameOf(hash, t, Representative(t, keys)))].Keys == keys
  }

  // The groups that win are visited after all others.
  lemma WinnersLast<V>(hash: string -> string, t: Table, values: map<Scope, V>, m: map<string, V>)
    returns (all: seq<set<Key>>)
    requires values.Keys == t.Keys && Admitted(hash, t, values, m)
    ensures NoDuplicates(all) && Elements(all) == WSASets(t)
    ensures forall i :: 0 <= i < |all| ==> all[i] in WSASets(t)
    ensures forall i, j :: 0 <= i < j < |all| && Wins(hash, t, values, m, all[i]) ==> Wins(hash, t, values, m, all[j])
  {
    hide Wins, Admitted;
    var winners := set keys | keys in WSASets(t) && Wins(hash, t, values, m, keys);
    var losers := WSASets(t) - winners;
    var first := Listed(losers);
    var second := Listed(winners);
    all := first + second;
    forall i | 0 <= i < |all| ensures all[i] in WSASets(t) && (Wins(hash, t, values, m, all[i]) <==> i >= |first|) {
      if i < |first| {
        assert first[i] in Elements(first);
      } else {
        assert all[i] == second[i - |first|] && second[i - |first|] in Elements(second);
      }
    }
    ListedTogether(first, second);
  }

  lemma ListedTogether<T>(a: seq<T>, b: seq<T>)
    requires NoDuplicates(a) && NoDuplicates(b) && Elements(a) !! Elements(b)
    ensures NoDuplicates(a + b) && Elements(a + b) == Elements(a) + Elements(b)
  {
    forall i, j | 0 <= i < j < |a + b| ensures (a + b)[i] != (a + b)[j] {
      if i < |a| <= j { assert a[i] in Elements(a) && b[j - |a|] in Elements(b); }
    }
  }

  lemma RepresentativesAreOrder(t: Table, all: seq<set<Key>>, order: seq<Scope>)
    requires NoDuplicates(all) && |order| == |all| && forall i :: 0 <= i < |all| ==> order[i] in t
    requires forall i :: 0 <= i < |all| ==> t[order[i]].Keys == all[i]
    requires forall s :: s in t ==> t[s].Keys in all
    ensures IsOrder(t, order)
  {
    forall s | s in t ensures exists i :: 0 <= i < |order| && t[order[i]].Keys == t[s].Keys {
      var i :| 0 <= i < |all| && all[i] == t[s].Keys;
      assert t[order[i]].Keys == all[i];
    }
  }

  lemma OrderOf(t: Table, all: seq<set<Key>>) returns (order: seq<Scope>)
    requires NoDuplicates(all) && Elements(all) == WSASets(t)
    ensures IsOrder(t, order) && |order| == |all|
    ensures forall i :: 0 <= i < |all| ==> all[i] in WSASets(t)
    ensures forall i :: 0 <= i < |all| ==> t[order[i]].Keys == all[i] && order[i] == Representative(t, all[i])
  {
    hide Representative, IsOrder, NoDuplicates;
    forall i | 0 <= i < |all| ensures all[i] in WSASets(t) { assert all[i] in Elements(all); }
    forall s | s in t ensures t[s].Keys in all { assert t[s].Keys in Elements(all); }
    hide WSASets;
    order := seq(|all|, i requires 0 <= i < |all| => Representative(t, all[i]));
    RepresentativesAreOrder(t, all, order);
  }

  lemma AdmittedHasOrder<V>(hash: string -> string, t: Table, values: map<Scope, V>, m: map<string, V>)
    returns (order: seq<Scope>)
    requires Uniform(t, values) && Admitted(hash, t, values, m)
    ensures IsOrder(t, order) && Outcome(hash, t, values, order) == m
  {
    hide NameOf, Wins, Admitted, IsOrder, WSASets, Representative;
    var all := WinnersLast(hash, t, values, m);
    order := OrderOf(t, all);
    var names := NamesIn(hash, t, order);
    var vs := seq(|order|, i requires 0 <= i < |order| => values[order[i]]);
    OutcomeIsAdmitted(hash, t, values, order);
    forall n | n in m ensures n in After(names, vs) && After(names, vs)[n] == m[n] {
      var i := WinnerIsLast(hash, t, values, m, all, order, n);
      AfterIsLast(names, vs, i);
    }
    SameNames(hash, t, values, m, Outcome(hash, t, values, order));
  }

  lemma SameNames<V>(hash: string -> string, t: Table, values: map<Scope, V>, m: map<string, V>, n: map<string, V>)
    requires values.Keys == t.Keys && Admitted(hash, t, values, m) && Admitted(hash, t, values, n)
    ensures m.Keys == n.Keys
  {
    hide NameOf;
  }

  lemma WinnerIsLast<V>(hash: string -> string, t: Table, values: map<Scope, V>, m: map<string, V>,
                        all: seq<set<Key>>, order: seq<Scope>, n: string) returns (i: nat)
    requires Uniform(t, values) && Admitted(hash, t, values, m) && n in m
    requires NoDuplicates(all) && Elements(all) == WSASets(t) && IsOrder(t, order) && |order| == |all|
    requires forall j :: 0 <= j < |all| ==> all[j] in WSASets(t)
    requires forall j :: 0 <= j < |all| ==> t[order[j]].Keys == all[j] && order[j] == Representative(t, all[j])
    requires forall j, l :: 0 <= j < l < |all| && Wins(hash, t, values, m, all[j]) ==> Wins(hash, t, values, m, all[l])
    ensures i < |order| && NameOf(hash, t, order[i]) == n && values[order[i]] == m[n]
    ensures forall j :: i < j < |order| ==> NameOf(hash, t, order[j]) != n
  {
    hide NameOf, Admitted, IsOrder, Representative;
    var s := Winner(hash, t, values, m, n);
    assert t[s].Keys in Elements(all);
    i :| 0 <= i < |all| && all[i] == t[s].Keys;
    SameKeysSameName(hash, t, s, order[i]);
    assert Wins(hash, t, values, m, all[i]);
    forall j | i < j < |order| ensures NameOf(hash, t, order[j]) != n {
      assert Wins(hash, t, values, m, all[j]);
    }
  }

  // The outcomes of visiting the groups in all orders are exactly the maps admitted by the
  // contract of GenerateServiceAccountMappings.
  lemma AdmittedIffOutcome<V>(hash: string -> string, t: Table, values: map<Scope, V>, m: map<string, V>)
    requires Uniform(t, values)
    ensures Admitted(hash, t, values, m) <==> exists order :: IsOrder(t, order) && Outcome(hash, t, values, order) == m
  {
    UniformKeys(t, values);
    hide Uniform, Admitted, Outcome, IsOrder;
    if Admitted(hash, t, values, m) {
      var order := AdmittedHasOrder(hash, t, values, m);
    }
    if order :| IsOrder(t, order) && Outcome(hash, t, values, order) == m {
      OutcomeIsAdmitted(hash, t, values, order);
    }
  }

  // ---- The account-to-resources map and the accounts

  lemma TableIsUniform(rs: set<WSAResource>)
    requires ValidSet(rs)
    ensures Uniform(TableOf(rs), TableOf(rs))
  {
    hide WellFormed, TableOf;
    forall s, u | s in TableOf(rs) && u in TableOf(rs) && TableOf(rs)[s].Keys == TableOf(rs)[u].Keys
      ensures TableOf(rs)[s] == TableOf(rs)[u]
    {
      SameKeysSameEntry(rs, s, u);
    }
  }

  lemma SameKeysSameEntry(rs: set<WSAResource>, s: Scope, u: Scope)
    requires ValidSet(rs) && s in TableOf(rs) && u in TableOf(rs) && TableOf(rs)[s].Keys == TableOf(rs)[u].Keys
    ensures TableOf(rs)[s] == TableOf(rs)[u]
  {
    hide WellFormed, Covers;
  }

  // The maps that GenerateServiceAccountMappings can return are those of the orders.
  lemma MapIffOutcome(hash: string -> string, rs: set<WSAResource>, m: map<string, map<Key, WSAResource>>)
    requires ValidSet(rs)
    ensures var t := TableOf(rs);
      IsSAToWSAs(hash, t, t.Keys, m) <==> exists order :: IsOrder(t, order) && Outcome(hash, t, t, order) == m
  {
    hide WellFormed, TableOf, NameOf, Outcome, IsOrder, Uniform;
    TableIsUniform(rs);
    AdmittedIffOutcome(hash, TableOf(rs), TableOf(rs), m);
  }

  ghost function AccountValues(hash: string -> string, t: Table): map<Scope, ServiceAccount> {
    map s | s in t :: ServiceAccount(NameOf(hash, t, s), GroupDims(t, s))
  }

  lemma AccountsAreUniform(hash: string -> string, t: Table)
    ensures Uniform(t, AccountValues(hash, t))
  {
    hide NameOf;
    forall s, u | s in t && u in t && t[s].Keys == t[u].Keys
      ensures AccountValues(hash, t)[s] == AccountValues(hash, t)[u]
    {
      SameKeysSameName(hash, t, s, u);
    }
  }

  // Each list of accounts is that of some order.
  lemma AccountsHaveOrder(hash: string -> string, t: Table, accounts: seq<ServiceAccount>) returns (order: seq<Scope>)
    requires IsAccounts(hash, t, accounts)
    ensures IsOrder(t, order) && Elements(accounts) == Outcome(hash, t, AccountValues(hash, t), order).Values
  {
    hide IsAccounts, Admitted, Outcome, IsOrder, Uniform;
    var m := ByName(hash, t, accounts);
    AccountsAreUniform(hash, t);
    AccountsAdmitted(hash, t, accounts, m);
    order := AdmittedHasOrder(hash, t, AccountValues(hash, t), m);
  }

  // Each order gives a list of accounts: the values of its outcome, in any order.
  lemma OrderHasAccounts(hash: string -> string, t: Table, order: seq<Scope>, accounts: seq<ServiceAccount>)
    requires IsOrder(t, order) && NoDuplicates(accounts)
    requires Elements(accounts) == Outcome(hash, t, AccountValues(hash, t), order).Values
    ensures IsAccounts(hash, t, accounts)
  {
    hide NameOf, GroupDims, Outcome, IsOrder;
    var m := Outcome(hash, t, AccountValues(hash, t), order);
    OutcomeIsAdmitted(hash, t, AccountValues(hash, t), order);
    forall i | 0 <= i < |accounts|
      ensures accounts[i].name in m && m[accounts[i].name] == accounts[i] && IsGroupAccount(hash, t, accounts[i])
    {
      assert accounts[i] in Elements(accounts);
      var n :| n in m && m[n] == accounts[i];
      var s :| s in t && NameOf(hash, t, s) == n && m[n] == AccountValues(hash, t)[s];
    }
    hide IsGroupAccount;
    forall s | s in t ensures exists i :: 0 <= i < |accounts| && accounts[i].name == NameOf(hash, t, s) {
      assert m[NameOf(hash, t, s)] in Elements(accounts);
      var i :| 0 <= i < |accounts| && accounts[i] == m[NameOf(hash, t, s)];
      var u :| u in t && NameOf(hash, t, u) == NameOf(hash, t, s) && m[NameOf(hash, t, s)] == AccountValues(hash, t)[u];
      assert accounts[i].name == NameOf(hash, t, s);
    }
  }

  ghost function ByName(hash: string -> string, t: Table, accounts: seq<ServiceAccount>)
    : (m: map<string, ServiceAccount>)
    requires IsAccounts(hash, t, accounts)
    ensures m.Values == Elements(accounts)
  {
    hide NameOf, IsGroupAccount;
    var m := map a | a in accounts :: a.name := a;
    assert forall a :: a in accounts ==> a.name in m && m[a.name] == a;
    m
  }

  lemma AccountsHaveName(hash: string -> string, t: Table, accounts: seq<ServiceAccount>, s: Scope)
    requires IsAccounts(hash, t, accounts) && s in t
    ensures NameOf(hash, t, s) in ByName(hash, t, accounts)
  {
    hide NameOf, GroupDims, IsGroupAccount;
    var i :| 0 <= i < |accounts| && accounts[i].name == NameOf(hash, t, s);
    assert accounts[i] in accounts;
  }

  lemma AccountComesFrom(hash: string -> string, t: Table, accounts: seq<ServiceAccount>, n: string) returns (s: Scope)
    requires IsAccounts(hash, t, accounts) && n in ByName(hash, t, accounts)
    ensures s in t && NameOf(hash, t, s) == n && ByName(hash, t, accounts)[n] == AccountValues(hash, t)[s]
  {
    hide NameOf, GroupDims;
    var a := ByName(hash, t, accounts)[n];
    assert a.name == n && IsGroupAccount(hash, t, a);
    s :| s in t && a == ServiceAccount(NameOf(hash, t, s), GroupDims(t, s));
  }

  lemma AccountsAdmitted(hash: string -> string, t: Table, accounts: seq<ServiceAccount>,
                         m: map<string, ServiceAccount>)
    requires IsAccounts(hash, t, accounts)
    requires m == ByName(hash, t, accounts)
    ensures Admitted(hash, t, AccountValues(hash, t), m)
  {
    hide NameOf, IsAccounts, ByName;
    assert AccountValues(hash, t).Keys == t.Keys;
    hide AccountValues;
    forall s | s in t ensures NameOf(hash, t, s) in m {
      AccountsHaveName(hash, t, accounts, s);
    }
    forall n | n in m ensures exists s :: s in t && NameOf(hash, t, s) == n && m[n] == AccountValues(hash, t)[s] {
      var s := AccountComesFrom(hash, t, accounts, n);
    }
  }

  // ---- When the order does not matter

  ghost predicate Determined<V>(hash: string -> string, t: Table, values: map<Scope, V>)
    requires values.Keys == t.Keys
  {
    forall o, p :: IsOrder(t, o) && IsOrder(t, p) ==> Outcome(hash, t, values, o) == Outcome(hash, t, values, p)
  }

  // Groups with one name have one value.
  ghost predicate OneValuePerName<V>(hash: string -> string, t: Table, values: map<Scope, V>)
    requires values.Keys == t.Keys
  {
    forall s, u :: s in t && u in t && NameOf(hash, t, s) == NameOf(hash, t, u) ==> values[s] == values[u]
  }

  // The scope of name n whose group is visited last; s is one of them.
  ghost function Last(hash: string -> string, t: Table, s: Scope, n: string): (u: Scope)
    requires s in t && exists v :: v in t && NameOf(hash, t, v) == n
    ensures u in t && NameOf(hash, t, u) == n
    ensures n == NameOf(hash, t, s) ==> u == s
  {
    if n == NameOf(hash, t, s) then s else var u :| u in t && NameOf(hash, t, u) == n; u
  }

  // For every group there is an order in which it is the last of its name.
  lemma VisitedLast<V>(hash: string -> string, t: Table, values: map<Scope, V>, s: Scope) returns (order: seq<Scope>)
    requires Uniform(t, values) && s in t
    ensures IsOrder(t, order)
    ensures NameOf(hash, t, s) in Outcome(hash, t, values, order)
    ensures Outcome(hash, t, values, order)[NameOf(hash, t, s)] == values[s]
  {
    hide NameOf, Outcome, IsOrder;
    var names := set u | u in t :: NameOf(hash, t, u);
    var m := map n | n in names :: values[Last(hash, t, s, n)];
    order := AdmittedHasOrder(hash, t, values, m);
  }

  lemma DeterminedIffOneValue<V>(hash: string -> string, t: Table, values: map<Scope, V>)
    requires Uniform(t, values)
    ensures Determined(hash, t, values) <==> OneValuePerName(hash, t, values)
  {
    hide NameOf, Outcome, IsOrder, Uniform;
    assert values.Keys == t.Keys by { UniformKeys(t, values); }
    if OneValuePerName(hash, t, values) {
      forall o, p | IsOrder(t, o) && IsOrder(t, p) ensures Outcome(hash, t, values, o) == Outcome(hash, t, values, p) {
        OutcomeIsAdmitted(hash, t, values, o);
        OutcomeIsAdmitted(hash, t, values, p);
        AdmittedAgree(hash, t, values, Outcome(hash, t, values, o), Outcome(hash, t, values, p));
      }
    }
    if Determined(hash, t, values) {
      forall s, u | s in t && u in t && NameOf(hash, t, s) == NameOf(hash, t, u) ensures values[s] == values[u] {
        var o := VisitedLast(hash, t, values, s);
        var p := VisitedLast(hash, t, values, u);
      }
    }
  }

  lemma AdmittedAgree<V>(hash: string -> string, t: Table, values: map<Scope, V>, m: map<string, V>, n: map<string, V>)
    requires values.Keys == t.Keys && OneValuePerName(hash, t, values)
    requires Admitted(hash, t, values, m) && Admitted(hash, t, values, n)
    ensures m == n
  {
    hide NameOf;
    SameNames(hash, t, values, m, n);
    forall x | x in m ensures m[x] == n[x] {
      var s :| s in t && NameOf(hash, t, s) == x && m[x] == values[s];
      var u :| u in t && NameOf(hash, t, u) == x && n[x] == values[u];
    }
  }

  // All orders give one account-to-resources map iff groups have distinct names.
  lemma MapDeterminedIffDistinctNames(hash: string -> string, rs: set<WSAResource>)
    requires ValidSet(rs)
    ensures Determined(hash, TableOf(rs), TableOf(rs)) <==> DistinctNames(hash, TableOf(rs))
  {
    hide WellFormed, TableOf, NameOf, Determined, Uniform;
    var t := TableOf(rs);
    TableIsUniform(rs);
    DeterminedIffOneValue(hash, t, t);
    if DistinctNames(hash, t) {
      forall s, u | s in t && u in t && NameOf(hash, t, s) == NameOf(hash, t, u) ensures t[s] == t[u] {
        SameKeysSameEntry(rs, s, u);
      }
    }
  }

  // All orders give one set of accounts, with their labels, iff the hash does not collide
  // on the table's canonical strings.
  lemma AccountsDeterminedIffCollisionFree(hash: string -> string, rs: set<WSAResource>)
    requires ValidSet(rs)
    ensures Determined(hash, TableOf(rs), AccountValues(hash, TableOf(rs))) <==> CollisionFree(hash, TableOf(rs))
  {
    hide WellFormed, TableOf, GroupDims, Canonical, Determined, Uniform;
    var t, values := TableOf(rs), AccountValues(hash, TableOf(rs));
    AccountsAreUniform(hash, t);
    DeterminedIffOneValue(hash, t, values);
    if CollisionFree(hash, t) {
      hide NameOf, CollisionFree;
      forall s, u | s in t && u in t && NameOf(hash, t, s) == NameOf(hash, t, u) ensures values[s] == values[u] {
        SameNameSameValues(hash, rs, s, u);
      }
    }
    if OneValuePerName(hash, t, values) {
      forall s, u | s in t && u in t && hash(Canonical(GroupDims(t, s))) == hash(Canonical(GroupDims(t, u)))
        ensures Canonical(GroupDims(t, s)) == Canonical(GroupDims(t, u))
      {
        assert values[s] == values[u];
      }
    }
  }

  // ---- Resources that the account-to-resources map loses

  // Every group of that name holds k.
  ghost predicate Owns(hash: string -> string, t: Table, n: string, k: Key) {
    && (exists s :: s in t && NameOf(hash, t, s) == n)
    && (forall s :: s in t && NameOf(hash, t, s) == n ==> k in t[s])
  }

  ghost predicate AlwaysInMaps(hash: string -> string, t: Table, k: Key) {
    forall order :: IsOrder(t, order) ==> InMaps(Outcome(hash, t, t, order), k)
  }

  // Without distinct names the group visited last wins, and a live resource can be missing
  // from the map. It is there in all orders iff some name is its own.
  lemma AlwaysInMapsIffOwnName(hash: string -> string, t: Table, k: Key)
    requires Uniform(t, t)
    ensures AlwaysInMaps(hash, t, k) <==> exists n :: Owns(hash, t, n, k)
  {
    hide NameOf, Outcome, IsOrder, Uniform;
    if n :| Owns(hash, t, n, k) {
      forall order | IsOrder(t, order) ensures InMaps(Outcome(hash, t, t, order), k) {
        var m := Outcome(hash, t, t, order);
        OutcomeIsAdmitted(hash, t, t, order);
        var s :| s in t && NameOf(hash, t, s) == n;
        assert n in m;
      }
    } else {
      var order := Adverse(hash, t, k);
      assert !InMaps(Outcome(hash, t, t, order), k);
    }
  }

  // An order in which every shared name goes to a group without k.
  lemma Adverse(hash: string -> string, t: Table, k: Key) returns (order: seq<Scope>)
    requires Uniform(t, t) && forall n :: !Owns(hash, t, n, k)
    ensures IsOrder(t, order) && !InMaps(Outcome(hash, t, t, order), k)
  {
    hide NameOf, Outcome, IsOrder;
    var names := set s | s in t :: NameOf(hash, t, s);
    forall n | n in names ensures exists s :: s in t && NameOf(hash, t, s) == n && k !in t[s] {
      assert !Owns(hash, t, n, k);
    }
    var m := map n | n in names :: var s :| s in t && NameOf(hash, t, s) == n && k !in t[s]; t[s];
    order := AdmittedHasOrder(hash, t, t, m);
  }

  // It happens: the narrow resource of the pair can be missing.
  lemma PairCanBeLost(hash: string -> string, ms: set<Dim>)
    requires |ms| >= 2
    ensures ValidSet(Pair(ms)) && Narrow(ms) in Pair(ms)
    ensures !AlwaysInMaps(hash, TableOf(Pair(ms)), Narrow(ms).GetKey())
  {
    hide NameOf, TableOf, WellFormed, AlwaysInMaps, Uniform;
    var rs, t, k := Pair(ms), TableOf(Pair(ms)), Narrow(ms).GetKey();
    PairIsValid(ms);
    TableIsUniform(rs);
    AlwaysInMapsIffOwnName(hash, t, k);
    PairSharesName(hash, ms);
    forall n ensures !Owns(hash, t, n, k) {
      if Owns(hash, t, n, k) {
        var s :| s in t && NameOf(hash, t, s) == n;
        OpenIsEverywhere(ms, s);
        SameKeysSameName(hash, t, s, ScopeOn(ms));
      }
    }
  }
}
