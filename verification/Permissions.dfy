// What the accounts of pods may do after a successful batch: the rules that their roles hold,
// for namespaced and cluster-scoped resources.
module Permissions {
  import opened Text
  import opened Scopes
  import opened Generator
  import opened Mappings
  import opened Lookups
  import opened Cluster
  import opened Engine
  import opened ResourceManagement
  import opened Execution
  import opened EndToEnd

  // ---- The rules that a role holds

  // The hash tells the rules of two resources of one namespace apart.
  ghost predicate PermissionsApart(hash: string -> string, rs: set<WSAResource>) {
    forall w, x ::
      w in rs && x in rs && w.Namespaced? == x.Namespaced? && w.GetNamespace() == x.GetNamespace()
      && w.permissions != [] && x.permissions != []
      && hash("[" + Join(w.permissions, ' ') + "]") == hash("[" + Join(x.permissions, ' ') + "]")
      ==> w.permissions == x.permissions
  }

  // A rule is printed as a struct.
  predicate ClosedRule(rule: string) {
    rule != "" && rule[|rule| - 1] == '}' && '}' !in rule[..|rule| - 1]
  }

  lemma {:induction false} ClosedJoinInjective(a: seq<string>, b: seq<string>)
    requires forall r :: r in a || r in b ==> ClosedRule(r)
    requires Join(a, ' ') == Join(b, ' ')
    ensures a == b
  {
    if a == [] || b == [] {
      JoinOfClosed(a);
      JoinOfClosed(b);
    } else {
      var s := Join(a, ' ');
      JoinOfClosed(a);
      JoinOfClosed(b);
      IndexOfUnique(s, '}', |a[0]| - 1);
      IndexOfUnique(s, '}', |b[0]| - 1);
      assert a[0] == s[..|a[0]|] && b[0] == s[..|b[0]|];
      assert |a| == 1 <==> |s| == |a[0]|;
      if |a| > 1 {
        assert Join(a[1..], ' ') == s[|a[0]| + 1..] && Join(b[1..], ' ') == s[|b[0]| + 1..];
        ClosedJoinInjective(a[1..], b[1..]);
      }
      assert a == [a[0]] + a[1..] && b == [b[0]] + b[1..];
    }
  }

  lemma JoinOfClosed(a: seq<string>)
    requires forall r :: r in a ==> ClosedRule(r)
    ensures a != [] ==>
      && ClosedRule(a[0]) && |a[0]| <= |Join(a, ' ')| && Join(a, ' ')[..|a[0]|] == a[0]
      && (|a| > 1 ==> |Join(a, ' ')| > |a[0]| && Join(a, ' ')[|a[0]| + 1..] == Join(a[1..], ' '))
      && (|a| == 1 ==> Join(a, ' ') == a[0])
    ensures a == [] ==> Join(a, ' ') == ""
  {
    if |a| > 1 {
      assert Join(a, ' ') == a[0] + [' '] + Join(a[1..], ' ');
    }
  }

  // Rules that are printed as structs are told apart by a hash that does not collide on the
  // printed lists.
  lemma ClosedRulesApart(hash: string -> string, rs: set<WSAResource>)
    requires forall w, r :: w in rs && r in w.permissions ==> ClosedRule(r)
    requires forall w, x ::
      w in rs && x in rs
      && hash("[" + Join(w.permissions, ' ') + "]") == hash("[" + Join(x.permissions, ' ') + "]")
      ==> "[" + Join(w.permissions, ' ') + "]" == "[" + Join(x.permissions, ' ') + "]"
    ensures PermissionsApart(hash, rs)
  {
    hide Join, ClosedRule;
    forall w, x | w in rs && x in rs
      && hash("[" + Join(w.permissions, ' ') + "]") == hash("[" + Join(x.permissions, ' ') + "]")
      ensures w.permissions == x.permissions
    {
      var a, b := Join(w.permissions, ' '), Join(x.permissions, ' ');
      assert ("[" + a + "]")[1..|a| + 1] == a && ("[" + b + "]")[1..|b| + 1] == b;
      ClosedJoinInjective(w.permissions, x.permissions);
    }
  }

  // Each resource's role holds that resource's rules.
  ghost predicate RulesExact(hash: string -> string, rs: set<WSAResource>, roles: RoleObjects,
                             clusterRoles: RoleObjects)
  {
    forall w :: w in rs && w.permissions != [] ==>
      var objects := if w.Namespaced? then roles else clusterRoles;
      RoleKey(hash, w) in objects && objects[RoleKey(hash, w)] == Object(true, w.permissions)
  }

  lemma SameRoleKey(hash: string -> string, w: WSAResource, x: WSAResource)
    requires w.Namespaced? == x.Namespaced?
    ensures RoleKey(hash, w) == RoleKey(hash, x) <==>
      && w.GetNamespace() == x.GetNamespace()
      && hash("[" + Join(w.permissions, ' ') + "]") == hash("[" + Join(x.permissions, ' ') + "]")
  {
    hide Join;
    var prefix := if w.Namespaced? then "octopus-role-" else "octopus-clusterrole-";
    assert InlineRef(hash, w).name[|prefix|..] == hash("[" + Join(w.permissions, ' ') + "]");
    assert InlineRef(hash, x).name[|prefix|..] == hash("[" + Join(x.permissions, ' ') + "]");
  }

  // Where the roles have been made, each holds the rules of its resource iff the hash tells
  // the rules apart: otherwise one of two resources has those of the other.
  lemma RulesExactIffApart(hash: string -> string, rs: set<WSAResource>, roles: RoleObjects, clusterRoles: RoleObjects)
    requires RolesMade(hash, rs, NO_FAILURES, rs, roles, clusterRoles)
    ensures RulesExact(hash, rs, roles, clusterRoles) <==> PermissionsApart(hash, rs)
  {
    hide Join, RoleKey;
    if PermissionsApart(hash, rs) {
      forall w | w in rs && w.permissions != []
        ensures var objects := if w.Namespaced? then roles else clusterRoles;
                RoleKey(hash, w) in objects && objects[RoleKey(hash, w)] == Object(true, w.permissions)
      {
        var o := (if w.Namespaced? then roles else clusterRoles)[RoleKey(hash, w)];
        var x :| x in rs && x.Namespaced? == w.Namespaced? && x.permissions != []
                 && RoleKey(hash, x) == RoleKey(hash, w) && o.value == x.permissions;
        SameRoleKey(hash, w, x);
      }
    }
    if RulesExact(hash, rs, roles, clusterRoles) {
      forall w, x | w in rs && x in rs && w.Namespaced? == x.Namespaced? && w.GetNamespace() == x.GetNamespace()
        && w.permissions != [] && x.permissions != []
        && hash("[" + Join(w.permissions, ' ') + "]") == hash("[" + Join(x.permissions, ' ') + "]")
        ensures w.permissions == x.permissions
      {
        SameRoleKey(hash, w, x);
      }
    }
  }

  // ---- What a pod's account has

  // The account that a matched pod is given exists in every target namespace.
  lemma AnswerExists(hash: string -> string, rs: set<WSAResource>, plan: Plan, c: Cluster, pod: Scope, ns: string)
    requires IsPlanFor(hash, rs, plan) && Reconciled(hash, plan, c)
    requires ns in plan.targetNamespaces && Matching(rs, pod) != {}
    ensures DistinctKeys(rs)
    ensures var k := Key(ns, Answer(hash, rs, pod));
      && k in c.serviceAccounts.objects && c.serviceAccounts.objects[k].managed
      && IsGroupAccount(hash, TableOf(rs), c.serviceAccounts.objects[k].value)
      && c.serviceAccounts.objects[k].value.name == Answer(hash, rs, pod)
  {
    hide NameOf, GroupDims, TableOf, WellFormed, Matches, BindingsExact, ClusterBindingsMade, RolesMade, RolesNeeded,
         ClusterBindingsNeeded, IsWSAToSAs, IsSAToWSAs, IsGroupAccount;
    TableRefinesMatching(rs, pod);
    var t, known := TableOf(rs), GetKnownScopeCombination(VocabularyOf(rs), pod);
    var n := NameOf(hash, t, known);
    assert Answer(hash, rs, pod) == n;
    var i :| 0 <= i < |plan.accounts| && plan.accounts[i].name == n;
    assert plan.accounts[i] in plan.accounts && ns in Elements(plan.targetNamespaces);
    assert Key(ns, n) in AccountKeys(plan.accounts, Elements(plan.targetNamespaces));
    assert Key(ns, n) in c.serviceAccounts.Managed();
  }

  // A managed binding in the namespace, of the role to the subject.
  ghost predicate BindsIn(objects: Bindings, k: Key, namespace: string, f: RoleRef, subject: Key) {
    && k in objects && objects[k].managed && k.namespace == namespace
    && objects[k].value.roleRef == f && subject in objects[k].value.subjects
  }

  // Every role of every matching resource, of either kind, is bound to the pod's account: in
  // the resource's namespace, or in the whole cluster.
  lemma MatchedPodIsBound(hash: string -> string, rs: set<WSAResource>, plan: Plan, c: Cluster,
                          pod: Scope, ns: string, w: WSAResource, f: RoleRef)
    requires IsPlanFor(hash, rs, plan) && Reconciled(hash, plan, c) && BindingsApart(hash, rs, w.Namespaced?)
    requires ns in plan.targetNamespaces && w in rs && Matches(w, pod) && f in RolesOf(hash, w)
    ensures DistinctKeys(rs)
    ensures var subject := Key(ns, Answer(hash, rs, pod));
      if w.Namespaced? then exists k :: BindsIn(c.roleBindings.objects, k, w.namespace, f, subject)
      else exists k :: BindsIn(c.clusterRoleBindings.objects, k, "", f, subject)
  {
    hide IsPlanFor, Refs, RolesOf, Answer, NamesFor, TableOf, WellFormed, Matches, ExpectedBindings, RolesMade,
         BindingsApart, RolesNeeded, ClusterBindingsNeeded, RoleBindingName, ClusterRoleBindingName;
    var env := EnvOf(hash, plan);
    var part, objects := Part(env, w.Namespaced?), BindingsOf(c).Of(w);
    var k := BindingKey(hash, w, f);
    PlanIsValid(hash, rs, plan);
    PlanResources(hash, rs, plan);
    RefsByField(hash, w);
    NamesOfPlan(hash, rs, plan, w);
    NeverUnderGrants(hash, rs, pod, w);
    assert part.Bound(w, f, objects);
    var x, g :| x in part.resources && g in Refs(hash, x) && BindingKey(hash, x, g) == k
                && part.IsBindingOf(x, g, objects[k]);
    SharedBindingIsOwn(hash, rs, w, x, f);
    assert Key(ns, Answer(hash, rs, pod)) in Elements(objects[k].value.subjects);
    assert BindsIn(objects, k, w.GetNamespace(), f, Key(ns, Answer(hash, rs, pod)));
  }

  // So every matched pod may do what the resource's inline rules say: its account is bound
  // to a role there that holds them.
  lemma MatchedPodHasRules(hash: string -> string, rs: set<WSAResource>, plan: Plan, c: Cluster,
                           pod: Scope, ns: string, w: WSAResource)
    requires IsPlanFor(hash, rs, plan) && Reconciled(hash, plan, c)
    requires BindingsApart(hash, rs, w.Namespaced?) && PermissionsApart(hash, rs)
    requires ns in plan.targetNamespaces && w in rs && Matches(w, pod) && w.permissions != []
    ensures DistinctKeys(rs)
    ensures var subject := Key(ns, Answer(hash, rs, pod));
      if w.Namespaced? then
        exists k, n :: BindsIn(c.roleBindings.objects, k, w.namespace, RoleRef("Role", n), subject)
                       && Key(w.namespace, n) in c.roles.objects
                       && c.roles.objects[Key(w.namespace, n)] == Object(true, w.permissions)
      else
        exists k, n :: BindsIn(c.clusterRoleBindings.objects, k, "", RoleRef("ClusterRole", n), subject)
                       && Key("", n) in c.clusterRoles.objects
                       && c.clusterRoles.objects[Key("", n)] == Object(true, w.permissions)
  {
    hide IsPlanFor, Answer, Matches, BindingsApart, PermissionsApart, BindsIn, BindingsExact, ClusterBindingsMade,
         RolesMade, RolesNeeded, ClusterBindingsNeeded, RoleName, ClusterRoleName, DistinctKeys;
    PlanResources(hash, rs, plan);
    RulesExactIffApart(hash, rs, c.roles.objects, c.clusterRoles.objects);
    var f := InlineRef(hash, w);
    assert f in RolesOf(hash, w);
    MatchedPodIsBound(hash, rs, plan, c, pod, ns, w, f);
    assert RoleKey(hash, w) == Key(w.GetNamespace(), f.name);
  }

  // With distinct grants that is all: a pod's account is bound to a role in a namespace iff
  // a resource of that namespace that matches the pod asks for the role.
  lemma BoundIffAskedFor(hash: string -> string, rs: set<WSAResource>, plan: Plan, rbs: Bindings,
                         pod: Scope, ns: string, namespace: string, f: RoleRef)
    requires IsPlanFor(hash, rs, plan) && BindingsExact(EnvOf(hash, plan), rbs) && BindingsApart(hash, rs, true)
    requires DistinctKeys(rs) && DistinctGrants(hash, rs) && ns in plan.targetNamespaces
    ensures (exists k :: BindsIn(rbs, k, namespace, f, Key(ns, Answer(hash, rs, pod)))) <==>
      exists w :: w in rs && w.Namespaced? && w.namespace == namespace && Matches(w, pod) && f in RolesOf(hash, w)
  {
    hide IsPlanFor, Answer, Matches, BindingsApart, BindingsExact, DistinctKeys, DistinctGrants, RolesOf, TableOf;
    ExactIffDistinctGrants(hash, rs, plan, rbs);
    var subject := Key(ns, Answer(hash, rs, pod));
    assert Held(rbs, subject) == Deserved(hash, rs, pod);
    if k :| BindsIn(rbs, k, namespace, f, subject) {
      assert GrantAt(k, f) in Deserved(hash, rs, pod);
    }
    if w :| w in rs && w.Namespaced? && w.namespace == namespace && Matches(w, pod) && f in RolesOf(hash, w) {
      var g := Grant(w.namespace, RoleBindingName(hash, w.name, f.name), f);
      assert g in Deserved(hash, rs, pod);
      assert g in Held(rbs, subject);
      var k :| k in rbs && rbs[k].managed && subject in rbs[k].value.subjects && GrantAt(k, rbs[k].value.roleRef) == g;
      assert BindsIn(rbs, k, namespace, f, subject);
    }
  }
}
