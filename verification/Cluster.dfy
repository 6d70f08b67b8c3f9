// The API server, as far as the controller sees it: named objects that can be listed,
// applied and deleted by calls that may fail.
module Cluster {
  import opened Scopes
  import opened Mappings

  datatype Option<T> = None | Some(value: T)

  // An object and whether it carries the managed-by label.
  datatype Object<V> = Object(managed: bool, value: V)

  // The calls that have reported an error, for the contracts: whatever is not done because
  // of an error must be done.
  datatype Call = ListCall | ObjectCall(key: Key)

  ghost predicate Extended(before: seq<Call>, after: seq<Call>) { before <= after }

  // The objects whose calls have failed in between.
  ghost function Failed(before: seq<Call>, after: seq<Call>): set<Key>
    requires Extended(before, after)
  {
    set c | c in after[|before|..] && c.ObjectCall? :: c.key
  }

  lemma FailedGrows(a: seq<Call>, b: seq<Call>, c: seq<Call>)
    requires Extended(a, b) && Extended(b, c)
    ensures Extended(a, c) && Failed(a, b) <= Failed(a, c) && Failed(b, c) <= Failed(a, c)
    ensures a == c <==> a == b && b == c
  {
    forall i | 0 <= i < |b| - |a| ensures b[|a|..][i] == c[|a|..][i] {}
    forall i | 0 <= i < |c| - |b| ensures c[|b|..][i] == c[|a|..][i + |b| - |a|] {}
  }

  lemma NothingFailed(a: seq<Call>)
    ensures Extended(a, a) && Failed(a, a) == {}
  {}

  lemma SameLength(a: seq<Call>, b: seq<Call>)
    requires Extended(a, b) && |a| == |b|
    ensures a == b
  {}

  lemma FailedCall(a: seq<Call>, k: Key)
    ensures Extended(a, a + [ObjectCall(k)]) && Failed(a, a + [ObjectCall(k)]) == {k}
  {
    assert (a + [ObjectCall(k)])[|a|..] == [ObjectCall(k)];
  }

  type Bindings = map<Key, Object<Binding>>

  type AccountObjects = map<Key, Object<ServiceAccount>>

  // The rules of roles and cluster roles.
  type RoleObjects = map<Key, Object<seq<string>>>

  // Objects of one kind. Cluster-scoped kinds use the empty namespace.
  class Store<V> {
    var objects: map<Key, Object<V>>
    ghost var errors: seq<Call>
    ghost var refusals: nat    // how many of the errors were refused changes of a role
    ghost var listings: nat    // how often the managed objects have been listed

    ghost function Managed(): set<Key>
      reads this
    {
      set k | k in objects && objects[k].managed
    }

    // Server-side apply with forced ownership sets the label; a call that reports an
    // error may have taken effect or not.
    method Apply(k: Key, value: V) returns (ok: bool)
      modifies `objects, `errors
      ensures objects == old(objects)[k := Object(true, value)] || (!ok && objects == old(objects))
      ensures errors == if ok then old(errors) else old(errors) + [ObjectCall(k)]
    {
      if * {
        objects := objects[k := Object(true, value)];
        ok := *;
      } else {
        ok := false;
      }
      if !ok { errors := errors + [ObjectCall(k)]; }
    }

    // Deleting an object that is already gone is a success.
    method Delete(k: Key) returns (ok: bool)
      modifies `objects, `errors
      ensures objects == old(objects) - {k} || (!ok && objects == old(objects))
      ensures errors == if ok then old(errors) else old(errors) + [ObjectCall(k)]
    {
      if * {
        objects := objects - {k};
        ok := *;
      } else {
        ok := false;
      }
      if !ok { errors := errors + [ObjectCall(k)]; }
    }

    method ListManaged() returns (ok: bool, keys: set<Key>)
      modifies `errors, `listings
      ensures ok ==> keys == Managed()
      ensures errors == if ok then old(errors) else old(errors) + [ListCall]
      ensures listings == old(listings) + 1
    {
      listings := listings + 1;
      if * {
        errors := errors + [ListCall];
        return false, {};
      }
      ok, keys := true, set k | k in objects && objects[k].managed;
    }
  }

  // A WorkloadServiceAccount or ClusterWorkloadServiceAccount object.
  datatype Workload = Workload(resource: WSAResource, deleting: bool, finalizer: bool)

  // owner: the resource that the owner reference points to.
  datatype Binding = Binding(roleRef: RoleRef, subjects: seq<Key>, owner: Option<Key>)

  // The API server refuses to change the role of an existing binding.
  method ApplyBinding(store: Store<Binding>, k: Key, b: Binding) returns (ok: bool)
    modifies store`objects, store`errors, store`refusals
    ensures store.objects == old(store.objects)[k := Object(true, b)] || (!ok && store.objects == old(store.objects))
    ensures store.errors == if ok then old(store.errors) else old(store.errors) + [ObjectCall(k)]
    ensures var refused := k in old(store.objects) && old(store.objects)[k].value.roleRef != b.roleRef;
      && store.refusals == old(store.refusals) + (if refused then 1 else 0)
      && (refused ==> !ok && store.objects == old(store.objects))
  {
    if k in store.objects && store.objects[k].value.roleRef != b.roleRef {
      store.errors := store.errors + [ObjectCall(k)];
      store.refusals := store.refusals + 1;
      return false;
    }
    ok := store.Apply(k, b);
  }

  type Workloads = map<Key, Workload>

  // What the API server guarantees: objects are stored under their own key and have
  // passed the CRD's validation.
  ghost predicate ValidWorkloads(ws: Workloads) {
    forall k :: k in ws ==>
      && k.name == ws[k].resource.name
      && k.namespace == (if ws[k].resource.Namespaced? then ws[k].resource.namespace else "")
      && WellFormed(ws[k].resource)
  }

  // The resources that are not being deleted.
  ghost function Live(ws: Workloads): set<WSAResource> {
    set k | k in ws && !ws[k].deleting :: ws[k].resource
  }

  lemma LiveIsValid(ws: Workloads)
    requires ValidWorkloads(ws)
    ensures ValidSet(Live(ws))
  {}

  class Cluster {
    var workloads: Workloads
    var namespaces: set<string>
    var agents: set<string>  // namespaces with a deployment of the agent
    ghost var errors: nat    // how many calls about workloads, namespaces and single objects have failed
    ghost var logged: nat    // how many more have failed and were only logged
    const serviceAccounts: Store<ServiceAccount>
    const roles: Store<seq<string>>
    const clusterRoles: Store<seq<string>>
    const roleBindings: Store<Binding>
    const clusterRoleBindings: Store<Binding>

    constructor ()
      ensures Separate() && workloads == map[]
    {
      workloads, namespaces, agents, errors, logged := map[], {}, {}, 0, 0;
      serviceAccounts := new Store<ServiceAccount>;
      roles := new Store<seq<string>>;
      clusterRoles := new Store<seq<string>>;
      roleBindings := new Store<Binding>;
      clusterRoleBindings := new Store<Binding>;
    }

    ghost predicate Separate() {
      && roles != clusterRoles && roleBindings != clusterRoleBindings
      && (serviceAccounts as object) !in {this, roles, clusterRoles, roleBindings, clusterRoleBindings}
      && (roles as object) !in {this, roleBindings, clusterRoleBindings}
      && (clusterRoles as object) !in {this, roleBindings, clusterRoleBindings}
      && (roleBindings as object) != this && (clusterRoleBindings as object) != this
    }

    // The calls about the controller's own objects that have failed.
    ghost function ErrorLog(): seq<seq<Call>>
      reads serviceAccounts, roles, clusterRoles, roleBindings, clusterRoleBindings
    {
      [serviceAccounts.errors, roles.errors, clusterRoles.errors, roleBindings.errors, clusterRoleBindings.errors]
    }

    // The failures that were not refusals. Only bindings have roles.
    ghost function OtherErrors(): (seq<Call>, seq<Call>, seq<Call>, int, int)
      reads serviceAccounts, roles, clusterRoles, roleBindings, clusterRoleBindings
    {
      (serviceAccounts.errors, roles.errors, clusterRoles.errors,
       |roleBindings.errors| - roleBindings.refusals, |clusterRoleBindings.errors| - clusterRoleBindings.refusals)
    }

    // How often each kind that is collected has been listed.
    ghost function Listings(): seq<nat>
      reads serviceAccounts, roles, roleBindings, clusterRoleBindings
    {
      [serviceAccounts.listings, roles.listings, roleBindings.listings, clusterRoleBindings.listings]
    }

    // The objects of one of the two kinds, in any order.
    method ListWorkloads(namespaced: bool) returns (ok: bool, items: seq<Workload>)
      modifies `errors
      ensures errors == if ok then old(errors) else old(errors) + 1
      ensures ok ==> Elements(items) == set k | k in workloads && workloads[k].resource.Namespaced? == namespaced
                                          :: workloads[k]
    {
      if * {
        errors := errors + 1;
        return false, [];
      }
      ok, items := true, [];
      var kind := set k | k in workloads && workloads[k].resource.Namespaced? == namespaced;
      var todo := kind;
      while todo != {}
        invariant todo <= kind
        invariant Elements(items) == set k | k in kind - todo :: workloads[k]
      {
        var k :| k in todo;
        todo := todo - {k};
        assert Elements(items + [workloads[k]]) == Elements(items) + {workloads[k]};
        items := items + [workloads[k]];
      }
    }

    // getAllResources and the listing half of computeStateFromCluster.
    method GetAllResources() returns (ok: bool, all: seq<WSAResource>)
      modifies `errors
      ensures errors == if ok then old(errors) else old(errors) + 1
      ensures ok ==> Elements(all) == set k | k in workloads && !workloads[k].deleting :: workloads[k].resource
    {
      all := [];
      var namespaced, clusterWide;
      ok, namespaced := ListWorkloads(true);
      if !ok { return; }
      all := AppendLive(all, namespaced);
      ok, clusterWide := ListWorkloads(false);
      if !ok { return; }
      all := AppendLive(all, clusterWide);
      assert Elements(namespaced) + Elements(clusterWide) == set k | k in workloads :: workloads[k];
    }
  }

  method AppendLive(resources: seq<WSAResource>, items: seq<Workload>) returns (all: seq<WSAResource>)
    ensures Elements(all) == Elements(resources) + set w | w in Elements(items) && !w.deleting :: w.resource
  {
    all := resources;
    for i := 0 to |items|
      invariant Elements(all) == Elements(resources) + set w | w in Elements(items[..i]) && !w.deleting :: w.resource
    {
      assert Elements(items[..i+1]) == Elements(items[..i]) + {items[i]};
      if !items[i].deleting {
        assert Elements(all + [items[i].resource]) == Elements(all) + {items[i].resource};
        all := all + [items[i].resource];
      }
    }
    assert items[..|items|] == items;
  }
}
