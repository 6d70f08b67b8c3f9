// internal/rules/resource_management.go: what a plan makes of the cluster.
module ResourceManagement {
  import opened Text
  import opened Scopes
  import opened Mappings
  import opened Cluster

  // ---- Names

  // A list of rules printed with %+v.
  function Render(permissions: seq<string>): string {
    "[" + Join(permissions, ' ') + "]"
  }

  function RoleName(hash: string -> string, permissions: seq<string>): string {
    "octopus-role-" + hash(Render(permissions))
  }

  function ClusterRoleName(hash: string -> string, permissions: seq<string>): string {
    "octopus-clusterrole-" + hash(Render(permissions))
  }

  function RoleBindingName(hash: string -> string, resource: string, role: string): string {
    "octopus-rb-" + hash(resource + "-" + role)
  }

  function ClusterRoleBindingName(hash: string -> string, resource: string, role: string): string {
    "octopus-crb-" + hash(resource + "-" + role)
  }

  // The role made for inline permissions.
  function InlineRef(hash: string -> string, w: WSAResource): RoleRef {
    if w.Namespaced? then RoleRef("Role", RoleName(hash, w.permissions))
    else RoleRef("ClusterRole", ClusterRoleName(hash, w.permissions))
  }

  function RoleKey(hash: string -> string, w: WSAResource): Key {
    Key(w.GetNamespace(), InlineRef(hash, w).name)
  }

  // All roles a resource is to be bound to.
  function Refs(hash: string -> string, w: WSAResource): seq<RoleRef> {
    w.GetRoles() + (if w.permissions == [] then [] else [InlineRef(hash, w)]) + w.clusterRoles
  }

  // The same, field by field.
  ghost function RolesOf(hash: string -> string, w: WSAResource): set<RoleRef> {
    match w
    case Namespaced(_, _, _, permissions, roles, clusterRoles) =>
      Elements(roles) + Elements(clusterRoles)
      + (if permissions == [] then {} else {RoleRef("Role", RoleName(hash, permissions))})
    case ClusterWide(_, _, permissions, clusterRoles) =>
      Elements(clusterRoles)
      + (if permissions == [] then {} else {RoleRef("ClusterRole", ClusterRoleName(hash, permissions))})
  }

  lemma RefsByField(hash: string -> string, w: WSAResource)
    ensures forall f :: f in Refs(hash, w) <==> f in RolesOf(hash, w)
  {
    hide RoleName, ClusterRoleName;
  }

  function BindingKey(hash: string -> string, w: WSAResource, f: RoleRef): Key {
    if w.Namespaced? then Key(w.namespace, RoleBindingName(hash, w.name, f.name))
    else Key("", ClusterRoleBindingName(hash, w.name, f.name))
  }

  // ---- What the Ensure methods leave behind

  // The service accounts of a resource, one per target namespace.
  ghost function SubjectsOf(names: set<string>, targetNamespaces: set<string>): set<Key> {
    set n, ns | n in names && ns in targetNamespaces :: Key(ns, n)
  }

  // What the bindings are made from: resources, their account names, target namespaces.
  datatype Env = Env(hash: string -> string, resources: set<WSAResource>, names: map<Key, seq<string>>,
                     targetNamespaces: set<string>)
  {
    ghost predicate IsBindingOf(w: WSAResource, f: RoleRef, o: Object<Binding>) {
      && o.managed && o.value.roleRef == f && o.value.owner == Some(w.GetKey()) && w.GetKey() in names
      && Elements(o.value.subjects) == SubjectsOf(Elements(names[w.GetKey()]), targetNamespaces)
    }

    // o is the binding of some resource to some role, stored under its name.
    ghost predicate Explained(k: Key, o: Object<Binding>) {
      exists w, f :: w in resources && f in Refs(hash, w) && BindingKey(hash, w, f) == k && IsBindingOf(w, f, o)
    }

    ghost predicate Bound(w: WSAResource, f: RoleRef, objects: Bindings) {
      var k := BindingKey(hash, w, f);
      k in objects && objects[k].value.roleRef == f && Explained(k, objects[k])
    }

    // Bound, unless the call that was to bind it failed.
    ghost predicate BoundBut(failed: set<Key>, w: WSAResource, f: RoleRef, objects: Bindings) {
      BindingKey(hash, w, f) in failed || Bound(w, f, objects)
    }

    // Every entry is as before or explained, and keeps its role.
    ghost predicate Evolved(before: Bindings, after: Bindings) {
      && (forall k :: k in before ==> k in after && after[k].value.roleRef == before[k].value.roleRef)
      && (forall k :: k in after ==> (k in before && after[k] == before[k]) || Explained(k, after[k]))
    }

    // No binding has another role than the ones that are to be bound under its name.
    ghost predicate Smooth(objects: Bindings) {
      && (forall w, f, x, g ::
            w in resources && x in resources && f in Refs(hash, w) && g in Refs(hash, x)
            && BindingKey(hash, w, f) == BindingKey(hash, x, g)
            ==> f == g)
      && (forall w, f ::
            w in resources && f in Refs(hash, w) && BindingKey(hash, w, f) in objects ==>
              objects[BindingKey(hash, w, f)].value.roleRef == f)
    }

    ghost predicate KeepsBound(before: Bindings, after: Bindings) {
      forall w, f :: Bound(w, f, before) ==> Bound(w, f, after)
    }
  }

  lemma EvolvedKeepsBound(env: Env, before: Bindings, after: Bindings)
    requires env.Evolved(before, after)
    ensures env.KeepsBound(before, after)
  {}

  lemma EvolvedKeepsSmooth(env: Env, before: Bindings, after: Bindings)
    requires env.Evolved(before, after) && env.Smooth(before)
    ensures env.Smooth(after)
  {
    hide Refs, BindingKey;
  }

  lemma EvolvedTransitive(env: Env, a: Bindings, b: Bindings, c: Bindings)
    requires env.Evolved(a, b) && env.Evolved(b, c)
    ensures env.Evolved(a, c)
  {}

  function BindingFor(w: WSAResource, f: RoleRef, subjects: seq<Key>): Binding {
    Binding(f, subjects, Some(w.GetKey()))
  }

  // createRoleBinding and createClusterRoleBinding.
  method CreateBinding(ghost env: Env, hash: string -> string, store: Store<Binding>,
                       w: WSAResource, f: RoleRef, subjects: seq<Key>) returns (ok: bool)
    requires hash == env.hash && w in env.resources && f in Refs(hash, w)
    requires env.IsBindingOf(w, f, Object(true, BindingFor(w, f, subjects)))
    modifies store`objects, store`errors, store`refusals
    ensures env.Evolved(old(store.objects), store.objects) && Extended(old(store.errors), store.errors)
    ensures ok <==> store.errors == old(store.errors)
    ensures env.BoundBut(Failed(old(store.errors), store.errors), w, f, store.objects)
    ensures env.Smooth(old(store.objects)) ==> store.refusals == old(store.refusals)
  {
    var k := BindingKey(hash, w, f);
    assert env.Explained(k, Object(true, BindingFor(w, f, subjects)));
    ok := ApplyBinding(store, k, BindingFor(w, f, subjects));
    FailedCall(old(store.errors), k);
    AppliedBinding(env, w, f, subjects, old(store.objects), store.objects, ok);
  }

  lemma AppliedBinding(env: Env, w: WSAResource, f: RoleRef, subjects: seq<Key>,
                       before: Bindings, after: Bindings, ok: bool)
    requires env.Explained(BindingKey(env.hash, w, f), Object(true, BindingFor(w, f, subjects)))
    requires after == before[BindingKey(env.hash, w, f) := Object(true, BindingFor(w, f, subjects))]
             || (!ok && after == before)
    requires BindingKey(env.hash, w, f) in before && before[BindingKey(env.hash, w, f)].value.roleRef != f ==>
      !ok && after == before
    ensures env.Evolved(before, after)
    ensures ok ==> env.Bound(w, f, after)
  {
    hide Refs, BindingKey;
  }

  // Every role is tried, whether or not others failed.
  method BindAll(ghost env: Env, hash: string -> string, store: Store<Binding>,
                 w: WSAResource, refs: seq<RoleRef>, subjects: seq<Key>) returns (ok: bool)
    requires hash == env.hash && w in env.resources && forall f :: f in refs ==> f in Refs(hash, w)
    requires w.GetKey() in env.names
    requires Elements(subjects) == SubjectsOf(Elements(env.names[w.GetKey()]), env.targetNamespaces)
    modifies store`objects, store`errors, store`refusals
    ensures env.Evolved(old(store.objects), store.objects) && Extended(old(store.errors), store.errors)
    ensures ok <==> store.errors == old(store.errors)
    ensures forall f :: f in refs ==> env.BoundBut(Failed(old(store.errors), store.errors), w, f, store.objects)
    ensures env.Smooth(old(store.objects)) ==> store.refusals == old(store.refusals)
  {
    hide Refs, BindingKey, Env.Evolved, Env.BoundBut, Env.Smooth, Extended, Failed;
    ok := true;
    EvolvedRefl(env, store.objects);
    NothingFailed(store.errors);
    for i := 0 to |refs|
      invariant env.Evolved(old(store.objects), store.objects) && Extended(old(store.errors), store.errors)
      invariant ok <==> store.errors == old(store.errors)
      invariant forall j :: 0 <= j < i ==>
        env.BoundBut(Failed(old(store.errors), store.errors), w, refs[j], store.objects)
      invariant env.Smooth(old(store.objects)) ==> store.refusals == old(store.refusals)
    {
      ghost var before, errors := store.objects, store.errors;
      assert refs[i] in refs;
      if env.Smooth(old(store.objects)) { EvolvedKeepsSmooth(env, old(store.objects), before); }
      var bound := CreateBinding(env, hash, store, w, refs[i], subjects);
      EvolvedTwice(env, old(store.objects), before, store.objects);
      StaysBound(env, before, store.objects, old(store.errors), errors, store.errors);
      ok := ok && bound;
    }
  }

  lemma StaysBound(env: Env, before: Bindings, after: Bindings,
                   a: seq<Call>, b: seq<Call>, c: seq<Call>)
    requires env.Evolved(before, after) && Extended(a, b) && Extended(b, c)
    ensures Extended(a, c) && (a == c <==> a == b && b == c)
    ensures forall w, f :: env.BoundBut(Failed(a, b), w, f, before) ==> env.BoundBut(Failed(a, c), w, f, after)
    ensures forall w, f :: env.BoundBut(Failed(b, c), w, f, after) ==> env.BoundBut(Failed(a, c), w, f, after)
  {
    hide Refs, BindingKey, Extended, Failed;
    FailedGrows(a, b, c);
    EvolvedKeepsBound(env, before, after);
  }

  lemma EvolvedRefl(env: Env, a: Bindings)
    ensures env.Evolved(a, a)
  {}

  // The part of an environment that ends up in RoleBindings or in ClusterRoleBindings.
  ghost function Part(env: Env, namespaced: bool): Env {
    env.(resources := set w | w in env.resources && w.Namespaced? == namespaced)
  }

  // The objects whose calls failed, for the namespaced and the cluster-scoped kind.
  datatype Failures = Failures(namespaced: set<Key>, clusterWide: set<Key>)

  const NO_FAILURES := Failures({}, {})

  ghost function FailedIn(a: seq<Call>, b: seq<Call>, c: seq<Call>, d: seq<Call>): Failures
    requires Extended(a, b) && Extended(c, d)
  {
    Failures(Failed(a, b), Failed(c, d))
  }

  ghost predicate AllBound(env: Env, failed: Failures, ws: set<WSAResource>,
                           rbs: Bindings, crbs: Bindings)
  {
    && (forall w, f :: w in ws && w.Namespaced? && f in Refs(env.hash, w) ==>
      Part(env, true).BoundBut(failed.namespaced, w, f, rbs))
    && (forall w, f :: w in ws && !w.Namespaced? && f in Refs(env.hash, w) ==>
      Part(env, false).BoundBut(failed.clusterWide, w, f, crbs))
  }

  // What EnsureRoles reports: the role of each resource with inline permissions.
  ghost predicate IsCreatedRoles(hash: string -> string, ws: set<WSAResource>, created: map<Key, string>) {
    && created.Keys == (set w | w in ws && w.permissions != [] :: w.GetKey())
    && (forall w :: w in ws && w.permissions != [] ==>
      w.GetKey() in created && created[w.GetKey()] == InlineRef(hash, w).name)
  }

  method CreateRoleBindingsForResource(ghost env: Env, hash: string -> string,
                                       rbs: Store<Binding>, crbs: Store<Binding>,
                                       w: WSAResource, subjects: seq<Key>, created: map<Key, string>) returns (ok: bool)
    requires rbs != crbs && hash == env.hash && w in env.resources && DistinctKeys(env.resources)
    requires IsCreatedRoles(hash, env.resources, created)
    requires w.GetKey() in env.names
    requires Elements(subjects) == SubjectsOf(Elements(env.names[w.GetKey()]), env.targetNamespaces)
    modifies rbs`objects, rbs`errors, rbs`refusals, crbs`objects, crbs`errors, crbs`refusals
    ensures Part(env, true).Evolved(old(rbs.objects), rbs.objects) && Extended(old(rbs.errors), rbs.errors)
    ensures Part(env, false).Evolved(old(crbs.objects), crbs.objects) && Extended(old(crbs.errors), crbs.errors)
    ensures ok <==> rbs.errors == old(rbs.errors) && crbs.errors == old(crbs.errors)
    ensures AllBound(env, FailedIn(old(rbs.errors), rbs.errors, old(crbs.errors), crbs.errors), {w},
                     rbs.objects, crbs.objects)
    ensures Part(env, true).Smooth(old(rbs.objects)) ==> rbs.refusals == old(rbs.refusals)
    ensures Part(env, false).Smooth(old(crbs.objects)) ==> crbs.refusals == old(crbs.refusals)
  {
    hide BindingKey, Env.Evolved, Env.BoundBut, Env.Smooth, AllBound, InlineRef, Extended, Failed;
    EvolvedRefl(Part(env, true), rbs.objects);
    EvolvedRefl(Part(env, false), crbs.objects);
    NothingFailed(rbs.errors);
    NothingFailed(crbs.errors);
    var inline: seq<RoleRef> := [];
    if w.GetKey() in created {
      inline := [RoleRef(if w.Namespaced? then "Role" else "ClusterRole", created[w.GetKey()])];
    }
    InlineIsRef(hash, env.resources, w, created, inline);
    if w.Namespaced? {
      ok := BindThrice(Part(env, true), hash, rbs, w, w.GetRoles(), inline, w.clusterRoles, subjects);
    } else {
      ok := BindThrice(Part(env, false), hash, crbs, w, [], inline, w.clusterRoles, subjects);
    }
    AllBoundOne(env, FailedIn(old(rbs.errors), rbs.errors, old(crbs.errors), crbs.errors), w,
                rbs.objects, crbs.objects);
  }

  method BindThrice(ghost env: Env, hash: string -> string, store: Store<Binding>, w: WSAResource,
                    roles: seq<RoleRef>, inline: seq<RoleRef>, clusterRoles: seq<RoleRef>, subjects: seq<Key>)
                      returns (ok: bool)
    requires hash == env.hash && w in env.resources && w.GetKey() in env.names
    requires forall f :: f in roles || f in inline || f in clusterRoles ==> f in Refs(hash, w)
    requires Elements(subjects) == SubjectsOf(Elements(env.names[w.GetKey()]), env.targetNamespaces)
    modifies store`objects, store`errors, store`refusals
    ensures env.Evolved(old(store.objects), store.objects) && Extended(old(store.errors), store.errors)
    ensures ok <==> store.errors == old(store.errors)
    ensures forall f :: f in roles || f in inline || f in clusterRoles ==>
      env.BoundBut(Failed(old(store.errors), store.errors), w, f, store.objects)
    ensures env.Smooth(old(store.objects)) ==> store.refusals == old(store.refusals)
  {
    hide Refs, BindingKey, Env.Evolved, Env.BoundBut, Env.Smooth, Extended, Failed;
    var bound1 := BindAll(env, hash, store, w, roles, subjects);
    ghost var before, errors := store.objects, store.errors;
    if env.Smooth(old(store.objects)) { EvolvedKeepsSmooth(env, old(store.objects), before); }
    var bound2 := BindAll(env, hash, store, w, inline, subjects);
    EvolvedTwice(env, old(store.objects), before, store.objects);
    StaysBound(env, before, store.objects, old(store.errors), errors, store.errors);
    before, errors := store.objects, store.errors;
    if env.Smooth(old(store.objects)) { EvolvedKeepsSmooth(env, old(store.objects), before); }
    var bound3 := BindAll(env, hash, store, w, clusterRoles, subjects);
    EvolvedTwice(env, old(store.objects), before, store.objects);
    StaysBound(env, before, store.objects, old(store.errors), errors, store.errors);
    ok := bound1 && bound2 && bound3;
  }

  lemma EvolvedTwice(env: Env, a: Bindings, b: Bindings, c: Bindings)
    requires env.Evolved(a, b) && env.Evolved(b, c)
    ensures env.Evolved(a, c) && env.KeepsBound(b, c)
  {
    EvolvedTransitive(env, a, b, c);
    EvolvedKeepsBound(env, b, c);
  }

  lemma InlineIsRef(hash: string -> string, ws: set<WSAResource>, w: WSAResource,
                    created: map<Key, string>, inline: seq<RoleRef>)
    requires w in ws && DistinctKeys(ws) && IsCreatedRoles(hash, ws, created)
    requires inline == if w.GetKey() in created
                       then [RoleRef(if w.Namespaced? then "Role" else "ClusterRole", created[w.GetKey()])] else []
    ensures Refs(hash, w) == w.GetRoles() + inline + w.clusterRoles
    ensures forall f :: f in Refs(hash, w) <==> f in w.GetRoles() || f in inline || f in w.clusterRoles
  {}

  lemma AllBoundOne(env: Env, failed: Failures, w: WSAResource, rbs: Bindings, crbs: Bindings)
    requires w.Namespaced? ==> forall f :: f in Refs(env.hash, w) ==>
      Part(env, true).BoundBut(failed.namespaced, w, f, rbs)
    requires !w.Namespaced? ==> forall f :: f in Refs(env.hash, w) ==>
      Part(env, false).BoundBut(failed.clusterWide, w, f, crbs)
    ensures AllBound(env, failed, {w}, rbs, crbs)
  {
    hide Refs, Env.BoundBut, Part;
  }

  method SubjectList(names: seq<string>, targetNamespaces: seq<string>) returns (subjects: seq<Key>)
    ensures Elements(subjects) == SubjectsOf(Elements(names), Elements(targetNamespaces))
  {
    subjects := [];
    for i := 0 to |names|
      invariant Elements(subjects) == SubjectsOf(Elements(names[..i]), Elements(targetNamespaces))
    {
      for j := 0 to |targetNamespaces|
        invariant Elements(subjects) == SubjectsOf(Elements(names[..i]), Elements(targetNamespaces))
                                        + SubjectsOf({names[i]}, Elements(targetNamespaces[..j]))
      {
        assert Elements(targetNamespaces[..j+1]) == Elements(targetNamespaces[..j]) + {targetNamespaces[j]};
        assert Elements(subjects + [Key(targetNamespaces[j], names[i])])
               == Elements(subjects) + {Key(targetNamespaces[j], names[i])};
        subjects := subjects + [Key(targetNamespaces[j], names[i])];
      }
      assert targetNamespaces[..|targetNamespaces|] == targetNamespaces;
      assert Elements(names[..i+1]) == Elements(names[..i]) + {names[i]};
    }
    assert names[..|names|] == names;
  }

  // The resources that own at least one account.
  ghost function WithAccounts(env: Env, ws: set<WSAResource>): set<WSAResource> {
    set w | w in ws && w.GetKey() in env.names && env.names[w.GetKey()] != []
  }

  method EnsureRoleBindings(hash: string -> string, rbs: Store<Binding>, crbs: Store<Binding>,
                            resources: seq<WSAResource>, created: map<Key, string>,
                            names: map<Key, seq<string>>, targetNamespaces: seq<string>) returns (ok: bool)
    requires rbs != crbs && DistinctKeys(Elements(resources))
    requires IsCreatedRoles(hash, Elements(resources), created)
    modifies rbs`objects, rbs`errors, rbs`refusals, crbs`objects, crbs`errors, crbs`refusals
    ensures var env := Env(hash, Elements(resources), names, Elements(targetNamespaces));
      && Extended(old(rbs.errors), rbs.errors) && Extended(old(crbs.errors), crbs.errors)
      && Part(env, true).Evolved(old(rbs.objects), rbs.objects)
      && Part(env, false).Evolved(old(crbs.objects), crbs.objects)
      && AllBound(env, FailedIn(old(rbs.errors), rbs.errors, old(crbs.errors), crbs.errors),
                  WithAccounts(env, Elements(resources)), rbs.objects, crbs.objects)
    ensures ok <==> rbs.errors == old(rbs.errors) && crbs.errors == old(crbs.errors)
    ensures var env := Env(hash, Elements(resources), names, Elements(targetNamespaces));
      && (Part(env, true).Smooth(old(rbs.objects)) ==> rbs.refusals == old(rbs.refusals))
      && (Part(env, false).Smooth(old(crbs.objects)) ==> crbs.refusals == old(crbs.refusals))
  {
    hide BindingKey, Env.Evolved, Env.BoundBut, Env.Smooth, AllBound, InlineRef, Refs, Part, IsCreatedRoles,
         Env.KeepsBound,
         Extended, Failed;
    ghost var env := Env(hash, Elements(resources), names, Elements(targetNamespaces));
    ok := true;
    EvolvedRefl(Part(env, true), rbs.objects);
    EvolvedRefl(Part(env, false), crbs.objects);
    NothingFailed(rbs.errors);
    NothingFailed(crbs.errors);
    NoneBound(env, NO_FAILURES, rbs.objects, crbs.objects);
    for i := 0 to |resources|
      invariant Part(env, true).Evolved(old(rbs.objects), rbs.objects) && Extended(old(rbs.errors), rbs.errors)
      invariant Part(env, false).Evolved(old(crbs.objects), crbs.objects) && Extended(old(crbs.errors), crbs.errors)
      invariant ok <==> rbs.errors == old(rbs.errors) && crbs.errors == old(crbs.errors)
      invariant AllBound(env, FailedIn(old(rbs.errors), rbs.errors, old(crbs.errors), crbs.errors),
                         WithAccounts(env, Elements(resources[..i])), rbs.objects, crbs.objects)
      invariant Part(env, true).Smooth(old(rbs.objects)) ==> rbs.refusals == old(rbs.refusals)
      invariant Part(env, false).Smooth(old(crbs.objects)) ==> crbs.refusals == old(crbs.refusals)
    {
      var w := resources[i];
      assert Elements(resources[..i+1]) == Elements(resources[..i]) + {w};
      if w.GetKey() !in names || |names[w.GetKey()]| == 0 {
        assert WithAccounts(env, Elements(resources[..i+1])) == WithAccounts(env, Elements(resources[..i]));
        continue;
      }
      assert WithAccounts(env, Elements(resources[..i+1])) == WithAccounts(env, Elements(resources[..i])) + {w};
      ghost var rbs0, crbs0, rerrors, crerrors := rbs.objects, crbs.objects, rbs.errors, crbs.errors;
      var subjects := SubjectList(names[w.GetKey()], targetNamespaces);
      if Part(env, true).Smooth(old(rbs.objects)) { EvolvedKeepsSmooth(Part(env, true), old(rbs.objects), rbs0); }
      if Part(env, false).Smooth(old(crbs.objects)) { EvolvedKeepsSmooth(Part(env, false), old(crbs.objects), crbs0); }
      var bound := CreateRoleBindingsForResource(env, hash, rbs, crbs, w, subjects, created);
      EvolvedTwice(Part(env, true), old(rbs.objects), rbs0, rbs.objects);
      EvolvedTwice(Part(env, false), old(crbs.objects), crbs0, crbs.objects);
      StaysBound(Part(env, true), rbs0, rbs.objects, old(rbs.errors), rerrors, rbs.errors);
      StaysBound(Part(env, false), crbs0, crbs.objects, old(crbs.errors), crerrors, crbs.errors);
      AllBoundGrows(env, FailedIn(old(rbs.errors), rerrors, old(crbs.errors), crerrors),
                    FailedIn(rerrors, rbs.errors, crerrors, crbs.errors),
                    FailedIn(old(rbs.errors), rbs.errors, old(crbs.errors), crbs.errors),
                    WithAccounts(env, Elements(resources[..i])), w, rbs0, crbs0, rbs.objects, crbs.objects);
      ok := ok && bound;
    }
    assert resources[..|resources|] == resources;
  }

  // Roles that are bound under one name are one role, for each of the two kinds of bindings.
  ghost predicate RefsAgree(hash: string -> string, rs: set<WSAResource>) {
    forall w, f, x, g ::
      w in rs && x in rs && w.Namespaced? == x.Namespaced? && f in Refs(hash, w) && g in Refs(hash, x)
      && BindingKey(hash, w, f) == BindingKey(hash, x, g)
      ==> f == g
  }

  // The bindings of both kinds.
  datatype AllBindings = AllBindings(namespaced: Bindings, clusterWide: Bindings) {
    ghost function Of(w: WSAResource): Bindings { if w.Namespaced? then namespaced else clusterWide }
  }

  // No binding of a resource exists for another role.
  ghost predicate NoRoleChange(hash: string -> string, rs: set<WSAResource>, all: AllBindings) {
    forall w, f :: w in rs && f in Refs(hash, w) && BindingKey(hash, w, f) in all.Of(w) ==>
      all.Of(w)[BindingKey(hash, w, f)].value.roleRef == f
  }

  lemma SmoothIff(env: Env, all: AllBindings)
    ensures RefsAgree(env.hash, env.resources) && NoRoleChange(env.hash, env.resources, all)
            <==> Part(env, true).Smooth(all.namespaced) && Part(env, false).Smooth(all.clusterWide)
  {
    hide Refs, BindingKey;
    var t, f := Part(env, true), Part(env, false);
    assert forall w :: w in t.resources <==> w in env.resources && w.Namespaced?;
    assert forall w :: w in f.resources <==> w in env.resources && !w.Namespaced?;
    if t.Smooth(all.namespaced) && f.Smooth(all.clusterWide) {
      forall w, f | w in env.resources && f in Refs(env.hash, w) && BindingKey(env.hash, w, f) in all.Of(w)
        ensures all.Of(w)[BindingKey(env.hash, w, f)].value.roleRef == f
      {
        assert w in Part(env, w.Namespaced?).resources;
      }
    }
  }

  // Where everything is bound nothing stood in the way.
  lemma BoundWasSmooth(env: Env, before: AllBindings, after: AllBindings)
    requires AllBound(env, NO_FAILURES, env.resources, after.namespaced, after.clusterWide)
    requires Part(env, true).Evolved(before.namespaced, after.namespaced)
    requires Part(env, false).Evolved(before.clusterWide, after.clusterWide)
    ensures RefsAgree(env.hash, env.resources) && NoRoleChange(env.hash, env.resources, before)
  {
    hide Refs, BindingKey, Env.Explained;
    forall w, f | w in env.resources && f in Refs(env.hash, w)
      ensures BindingKey(env.hash, w, f) in after.Of(w) && after.Of(w)[BindingKey(env.hash, w, f)].value.roleRef == f
    {
      if w.Namespaced? {
        assert Part(env, true).BoundBut({}, w, f, after.namespaced);
      } else {
        assert Part(env, false).BoundBut({}, w, f, after.clusterWide);
      }
    }
  }

  lemma NoneBound(env: Env, failed: Failures, rbs: Bindings, crbs: Bindings)
    ensures WithAccounts(env, Elements([])) == {}
    ensures AllBound(env, failed, {}, rbs, crbs)
  {}

  lemma AllBoundGrows(env: Env, failed0: Failures, failed1: Failures, failed: Failures,
                      ws: set<WSAResource>, w: WSAResource,
                      rbs0: Bindings, crbs0: Bindings,
                      rbs: Bindings, crbs: Bindings)
    requires AllBound(env, failed0, ws, rbs0, crbs0) && AllBound(env, failed1, {w}, rbs, crbs)
    requires forall x, f :: Part(env, true).BoundBut(failed0.namespaced, x, f, rbs0) ==>
      Part(env, true).BoundBut(failed.namespaced, x, f, rbs)
    requires forall x, f :: Part(env, false).BoundBut(failed0.clusterWide, x, f, crbs0) ==>
      Part(env, false).BoundBut(failed.clusterWide, x, f, crbs)
    requires forall x, f :: Part(env, true).BoundBut(failed1.namespaced, x, f, rbs) ==>
      Part(env, true).BoundBut(failed.namespaced, x, f, rbs)
    requires forall x, f :: Part(env, false).BoundBut(failed1.clusterWide, x, f, crbs) ==>
      Part(env, false).BoundBut(failed.clusterWide, x, f, crbs)
    ensures AllBound(env, failed, ws + {w}, rbs, crbs)
  {
    hide Part, Env.BoundBut, Refs;
  }

  // ---- Roles and service accounts

  // The rules of a resource whose inline role is stored under k.
  ghost predicate IsRoleOf(hash: string -> string, ws: set<WSAResource>, namespaced: bool,
                           k: Key, o: Object<seq<string>>)
  {
    && o.managed
    && exists w :: w in ws && w.Namespaced? == namespaced && w.permissions != [] && RoleKey(hash, w) == k
                   && o.value == w.permissions
  }

  // None is gone, and each is as before or holds the rules of a resource.
  ghost predicate RolesEvolved(hash: string -> string, ws: set<WSAResource>, namespaced: bool,
                               before: RoleObjects, after: RoleObjects)
  {
    && before.Keys <= after.Keys
    && forall k :: k in after ==>
         (k in before && after[k] == before[k]) || IsRoleOf(hash, ws, namespaced, k, after[k])
  }

  // The role object of w exists, with the rules of a resource whose role has that name.
  ghost predicate RoleMade(hash: string -> string, ws: set<WSAResource>, w: WSAResource,
                           roles: RoleObjects, clusterRoles: RoleObjects)
  {
    var objects := if w.Namespaced? then roles else clusterRoles;
    RoleKey(hash, w) in objects && IsRoleOf(hash, ws, w.Namespaced?, RoleKey(hash, w), objects[RoleKey(hash, w)])
  }

  // Made, unless the call that was to make it failed.
  ghost predicate RoleMadeBut(hash: string -> string, ws: set<WSAResource>, failed: Failures, w: WSAResource,
                              roles: RoleObjects, clusterRoles: RoleObjects)
  {
    RoleKey(hash, w) in (if w.Namespaced? then failed.namespaced else failed.clusterWide)
    || RoleMade(hash, ws, w, roles, clusterRoles)
  }

  // createRoleIfNeeded: the name is empty when there are no inline permissions.
  method CreateRoleIfNeeded(hash: string -> string, roles: Store<seq<string>>, clusterRoles: Store<seq<string>>,
                            w: WSAResource) returns (ok: bool, name: string)
    requires roles != clusterRoles
    modifies roles`objects, roles`errors, clusterRoles`objects, clusterRoles`errors
    ensures RolesEvolved(hash, {w}, true, old(roles.objects), roles.objects)
    ensures RolesEvolved(hash, {w}, false, old(clusterRoles.objects), clusterRoles.objects)
    ensures Extended(old(roles.errors), roles.errors) && Extended(old(clusterRoles.errors), clusterRoles.errors)
    ensures ok <==> roles.errors == old(roles.errors) && clusterRoles.errors == old(clusterRoles.errors)
    ensures ok ==> name == if w.permissions == [] then "" else InlineRef(hash, w).name
    ensures w.permissions != [] ==>
      RoleMadeBut(hash, {w}, FailedIn(old(roles.errors), roles.errors, old(clusterRoles.errors), clusterRoles.errors),
                  w, roles.objects, clusterRoles.objects)
  {
    hide Render, RoleName, ClusterRoleName;
    NothingFailed(roles.errors);
    NothingFailed(clusterRoles.errors);
    FailedCall(roles.errors, RoleKey(hash, w));
    FailedCall(clusterRoles.errors, RoleKey(hash, w));
    if |w.permissions| == 0 {
      return true, "";
    }
    if w.Namespaced? {
      ok := roles.Apply(RoleKey(hash, w), w.permissions);
    } else {
      ok := clusterRoles.Apply(RoleKey(hash, w), w.permissions);
    }
    assert IsRoleOf(hash, {w}, w.Namespaced?, RoleKey(hash, w), Object(true, w.permissions));
    name := InlineRef(hash, w).name;
  }

  // Each is as before or holds the rules of a resource, and unmanaged ones are not gone
  // unless they were taken over.
  ghost predicate RolesChanged(hash: string -> string, ws: set<WSAResource>, before: RoleObjects, after: RoleObjects) {
    && KeepsForeign(before, after, set w | w in ws && w.Namespaced? && w.permissions != [] :: RoleKey(hash, w))
    && forall k :: k in after ==>
         (k in before && after[k] == before[k]) || IsRoleOf(hash, ws, true, k, after[k])
  }

  lemma EvolvedThenShrunk(hash: string -> string, ws: set<WSAResource>, a: RoleObjects, b: RoleObjects, c: RoleObjects)
    requires RolesEvolved(hash, ws, true, a, b) && Shrunk(b, c)
    ensures RolesChanged(hash, ws, a, c)
  {
    hide RoleKey;
  }

  lemma RoleNameNotEmpty(hash: string -> string, w: WSAResource)
    ensures InlineRef(hash, w).name != ""
  {
    hide Render;
  }

  ghost predicate RolesMade(hash: string -> string, all: set<WSAResource>, failed: Failures, ws: set<WSAResource>,
                            roles: RoleObjects, clusterRoles: RoleObjects)
  {
    forall w :: w in ws && w.permissions != [] ==> RoleMadeBut(hash, all, failed, w, roles, clusterRoles)
  }

  lemma RolesEvolvedTwice(hash: string -> string, all: set<WSAResource>, w: WSAResource, namespaced: bool,
                          a: RoleObjects, b: RoleObjects, c: RoleObjects)
    requires w in all && RolesEvolved(hash, all, namespaced, a, b) && RolesEvolved(hash, {w}, namespaced, b, c)
    ensures RolesEvolved(hash, all, namespaced, a, c) && RolesEvolved(hash, all, namespaced, b, c)
  {
    hide RoleKey;
    forall k | k in c && IsRoleOf(hash, {w}, namespaced, k, c[k]) ensures IsRoleOf(hash, all, namespaced, k, c[k]) {
      assert w in all;
    }
  }

  // Later calls may write a role again, with the rules of another resource of that name.
  lemma RolesStayMade(hash: string -> string, all: set<WSAResource>, failed0: Failures, failed: Failures,
                      ws: set<WSAResource>, roles0: RoleObjects, clusterRoles0: RoleObjects,
                      roles: RoleObjects, clusterRoles: RoleObjects)
    requires RolesMade(hash, all, failed0, ws, roles0, clusterRoles0)
    requires RolesEvolved(hash, all, true, roles0, roles) && RolesEvolved(hash, all, false, clusterRoles0, clusterRoles)
    requires failed0.namespaced <= failed.namespaced && failed0.clusterWide <= failed.clusterWide
    ensures RolesMade(hash, all, failed, ws, roles, clusterRoles)
  {
    hide RoleKey, IsRoleOf;
  }

  lemma NoRolesYet(hash: string -> string, all: set<WSAResource>, failed: Failures,
                   roles: RoleObjects, clusterRoles: RoleObjects)
    ensures IsCreatedRoles(hash, Elements([]), map[])
    ensures RolesMade(hash, all, failed, Elements([]), roles, clusterRoles)
    ensures RolesEvolved(hash, all, true, roles, roles) && RolesEvolved(hash, all, false, clusterRoles, clusterRoles)
  {}

  lemma OneMoreRole(hash: string -> string, all: set<WSAResource>, failed1: Failures, failed: Failures,
                    ws: set<WSAResource>, w: WSAResource, roles: RoleObjects, clusterRoles: RoleObjects)
    requires w in all && RolesMade(hash, all, failed, ws, roles, clusterRoles)
    requires w.permissions != [] ==> RoleMadeBut(hash, {w}, failed1, w, roles, clusterRoles)
    requires failed1.namespaced <= failed.namespaced && failed1.clusterWide <= failed.clusterWide
    ensures RolesMade(hash, all, failed, ws + {w}, roles, clusterRoles)
  {
    hide RoleKey;
    if w.permissions != [] && RoleMade(hash, {w}, w, roles, clusterRoles) {
      assert RoleMade(hash, all, w, roles, clusterRoles);
    }
  }

  lemma CreatedRolesGrow(hash: string -> string, ws: set<WSAResource>, w: WSAResource,
                         created: map<Key, string>, name: string)
    requires DistinctKeys(ws + {w}) && IsCreatedRoles(hash, ws, created)
    requires name == if w.permissions == [] then "" else InlineRef(hash, w).name
    ensures IsCreatedRoles(hash, ws + {w}, if name != "" then created[w.GetKey() := name] else created)
  {
    hide InlineRef;
    RoleNameNotEmpty(hash, w);
  }

  method EnsureRoles(hash: string -> string, roles: Store<seq<string>>, clusterRoles: Store<seq<string>>,
                     resources: seq<WSAResource>) returns (ok: bool, created: map<Key, string>)
    requires roles != clusterRoles && DistinctKeys(Elements(resources))
    modifies roles`objects, roles`errors, clusterRoles`objects, clusterRoles`errors
    ensures RolesEvolved(hash, Elements(resources), true, old(roles.objects), roles.objects)
    ensures RolesEvolved(hash, Elements(resources), false, old(clusterRoles.objects), clusterRoles.objects)
    ensures Extended(old(roles.errors), roles.errors) && Extended(old(clusterRoles.errors), clusterRoles.errors)
    ensures ok <==> roles.errors == old(roles.errors) && clusterRoles.errors == old(clusterRoles.errors)
    ensures ok ==> IsCreatedRoles(hash, Elements(resources), created)
    ensures RolesMade(hash, Elements(resources),
                      FailedIn(old(roles.errors), roles.errors, old(clusterRoles.errors), clusterRoles.errors),
                      Elements(resources), roles.objects, clusterRoles.objects)
  {
    hide InlineRef, RoleMadeBut, RolesEvolved, IsCreatedRoles, RolesMade, Extended, Failed;
    ghost var all := Elements(resources);
    ok, created := true, map[];
    NoRolesYet(hash, all, NO_FAILURES, roles.objects, clusterRoles.objects);
    NothingFailed(roles.errors);
    NothingFailed(clusterRoles.errors);
    for i := 0 to |resources|
      invariant RolesEvolved(hash, all, true, old(roles.objects), roles.objects)
      invariant RolesEvolved(hash, all, false, old(clusterRoles.objects), clusterRoles.objects)
      invariant Extended(old(roles.errors), roles.errors) && Extended(old(clusterRoles.errors), clusterRoles.errors)
      invariant ok <==> roles.errors == old(roles.errors) && clusterRoles.errors == old(clusterRoles.errors)
      invariant ok ==> IsCreatedRoles(hash, Elements(resources[..i]), created)
      invariant RolesMade(hash, all,
                          FailedIn(old(roles.errors), roles.errors, old(clusterRoles.errors), clusterRoles.errors),
                          Elements(resources[..i]), roles.objects, clusterRoles.objects)
    {
      var w := resources[i];
      assert Elements(resources[..i+1]) == Elements(resources[..i]) + {w} && w in all;
      ghost var roles0, clusterRoles0 := roles.objects, clusterRoles.objects;
      ghost var rerrors, crerrors := roles.errors, clusterRoles.errors;
      ghost var created0 := created;
      var applied, name := CreateRoleIfNeeded(hash, roles, clusterRoles, w);
      if !applied {
        ok := false;
      } else if name != "" {
        created := created[w.GetKey() := name];
      }
      if ok { CreatedRolesGrow(hash, Elements(resources[..i]), w, created0, name); }
      RolesEvolvedTwice(hash, all, w, true, old(roles.objects), roles0, roles.objects);
      RolesEvolvedTwice(hash, all, w, false, old(clusterRoles.objects), clusterRoles0, clusterRoles.objects);
      FailedGrows(old(roles.errors), rerrors, roles.errors);
      FailedGrows(old(clusterRoles.errors), crerrors, clusterRoles.errors);
      ghost var failed := FailedIn(old(roles.errors), roles.errors, old(clusterRoles.errors), clusterRoles.errors);
      RolesStayMade(hash, all, FailedIn(old(roles.errors), rerrors, old(clusterRoles.errors), crerrors), failed,
                    Elements(resources[..i]), roles0, clusterRoles0, roles.objects, clusterRoles.objects);
      OneMoreRole(hash, all, FailedIn(rerrors, roles.errors, crerrors, clusterRoles.errors), failed,
                  Elements(resources[..i]), w, roles.objects, clusterRoles.objects);
    }
    assert resources[..|resources|] == resources;
  }

  // The accounts to be found in the target namespaces.
  ghost function AccountKeys(accounts: seq<ServiceAccount>, targetNamespaces: set<string>): set<Key> {
    set a, ns | a in accounts && ns in targetNamespaces :: Key(ns, a.name)
  }

  // Unmanaged objects stay as they are, except where applied.
  ghost predicate KeepsForeign<V>(before: map<Key, Object<V>>, after: map<Key, Object<V>>, applied: set<Key>) {
    forall k :: k in before && !before[k].managed && k !in applied ==> k in after && after[k] == before[k]
  }

  // One of the accounts, with its labels.
  ghost predicate IsAccountOf(accounts: seq<ServiceAccount>, k: Key, o: Object<ServiceAccount>) {
    o.managed && o.value in accounts && o.value.name == k.name
  }

  // The keys are those of the accounts, unless their calls failed.
  ghost predicate Present(accounts: seq<ServiceAccount>, keys: set<Key>, failed: set<Key>, objects: AccountObjects) {
    forall k :: k in keys ==> k in failed || (k in objects && IsAccountOf(accounts, k, objects[k]))
  }

  // None is gone, and each is as before or one of the accounts.
  ghost predicate AccountsEvolved(accounts: seq<ServiceAccount>, keys: set<Key>,
                                  before: AccountObjects, after: AccountObjects)
  {
    && before.Keys <= after.Keys
    && forall k :: k in after ==>
         (k in before && after[k] == before[k]) || (k in keys && IsAccountOf(accounts, k, after[k]))
  }

  method EnsureServiceAccounts(store: Store<ServiceAccount>, accounts: seq<ServiceAccount>,
                               targetNamespaces: seq<string>)
    returns (ok: bool)
    modifies store`objects, store`errors
    ensures Extended(old(store.errors), store.errors) && (ok <==> store.errors == old(store.errors))
    ensures Present(accounts, AccountKeys(accounts, Elements(targetNamespaces)),
                    Failed(old(store.errors), store.errors), store.objects)
    ensures AccountsEvolved(accounts, AccountKeys(accounts, Elements(targetNamespaces)),
                            old(store.objects), store.objects)
  {
    hide Failed, Extended, AccountKeys;
    ghost var all := AccountKeys(accounts, Elements(targetNamespaces));
    ok := true;
    NothingFailed(store.errors);
    NoAccountKeys(accounts, targetNamespaces);
    for i := 0 to |accounts|
      invariant Extended(old(store.errors), store.errors) && (ok <==> store.errors == old(store.errors))
      invariant AccountsEvolved(accounts, all, old(store.objects), store.objects)
      invariant Present(accounts, AccountKeys(accounts[..i], Elements(targetNamespaces)),
                        Failed(old(store.errors), store.errors), store.objects)
    {
      NoAccountKeys([accounts[i]], targetNamespaces);
      for j := 0 to |targetNamespaces|
        invariant Extended(old(store.errors), store.errors) && (ok <==> store.errors == old(store.errors))
        invariant AccountsEvolved(accounts, all, old(store.objects), store.objects)
        invariant Present(accounts, AccountKeys(accounts[..i], Elements(targetNamespaces))
                          + AccountKeys([accounts[i]], Elements(targetNamespaces[..j])),
                          Failed(old(store.errors), store.errors), store.objects)
      {
        AccountKeysGrow(accounts, targetNamespaces, i, j);
        ghost var errors := store.errors;
        var k := Key(targetNamespaces[j], accounts[i].name);
        var applied := store.Apply(k, accounts[i]);
        FailedCall(errors, k);
        NothingFailed(errors);
        FailedGrows(old(store.errors), errors, store.errors);
        ok := ok && applied;
      }
      AccountRowDone(accounts, targetNamespaces, i);
    }
    assert accounts[..|accounts|] == accounts;
  }

  lemma NoAccountKeys(accounts: seq<ServiceAccount>, targetNamespaces: seq<string>)
    ensures AccountKeys(accounts[..0], Elements(targetNamespaces)) == {}
    ensures AccountKeys(accounts, Elements(targetNamespaces[..0])) == {}
  {}

  lemma AccountKeysGrow(accounts: seq<ServiceAccount>, targetNamespaces: seq<string>, i: nat, j: nat)
    requires i < |accounts| && j < |targetNamespaces|
    ensures var k := Key(targetNamespaces[j], accounts[i].name);
      && k in AccountKeys(accounts, Elements(targetNamespaces))
      && AccountKeys([accounts[i]], Elements(targetNamespaces[..j+1]))
         == AccountKeys([accounts[i]], Elements(targetNamespaces[..j])) + {k}
  {
    assert accounts[i] in accounts && targetNamespaces[j] in Elements(targetNamespaces);
    assert Elements(targetNamespaces[..j+1]) == Elements(targetNamespaces[..j]) + {targetNamespaces[j]};
  }

  lemma AccountRowDone(accounts: seq<ServiceAccount>, targetNamespaces: seq<string>, i: nat)
    requires i < |accounts|
    ensures targetNamespaces[..|targetNamespaces|] == targetNamespaces
    ensures AccountKeys(accounts[..i+1], Elements(targetNamespaces))
            == AccountKeys(accounts[..i], Elements(targetNamespaces))
               + AccountKeys([accounts[i]], Elements(targetNamespaces))
  {
    assert targetNamespaces[..|targetNamespaces|] == targetNamespaces;
    assert accounts[..i+1] == accounts[..i] + [accounts[i]];
  }

  // ---- Garbage collection

  // Unmanaged objects are not listed, and managed ones survive iff they are to be kept.
  // A deletion that fails does not keep others from being tried, and nothing that was to
  // be kept is gone either way.
  method CollectGarbage<V>(store: Store<V>, keep: Key -> bool) returns (ok: bool)
    modifies store`objects, store`errors, store`listings
    ensures Extended(old(store.errors), store.errors) && (ok <==> store.errors == old(store.errors))
    ensures store.listings == old(store.listings) + 1
    ensures ok ==> store.objects == Kept(old(store.objects), keep)
    ensures Shrunk(old(store.objects), store.objects)
    ensures forall k :: k in old(store.objects) && keep(k) ==> k in store.objects
    ensures store.errors == old(store.errors) + [ListCall]
            || forall k :: k in store.objects && store.objects[k].managed && !keep(k) ==>
              k in Failed(old(store.errors), store.errors)
  {
    hide Failed, Extended;
    NothingFailed(store.errors);
    var keys;
    ok, keys := store.ListManaged();
    if !ok {
      assert Extended(old(store.errors), store.errors) by { ExtendedByOne(old(store.errors), ListCall); }
      return;
    }
    var todo := keys;
    ghost var before := store.objects;
    while todo != {}
      invariant todo <= keys
      invariant Extended(old(store.errors), store.errors) && (ok <==> store.errors == old(store.errors))
      invariant store.listings == old(store.listings) + 1
      invariant forall k :: k in store.objects ==> k in before && store.objects[k] == before[k]
      invariant forall k :: k in before && (!before[k].managed || keep(k)) ==> k in store.objects
      invariant forall k :: k in todo ==> k in store.objects
      invariant forall k :: k in store.objects && store.objects[k].managed && !keep(k) && k !in todo ==>
        k in Failed(old(store.errors), store.errors)
    {
      var k :| k in todo;
      todo := todo - {k};
      if !keep(k) {
        ghost var errors := store.errors;
        var deleted := store.Delete(k);
        FailedCall(errors, k);
        NothingFailed(errors);
        FailedGrows(old(store.errors), errors, store.errors);
        ok := ok && deleted;
      }
    }
    if ok {
      assert store.objects.Keys == Kept(before, keep).Keys by { NothingFailed(store.errors); }
    }
  }

  // Some managed objects have been deleted, and that is all.
  ghost predicate Shrunk<V>(before: map<Key, Object<V>>, after: map<Key, Object<V>>) {
    && (forall k :: k in after ==> k in before && after[k] == before[k])
    && (forall k :: k in before && !before[k].managed ==> k in after)
  }

  ghost function Kept<V>(before: map<Key, Object<V>>, keep: Key -> bool): map<Key, Object<V>> {
    map k | k in before && (!before[k].managed || keep(k)) :: before[k]
  }

  lemma ExtendedByOne(a: seq<Call>, c: Call)
    ensures Extended(a, a + [c]) && a + [c] != a
  {}

  // What is kept.
  function InNamespaceOfName(namespaces: set<string>, names: set<string>): Key -> bool {
    (k: Key) => k.namespace in namespaces && k.name in names
  }

  function OfName(names: set<string>): Key -> bool { (k: Key) => k.name in names }

  function OneOf(keys: set<Key>): Key -> bool { (k: Key) => k in keys }

  method GarbageCollectServiceAccounts(store: Store<ServiceAccount>, expected: set<string>,
                                       targetNamespaces: set<string>)
    returns (ok: bool)
    modifies store`objects, store`errors, store`listings
    ensures store.listings == old(store.listings) + 1
    ensures Extended(old(store.errors), store.errors) && (ok <==> store.errors == old(store.errors))
    ensures var before := old(store.objects);
      ok ==> store.objects == Kept(before, InNamespaceOfName(targetNamespaces, expected))
    ensures Shrunk(old(store.objects), store.objects)
  {
    ok := CollectGarbage(store, InNamespaceOfName(targetNamespaces, expected));
  }

  ghost function ExpectedRoles(hash: string -> string, ws: set<WSAResource>): set<string> {
    set w | w in ws && w.permissions != [] :: InlineRef(hash, w).name
  }

  method GarbageCollectRoles(hash: string -> string, store: Store<seq<string>>, resources: seq<WSAResource>)
    returns (ok: bool)
    modifies store`objects, store`errors, store`listings
    ensures store.listings == old(store.listings) + 1 && Shrunk(old(store.objects), store.objects)
    ensures Extended(old(store.errors), store.errors) && (ok <==> store.errors == old(store.errors))
    ensures var before := old(store.objects);
      ok ==> store.objects == Kept(before, OfName(ExpectedRoles(hash, Elements(resources))))
  {
    hide InlineRef;
    var expected: set<string> := {};
    for i := 0 to |resources|
      invariant expected == ExpectedRoles(hash, Elements(resources[..i]))
    {
      assert Elements(resources[..i+1]) == Elements(resources[..i]) + {resources[i]};
      if |resources[i].permissions| == 0 {
        continue;
      }
      expected := expected + {InlineRef(hash, resources[i]).name};
    }
    assert resources[..|resources|] == resources;
    ok := CollectGarbage(store, OfName(expected));
  }

  ghost function ExpectedBindings(hash: string -> string, ws: set<WSAResource>): set<Key> {
    set w, f | w in ws && w.Namespaced? && f in Refs(hash, w) :: BindingKey(hash, w, f)
  }

  method GarbageCollectRoleBindings(hash: string -> string, store: Store<Binding>, resources: seq<WSAResource>)
    returns (ok: bool)
    modifies store`objects, store`errors, store`listings
    ensures store.listings == old(store.listings) + 1
    ensures Shrunk(old(store.objects), store.objects)
    ensures Extended(old(store.errors), store.errors) && (ok <==> store.errors == old(store.errors))
    ensures var before := old(store.objects);
      ok ==> store.objects == Kept(before, OneOf(ExpectedBindings(hash, Elements(resources))))
  {
    hide Refs, BindingKey, RoleName;
    var expected: set<Key> := {};
    for i := 0 to |resources|
      invariant unchanged(store)
      invariant expected == ExpectedBindings(hash, Elements(resources[..i]))
    {
      var w := resources[i];
      assert Elements(resources[..i+1]) == Elements(resources[..i]) + {w};
      if !w.Namespaced? {
        continue;
      }
      var keys := ExpectedOf(hash, w);
      expected := expected + keys;
    }
    assert resources[..|resources|] == resources;
    ok := CollectGarbage(store, OneOf(expected));
  }

  method ExpectedOf(hash: string -> string, w: WSAResource) returns (expected: set<Key>)
    requires w.Namespaced?
    ensures expected == set f | f in Refs(hash, w) :: BindingKey(hash, w, f)
  {
    hide RoleBindingName, RoleName;
    expected := {};
    if |w.permissions| > 0 {
      expected := expected + {Key(w.namespace, RoleBindingName(hash, w.name, RoleName(hash, w.permissions)))};
    }
    var allRoleRefs := w.GetRoles() + w.clusterRoles;
    for i := 0 to |allRoleRefs|
      invariant expected == (set f | f in allRoleRefs[..i] :: Key(w.namespace, RoleBindingName(hash, w.name, f.name)))
        + (if w.permissions == [] then {}
           else {Key(w.namespace, RoleBindingName(hash, w.name, RoleName(hash, w.permissions)))})
    {
      expected := expected + {Key(w.namespace, RoleBindingName(hash, w.name, allRoleRefs[i].name))};
    }
    assert allRoleRefs[..|allRoleRefs|] == allRoleRefs;
    forall f ensures f in Refs(hash, w) <==> f in allRoleRefs || (w.permissions != [] && f == InlineRef(hash, w)) {}
    assert w.permissions != [] ==> InlineRef(hash, w) in Refs(hash, w);
    forall k | k in expected ensures k in set f | f in Refs(hash, w) :: BindingKey(hash, w, f) {
      if f :| f in allRoleRefs && k == BindingKey(hash, w, f) {
        assert f in Refs(hash, w);
      } else {
        assert k == BindingKey(hash, w, InlineRef(hash, w));
      }
    }
  }

  // Over-approximates: a namespaced resource contributes names it has no binding for.
  ghost function ExpectedClusterBindings(hash: string -> string, ws: set<WSAResource>): set<string> {
    (set w | w in ws && w.permissions != [] :: ClusterRoleBindingName(hash, w.name, InlineRef(hash, w).name))
    + (set w, f | w in ws && f in w.clusterRoles :: ClusterRoleBindingName(hash, w.name, f.name))
  }

  method GarbageCollectClusterRoleBindings(hash: string -> string, store: Store<Binding>, resources: seq<WSAResource>)
    returns (ok: bool)
    modifies store`objects, store`errors, store`listings
    ensures store.listings == old(store.listings) + 1
    ensures Shrunk(old(store.objects), store.objects)
    ensures Extended(old(store.errors), store.errors) && (ok <==> store.errors == old(store.errors))
    ensures var before := old(store.objects);
      ok ==> store.objects == Kept(before, OfName(ExpectedClusterBindings(hash, Elements(resources))))
  {
    hide InlineRef, ClusterRoleBindingName;
    var expected: set<string> := {};
    for i := 0 to |resources|
      invariant expected == ExpectedClusterBindings(hash, Elements(resources[..i]))
    {
      var w := resources[i];
      assert Elements(resources[..i+1]) == Elements(resources[..i]) + {w};
      if |w.permissions| > 0 {
        expected := expected + {ClusterRoleBindingName(hash, w.name, InlineRef(hash, w).name)};
      }
      expected := expected + set f | f in w.clusterRoles :: ClusterRoleBindingName(hash, w.name, f.name);
    }
    assert resources[..|resources|] == resources;
    ok := CollectGarbage(store, OfName(expected));
  }
}
