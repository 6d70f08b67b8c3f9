// Scopes, workload service account (WSA) resources and the direct meaning of a match.
module Scopes {

  const WILDCARD := "*"

  // DimensionIndex: 0 project, 1 project group, 2 environment, 3 tenant, 4 step, 5 space.
  type Dim = d: nat | d < 6

  datatype Scope = Scope(
    project: string, projectGroup: string, environment: string,
    tenant: string, step: string, space: string)
  {
    function At(d: Dim): string {
      if d == 0 then project else if d == 1 then projectGroup
      else if d == 2 then environment else if d == 3 then tenant
      else if d == 4 then step else space
    }

    function With(d: Dim, value: string): Scope {
      if d == 0 then this.(project := value) else if d == 1 then this.(projectGroup := value)
      else if d == 2 then this.(environment := value) else if d == 3 then this.(tenant := value)
      else if d == 4 then this.(step := value) else this.(space := value)
    }
  }

  const EMPTY_SCOPE := Scope("", "", "", "", "", "")

  lemma WithAt(s: Scope, d: Dim, value: string, e: Dim)
    ensures s.With(d, value).At(e) == if e == d then value else s.At(e)
  {}

  lemma SameAtAll(a: Scope, b: Scope)
    requires forall d: Dim :: a.At(d) == b.At(d)
    ensures a == b
  {
    assert a.At(0) == b.At(0) && a.At(1) == b.At(1) && a.At(2) == b.At(2);
    assert a.At(3) == b.At(3) && a.At(4) == b.At(4) && a.At(5) == b.At(5);
  }

  // The scope whose dimensions are given by f.
  ghost function Build(f: Dim -> string): (s: Scope)
    ensures forall d: Dim :: s.At(d) == f(d)
  {
    Scope(f(0), f(1), f(2), f(3), f(4), f(5))
  }

  // One set of values per dimension; the scopes inside are the cartesian product.
  type Box = b: seq<set<string>> | |b| == 6 witness [{}, {}, {}, {}, {}, {}]

  predicate InBox(s: Scope, b: Box) {
    forall d: Dim :: s.At(d) in b[d]
  }

  ghost function Product(b: Box): set<Scope> {
    set p, g, e, t, st, sp |
      p in b[0] && g in b[1] && e in b[2] && t in b[3] && st in b[4] && sp in b[5]
      :: Scope(p, g, e, t, st, sp)
  }

  lemma ProductIsBox(s: Scope, b: Box)
    ensures s in Product(b) <==> InBox(s, b)
  {
    if InBox(s, b) {
      assert s.At(0) in b[0] && s.At(1) in b[1] && s.At(2) in b[2];
      assert s.At(3) in b[3] && s.At(4) in b[4] && s.At(5) in b[5];
      assert s == Scope(s.project, s.projectGroup, s.environment, s.tenant, s.step, s.space);
    }
  }

  // types.NamespacedName; the namespace is empty for cluster-scoped resources.
  datatype Key = Key(namespace: string, name: string) {
    function Str(): string { namespace + "/" + name }
  }

  // The six value lists of a WSA; an empty list puts no constraint on its dimension.
  datatype ScopeSpec = ScopeSpec(
    projects: seq<string>, projectGroups: seq<string>, environments: seq<string>,
    tenants: seq<string>, steps: seq<string>, spaces: seq<string>)
  {
    function At(d: Dim): seq<string> {
      if d == 0 then projects else if d == 1 then projectGroups
      else if d == 2 then environments else if d == 3 then tenants
      else if d == 4 then steps else spaces
    }
  }

  datatype RoleRef = RoleRef(kind: string, name: string)

  // WSAResource: a WorkloadServiceAccount or a ClusterWorkloadServiceAccount. A policy
  // rule is represented by its printed form.
  datatype WSAResource =
    | Namespaced(namespace: string, name: string, scope: ScopeSpec,
                 permissions: seq<string>, roles: seq<RoleRef>, clusterRoles: seq<RoleRef>)
    | ClusterWide(name: string, scope: ScopeSpec,
                  permissions: seq<string>, clusterRoles: seq<RoleRef>)
  {
    function GetNamespace(): string { if Namespaced? then namespace else "" }
    function GetKey(): Key { Key(GetNamespace(), name) }
    function GetRoles(): seq<RoleRef> { if Namespaced? then roles else [] }
    function Values(d: Dim): seq<string> { scope.At(d) }
    function ValueSet(d: Dim): set<string> { set v | v in scope.At(d) }
  }

  // Direct matching, the reference meaning of a WSA: each dimension is unconstrained or
  // lists the pod's value.
  predicate Matches(w: WSAResource, pod: Scope) {
    && (w.scope.projects == [] || pod.project in w.scope.projects)
    && (w.scope.projectGroups == [] || pod.projectGroup in w.scope.projectGroups)
    && (w.scope.environments == [] || pod.environment in w.scope.environments)
    && (w.scope.tenants == [] || pod.tenant in w.scope.tenants)
    && (w.scope.steps == [] || pod.step in w.scope.steps)
    && (w.scope.spaces == [] || pod.space in w.scope.spaces)
  }

  lemma MatchesAt(w: WSAResource, pod: Scope)
    ensures Matches(w, pod) <==> forall d: Dim :: w.Values(d) == [] || pod.At(d) in w.Values(d)
  {
    if forall d: Dim :: w.Values(d) == [] || pod.At(d) in w.Values(d) {
      assert w.Values(0) == [] || pod.At(0) in w.Values(0);
      assert w.Values(1) == [] || pod.At(1) in w.Values(1);
      assert w.Values(2) == [] || pod.At(2) in w.Values(2);
      assert w.Values(3) == [] || pod.At(3) in w.Values(3);
      assert w.Values(4) == [] || pod.At(4) in w.Values(4);
      assert w.Values(5) == [] || pod.At(5) in w.Values(5);
    }
  }

  // What the CRD pattern guarantees of a scope value, and a little less.
  predicate Slug(v: string) {
    v != "" && '*' !in v && '+' !in v && '|' !in v && ':' !in v
  }

  lemma SlugIsNotWildcard(v: string)
    requires Slug(v)
    ensures v != WILDCARD && v != ""
  {
    assert '*' in WILDCARD;
  }

  // Kubernetes object names hold neither a comma nor a slash.
  predicate PlainKey(k: Key) {
    ',' !in k.namespace && '/' !in k.namespace && ',' !in k.name && '/' !in k.name
  }

  predicate WellFormed(w: WSAResource) {
    && (forall d: Dim, v :: v in w.Values(d) ==> Slug(v))
    && PlainKey(w.GetKey())
    && (w.Namespaced? ==> w.namespace != "")
  }

  predicate DistinctKeys(rs: set<WSAResource>) {
    forall a, b :: a in rs && b in rs && a.GetKey() == b.GetKey() ==> a == b
  }

  // What the API server guarantees of the objects it lists.
  predicate ValidSet(rs: set<WSAResource>) {
    DistinctKeys(rs) && forall w :: w in rs ==> WellFormed(w)
  }

  ghost function Elements<T>(xs: seq<T>): set<T> { set x | x in xs }

  ghost function Keys(rs: set<WSAResource>): set<Key> { set w | w in rs :: w.GetKey() }
}
