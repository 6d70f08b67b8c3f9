// internal/rules/generator.go:436-467: the canonical string of a group's values, hashed
// into a service account name. The hash (SHA-256 cut to 128 bits) is a parameter.
module Naming {
  import opened Text
  import opened Scopes

  datatype GroupedDimensions = GroupedDimensions(
    projects: seq<string>, projectGroups: seq<string>, environments: seq<string>,
    tenants: seq<string>, steps: seq<string>, spaces: seq<string>)
  {
    function At(d: Dim): seq<string> {
      if d == 0 then projects else if d == 1 then projectGroups
      else if d == 2 then environments else if d == 3 then tenants
      else if d == 4 then steps else spaces
    }
  }

  datatype Field = Field(key: string, values: seq<string>)

  function Fields(g: GroupedDimensions): seq<Field> {
    [Field("spaces:", g.spaces), Field("projects:", g.projects),
     Field("projectgroups:", g.projectGroups), Field("environments:", g.environments),
     Field("tenants:", g.tenants), Field("steps:", g.steps)]
  }

  // One part per non-empty dimension.
  function Parts(fs: seq<Field>): seq<string> {
    if fs == [] then []
    else if fs[0].values == [] then Parts(fs[1..])
    else [fs[0].key + Join(fs[0].values, '+')] + Parts(fs[1..])
  }

  function Canonical(g: GroupedDimensions): string {
    var parts := Parts(Fields(g));
    Join(if parts == [] then ["wildcard"] else parts, '|')
  }

  function ServiceAccountName(hash: string -> string, g: GroupedDimensions): string {
    "octopus-sa-" + hash(Canonical(g))
  }

  lemma {:induction false} PartOfEach(fs: seq<Field>)
    requires forall i :: 0 <= i < |fs| ==> fs[i].values != []
    ensures |Parts(fs)| == |fs|
    ensures forall i :: 0 <= i < |fs| ==> Parts(fs)[i] == fs[i].key + Join(fs[i].values, '+')
  {
    hide Join;
    if fs != [] { PartOfEach(fs[1..]); }
  }

  // The format: the dimensions in this order, each with its key.
  lemma CanonicalFormat(g: GroupedDimensions)
    requires g.projects != [] && g.projectGroups != [] && g.environments != []
    requires g.tenants != [] && g.steps != [] && g.spaces != []
    ensures Canonical(g)
            == Join(["spaces:" + Join(g.spaces, '+'), "projects:" + Join(g.projects, '+'),
                     "projectgroups:" + Join(g.projectGroups, '+'), "environments:" + Join(g.environments, '+'),
                     "tenants:" + Join(g.tenants, '+'), "steps:" + Join(g.steps, '+')], '|')
  {
    hide Join, Parts;
    PartOfEach(Fields(g));
    assert Parts(Fields(g))
        == ["spaces:" + Join(g.spaces, '+'), "projects:" + Join(g.projects, '+'),
            "projectgroups:" + Join(g.projectGroups, '+'), "environments:" + Join(g.environments, '+'),
            "tenants:" + Join(g.tenants, '+'), "steps:" + Join(g.steps, '+')];
  }

  // ---- Reading a canonical string back

  function Lookup(parts: seq<string>, key: string): seq<string> {
    if parts == [] then []
    else if key <= parts[0] then Split(parts[0][|key|..], '+')
    else Lookup(parts[1..], key)
  }

  function Decode(s: string): GroupedDimensions {
    var parts := Split(s, '|');
    GroupedDimensions(
      Lookup(parts, "projects:"), Lookup(parts, "projectgroups:"), Lookup(parts, "environments:"),
      Lookup(parts, "tenants:"), Lookup(parts, "steps:"), Lookup(parts, "spaces:"))
  }

  ghost predicate Slugs(values: seq<string>) {
    forall i :: 0 <= i < |values| ==> Slug(values[i])
  }

  lemma {:induction false} JoinLacks(values: seq<string>, sep: char, c: char)
    requires c != sep && Lacks(values, c)
    ensures c !in Join(values, sep)
  {
    if |values| > 1 {
      JoinLacks(values[1..], sep, c);
      assert c !in values[0];
    }
  }

  ghost predicate PlainFields(fs: seq<Field>) {
    forall i :: 0 <= i < |fs| ==> '|' !in fs[i].key && Slugs(fs[i].values)
  }

  lemma {:induction false} PartsLackBar(fs: seq<Field>)
    requires PlainFields(fs)
    ensures Lacks(Parts(fs), '|')
  {
    if fs != [] {
      PartsLackBar(fs[1..]);
      JoinLacks(fs[0].values, '+', '|');
    }
  }

  // No string starts with both keys.
  ghost predicate Apart(a: string, b: string) {
    exists i :: 0 <= i < |a| && i < |b| && a[i] != b[i]
  }

  ghost predicate ApartKeys(fs: seq<Field>) {
    forall i, j :: 0 <= i < |fs| && 0 <= j < |fs| && i != j ==> Apart(fs[i].key, fs[j].key)
  }

  lemma {:induction false} LookupAbsent(fs: seq<Field>, key: string)
    requires forall i :: 0 <= i < |fs| ==> Apart(key, fs[i].key)
    ensures Lookup(Parts(fs), key) == []
  {
    if fs != [] {
      LookupAbsent(fs[1..], key);
      assert Apart(key, fs[0].key);
    }
  }

  lemma {:induction false} LookupPresent(fs: seq<Field>, i: nat)
    requires i < |fs| && PlainFields(fs) && ApartKeys(fs)
    ensures Lookup(Parts(fs), fs[i].key) == fs[i].values
  {
    if i > 0 {
      LookupPresent(fs[1..], i - 1);
      assert Apart(fs[i].key, fs[0].key);
    } else if fs[0].values == [] {
      LookupAbsent(fs[1..], fs[0].key);
    } else {
      var part := fs[0].key + Join(fs[0].values, '+');
      assert part[|fs[0].key|..] == Join(fs[0].values, '+');
      SplitJoin(fs[0].values, '+');
    }
  }

  // The first, second and eighth characters tell the six keys apart.
  lemma FieldKeysApart(g: GroupedDimensions)
    ensures ApartKeys(Fields(g))
  {
    hide Apart;
    var fs := Fields(g);
    assert fs[0].key[1] == 'p' && fs[5].key[1] == 't';
    assert fs[1].key[7] == 's' && fs[2].key[7] == 'g';
    forall i, j | 0 <= i < 6 && 0 <= j < 6 && i != j ensures Apart(fs[i].key, fs[j].key) {
      ApartAt(fs[i].key, fs[j].key,
              if fs[i].key[0] != fs[j].key[0] then 0 else if fs[i].key[1] != fs[j].key[1] then 1 else 7);
    }
  }

  lemma ApartAt(a: string, b: string, i: nat)
    requires i < |a| && i < |b| && a[i] != b[i]
    ensures Apart(a, b)
  {}

  lemma {:induction false} NoPartsNoValues(fs: seq<Field>, i: nat)
    requires i < |fs| && Parts(fs) == []
    ensures fs[i].values == []
  {
    if i > 0 { NoPartsNoValues(fs[1..], i - 1); }
  }

  lemma LookupInWildcard(key: string)
    requires key != "" && key[0] != 'w'
    ensures Lookup(["wildcard"], key) == []
  {
    assert "wildcard"[0] == 'w';
    assert Lookup(["wildcard"][1..], key) == [];
  }

  lemma WildcardHasNoFields(g: GroupedDimensions)
    requires Parts(Fields(g)) == []
    ensures Decode("wildcard") == g
  {
    SplitJoin(["wildcard"], '|');
    LookupInWildcard("projects:"); LookupInWildcard("projectgroups:"); LookupInWildcard("environments:");
    LookupInWildcard("tenants:"); LookupInWildcard("steps:"); LookupInWildcard("spaces:");
    var fs := Fields(g);
    NoPartsNoValues(fs, 0); NoPartsNoValues(fs, 1); NoPartsNoValues(fs, 2);
    NoPartsNoValues(fs, 3); NoPartsNoValues(fs, 4); NoPartsNoValues(fs, 5);
  }

  // The canonical string can be read back: omitted dimensions come back empty, and the
  // string of a group without values comes back as the group without values.
  lemma DecodeCanonical(g: GroupedDimensions)
    requires forall d: Dim :: Slugs(g.At(d))
    ensures Decode(Canonical(g)) == g
  {
    var fs := Fields(g);
    assert Slugs(g.At(0)) && Slugs(g.At(1)) && Slugs(g.At(2));
    assert Slugs(g.At(3)) && Slugs(g.At(4)) && Slugs(g.At(5));
    assert PlainFields(fs);
    if Parts(fs) == [] {
      WildcardHasNoFields(g);
    } else {
      PartsLackBar(fs);
      SplitJoin(Parts(fs), '|');
      FieldKeysApart(g);
      LookupPresent(fs, 0); LookupPresent(fs, 1); LookupPresent(fs, 2);
      LookupPresent(fs, 3); LookupPresent(fs, 4); LookupPresent(fs, 5);
    }
  }

  lemma CanonicalInjective(g: GroupedDimensions, h: GroupedDimensions)
    requires forall d: Dim :: Slugs(g.At(d)) && Slugs(h.At(d))
    requires Canonical(g) == Canonical(h)
    ensures g == h
  {
    DecodeCanonical(g);
    DecodeCanonical(h);
  }

  // ---- Joined key strings

  // The canonical key of a WSA set: its names sorted and joined (generator.go:256-265).
  function GroupKey(keys: set<Key>): string {
    Join(Sorted(set k | k in keys :: k.Str()), ',')
  }

  lemma StrInjective(a: Key, b: Key)
    requires PlainKey(a) && PlainKey(b) && a.Str() == b.Str()
    ensures a == b
  {
    assert a.Str()[|a.namespace|] == '/' && b.Str()[|b.namespace|] == '/';
    assert a.Str()[..|a.namespace|] == a.namespace && b.Str()[..|b.namespace|] == b.namespace;
    IndexOfUnique(a.Str(), '/', |a.namespace|);
    IndexOfUnique(b.Str(), '/', |b.namespace|);
    assert a.Str()[|a.namespace| + 1..] == a.name && b.Str()[|b.namespace| + 1..] == b.name;
  }

  lemma GroupKeyParses(keys: set<Key>)
    requires keys != {} && forall k :: k in keys ==> PlainKey(k)
    ensures Split(GroupKey(keys), ',') == Sorted(set k | k in keys :: k.Str())
  {
    var names := set k | k in keys :: k.Str();
    var k :| k in keys;
    assert k.Str() in names;
    assert forall n :: n in Sorted(names) ==> n in names && ',' !in n;
    SplitJoin(Sorted(names), ',');
  }

  // Two WSA sets share their key string iff they are the same set.
  lemma GroupKeyInjective(a: set<Key>, b: set<Key>)
    requires a != {} && b != {}
    requires forall k :: k in a || k in b ==> PlainKey(k)
    requires GroupKey(a) == GroupKey(b)
    ensures a == b
  {
    GroupKeyParses(a);
    GroupKeyParses(b);
    forall k | k in a || k in b ensures k in a && k in b {
      var sa, sb := set x | x in a :: x.Str(), set x | x in b :: x.Str();
      assert k.Str() in sa || k.Str() in sb;
      assert k.Str() in Sorted(sa) && k.Str() in Sorted(sb);
      var ka :| ka in a && ka.Str() == k.Str();
      var kb :| kb in b && kb.Str() == k.Str();
      StrInjective(ka, k);
      StrInjective(kb, k);
    }
  }
}
