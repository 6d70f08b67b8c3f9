// Strings as the generator uses them: a total order for slices.Sort, strings.Join,
// and a Split that undoes Join. Go compares strings by byte; on UTF-8 that is the
// order of code points used here.
module Text {

  // Strict lexicographic order.
  predicate Less(a: string, b: string) {
    if b == "" then false
    else if a == "" then true
    else if a[0] != b[0] then a[0] < b[0]
    else Less(a[1..], b[1..])
  }

  // The order of a dictionary: the first difference decides, and a proper prefix is less.
  lemma {:induction false} LessMeans(a: string, b: string)
    ensures Less(a, b) <==>
      || (|a| < |b| && a == b[..|a|])
      || exists i :: 0 <= i < |a| && i < |b| && a[..i] == b[..i] && a[i] < b[i]
  {
    if a == "" || b == "" {
    } else if a[0] != b[0] {
      assert a[..0] == b[..0];
      forall i | 0 < i < |a| && i < |b| ensures a[..i] != b[..i] {
        assert a[..i][0] != b[..i][0];
      }
    } else {
      var x, y := a[1..], b[1..];
      LessMeans(x, y);
      assert a == [a[0]] + x && b == [a[0]] + y;
      forall i | 0 <= i < |x| && i < |y|
        ensures a[..i+1] == b[..i+1] <==> x[..i] == y[..i]
      {
        assert a[..i+1] == [a[0]] + x[..i] && b[..i+1] == [a[0]] + y[..i];
        assert a[..i+1][1..] == x[..i] && b[..i+1][1..] == y[..i];
      }
      assert |a| <= |b| ==> b[..|a|] == [b[0]] + y[..|x|];
      if i :| 0 <= i < |a| && i < |b| && a[..i] == b[..i] && a[i] < b[i] {
        assert x[..i-1] == y[..i-1] && x[i-1] < y[i-1];
      }
      if i :| 0 <= i < |x| && i < |y| && x[..i] == y[..i] && x[i] < y[i] {
        assert a[..i+1] == b[..i+1] && a[i+1] < b[i+1];
      }
    }
  }

  lemma {:induction false} LessTotal(a: string, b: string)
    ensures Less(a, b) || a == b || Less(b, a)
  {
    if a != "" && b != "" && a[0] == b[0] {
      LessTotal(a[1..], b[1..]);
      assert a == [a[0]] + a[1..] && b == [b[0]] + b[1..];
    }
  }

  lemma {:induction false} LessAsymmetric(a: string, b: string)
    requires Less(a, b)
    ensures !Less(b, a) && a != b
  {
    if a != "" && a[0] == b[0] {
      LessAsymmetric(a[1..], b[1..]);
    }
  }

  lemma {:induction false} LessTransitive(a: string, b: string, c: string)
    requires Less(a, b) && Less(b, c)
    ensures Less(a, c)
  {
    if a != "" && a[0] == b[0] && b[0] == c[0] {
      LessTransitive(a[1..], b[1..], c[1..]);
    }
  }

  predicate IsLeast(m: string, xs: set<string>) {
    m in xs && forall x :: x in xs && x != m ==> Less(m, x)
  }

  lemma {:induction false} LeastExists(xs: set<string>)
    requires xs != {}
    ensures exists m :: IsLeast(m, xs)
  {
    var x :| x in xs;
    if xs == {x} {
      assert IsLeast(x, xs);
    } else {
      LeastExists(xs - {x});
      var rest :| IsLeast(rest, xs - {x});
      LessTotal(x, rest);
      if Less(x, rest) {
        forall y | y in xs && y != x ensures Less(x, y) {
          if y != rest { LessTransitive(x, rest, y); }
        }
        assert IsLeast(x, xs);
      } else {
        assert IsLeast(rest, xs);
      }
    }
  }

  lemma LeastUnique(xs: set<string>)
    ensures forall m, n :: IsLeast(m, xs) && IsLeast(n, xs) ==> m == n
  {
    forall m, n | IsLeast(m, xs) && IsLeast(n, xs) ensures m == n {
      if m != n { LessAsymmetric(m, n); }
    }
  }

  ghost predicate StrictlySorted(s: seq<string>) {
    forall i, j :: 0 <= i < j < |s| ==> Less(s[i], s[j])
  }

  // What Slice() followed by slices.Sort leaves of a set. SortedUnique shows that
  // there is one such sequence, whatever order Slice() chose.
  function Sorted(xs: set<string>): (r: seq<string>)
    ensures StrictlySorted(r)
    ensures forall x :: x in r <==> x in xs
  {
    if xs == {} then []
    else
      LeastExists(xs);
      LeastUnique(xs);
      var m :| IsLeast(m, xs);
      [m] + Sorted(xs - {m})
  }

  lemma {:induction false} SortedUnique(r: seq<string>, xs: set<string>)
    requires StrictlySorted(r)
    requires forall x :: x in r <==> x in xs
    ensures r == Sorted(xs)
  {
    if r == [] {
      assert xs == {};
    } else {
      assert r[0] in xs;
      forall x | x in xs && x != r[0] ensures Less(r[0], x) {
        var i :| 0 <= i < |r| && r[i] == x;
      }
      assert IsLeast(r[0], xs);
      LeastUnique(xs);
      forall x | x in r[1..] ensures x in xs - {r[0]} {
        var i :| 1 <= i < |r| && r[i] == x;
        LessAsymmetric(r[0], r[i]);
      }
      SortedUnique(r[1..], xs - {r[0]});
      assert r == [r[0]] + r[1..];
    }
  }

  // strings.Join with a one-character separator.
  function Join(parts: seq<string>, sep: char): string {
    if |parts| == 0 then ""
    else if |parts| == 1 then parts[0]
    else parts[0] + [sep] + Join(parts[1..], sep)
  }

  function IndexOf(s: string, c: char): (i: nat)
    ensures i <= |s|
    ensures c !in s[..i]
    ensures i < |s| ==> s[i] == c
  {
    if s == "" then 0
    else if s[0] == c then 0
    else
      assert forall i :: 0 <= i < |s| ==> s[..i+1] == [s[0]] + s[1..][..i];
      IndexOf(s[1..], c) + 1
  }

  // Inverse of Join: cut s at every separator.
  function Split(s: string, sep: char): (r: seq<string>)
    decreases |s|
  {
    var i := IndexOf(s, sep);
    if i == |s| then [s] else [s[..i]] + Split(s[i+1..], sep)
  }

  lemma IndexOfUnique(s: string, c: char, i: nat)
    requires i <= |s| && c !in s[..i] && (i < |s| ==> s[i] == c)
    ensures IndexOf(s, c) == i
  {}

  ghost predicate Lacks(parts: seq<string>, sep: char) {
    forall i :: 0 <= i < |parts| ==> sep !in parts[i]
  }

  lemma {:induction false} SplitJoin(parts: seq<string>, sep: char)
    requires |parts| > 0 && Lacks(parts, sep)
    ensures Split(Join(parts, sep), sep) == parts
  {
    var s := Join(parts, sep);
    if |parts| == 1 {
      assert s[..|s|] == s;
      IndexOfUnique(s, sep, |s|);
    } else {
      var i, rest := |parts[0]|, Join(parts[1..], sep);
      assert s == parts[0] + [sep] + rest;
      SplitJoin(parts[1..], sep);
      hide Join, IndexOf;
      assert s[..i] == parts[0] && s[i] == sep && s[i+1..] == rest;
      IndexOfUnique(s, sep, i);
      assert parts == [parts[0]] + parts[1..];
    }
  }
}
