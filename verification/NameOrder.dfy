/** Sorting service names by code point, as a stand-in for the library sort of strings. */
module NameOrder {
  import opened Digraph

  predicate NameLeq(a: string, b: string) {
    a == [] || (b != [] && (a[0] < b[0] || (a[0] == b[0] && NameLeq(a[1..], b[1..]))))
  }

  /** At the first place where two names differ the smaller one has the smaller character, or has ended. */
  ghost predicate Before(a: string, b: string, k: nat) {
    k <= |a| && k < |b| && a[..k] == b[..k] && (k < |a| ==> a[k] < b[k])
  }

  lemma BeforeStarts(a: string, b: string, k: nat)
    requires a != []
    ensures Before(a, b, k) ==> b != [] && (if k == 0 then a[0] < b[0] else a[0] == b[0])
  {
    if Before(a, b, k) && k > 0 { assert a[..k][0] == b[..k][0]; }
  }

  lemma {:induction false} NameLeqIsLexicographic(a: string, b: string)
    ensures NameLeq(a, b) <==> a == b || exists k: nat :: Before(a, b, k)
  {
    if a == [] {
      assert a == b || Before(a, b, 0);
    } else if b != [] && a[0] == b[0] {
      NameLeqIsLexicographic(a[1..], b[1..]);
      assert a == [a[0]] + a[1..] && b == [b[0]] + b[1..];
      if k: nat :| Before(a[1..], b[1..], k) {
        assert a[..k + 1] == [a[0]] + a[1..][..k] && b[..k + 1] == [b[0]] + b[1..][..k];
        assert Before(a, b, k + 1);
      }
      if k: nat :| Before(a, b, k) {
        BeforeStarts(a, b, k);
        assert a[1..][..k - 1] == a[..k][1..] && b[1..][..k - 1] == b[..k][1..];
        assert Before(a[1..], b[1..], k - 1);
      }
    } else if b != [] && a[0] < b[0] {
      assert Before(a, b, 0);
    } else {
      forall k: nat ensures !Before(a, b, k) { BeforeStarts(a, b, k); }
    }
  }

  predicate Sorted(names: seq<string>) {
    forall i, j :: 0 <= i < j < |names| ==> NameLeq(names[i], names[j])
  }

  lemma {:induction false} NameLeqTotal(a: string, b: string)
    ensures NameLeq(a, b) || NameLeq(b, a)
  {
    if a != [] && b != [] && a[0] == b[0] { NameLeqTotal(a[1..], b[1..]); }
  }

  lemma {:induction false} NameLeqTrans(a: string, b: string, c: string)
    requires NameLeq(a, b) && NameLeq(b, c)
    ensures NameLeq(a, c)
  {
    if a != [] && b != [] && c != [] && a[0] == b[0] == c[0] { NameLeqTrans(a[1..], b[1..], c[1..]); }
  }

  lemma {:induction false} NameLeqAntisym(a: string, b: string)
    requires NameLeq(a, b) && NameLeq(b, a)
    ensures a == b
  {
    if a != [] && b != [] && a[0] == b[0] {
      NameLeqAntisym(a[1..], b[1..]);
      assert a == [a[0]] + a[1..] && b == [b[0]] + b[1..];
    }
  }

  method Insert(names: seq<string>, x: string) returns (r: seq<string>)
    requires Sorted(names) && Distinct(names) && x !in names
    ensures Sorted(r) && Distinct(r) && forall n :: n in r <==> n == x || n in names
  {
    var k := |names|;
    while k > 0 && !NameLeq(names[k - 1], x)
      invariant 0 <= k <= |names| && forall i :: k <= i < |names| ==> NameLeq(x, names[i])
    {
      NameLeqTotal(names[k - 1], x);
      k := k - 1;
    }
    forall i | 0 <= i < k ensures NameLeq(names[i], x) {
      if i < k - 1 { NameLeqTrans(names[i], names[k - 1], x); }
    }
    r := names[..k] + [x] + names[k..];
  }

  method SortNames(names: seq<string>) returns (r: seq<string>)
    requires Distinct(names)
    ensures Sorted(r) && Distinct(r) && forall n :: n in r <==> n in names
  {
    r := [];
    for i := 0 to |names|
      invariant Sorted(r) && Distinct(r) && forall n :: n in r <==> n in names[..i]
    {
      assert names[i] !in names[..i];
      assert names[..i + 1] == names[..i] + [names[i]];
      r := Insert(r, names[i]);
    }
    assert names[..|names|] == names;
  }

  /** The sorted arrangement of a set of names is unique. */
  lemma {:induction false} SortedUnique(a: seq<string>, b: seq<string>)
    requires Sorted(a) && Sorted(b) && Distinct(a) && Distinct(b) && forall n :: n in a <==> n in b
    ensures a == b
  {
    if a != [] || b != [] {
      assert a != [] ==> a[0] in b;
      assert b != [] ==> b[0] in a;
      assert a[0] in b && b[0] in a;
      var i :| 0 <= i < |b| && b[i] == a[0];
      var j :| 0 <= j < |a| && a[j] == b[0];
      if i > 0 && j > 0 { NameLeqAntisym(a[0], b[0]); }
      assert a[0] == b[0];
      forall n ensures n in a[1..] <==> n in b[1..] {
        assert n in a[1..] <==> n in a && n != a[0];
        assert n in b[1..] <==> n in b && n != b[0];
      }
      SortedUnique(a[1..], b[1..]);
    }
  }
}
