/** Small shared vocabulary: optional values, finite-set counting and sequence helpers. */
module Basics {

  datatype Option<+T> = None | Some(value: T)

  function Min(a: int, b: int): int { if a <= b then a else b }

  function Max(a: int, b: int): int { if a >= b then a else b }

  /** Two sets that agree outside x differ in size by x alone. */
  lemma SameButOne<T(!new)>(a: set<T>, b: set<T>, x: T)
    requires forall y :: y != x ==> (y in a <==> y in b)
    ensures |b| - (if x in b then 1 else 0) == |a| - (if x in a then 1 else 0)
  {
    assert a - {x} == b - {x};
    if x !in a { assert a - {x} == a; }
    if x !in b { assert b - {x} == b; }
  }

  lemma SubsetSize<T>(a: set<T>, b: set<T>)
    requires a <= b
    ensures |a| <= |b|
  {
    assert b == a + (b - a);
  }

  ghost predicate NoDuplicates<T(!new)>(s: seq<T>) {
    forall i, j :: 0 <= i < j < |s| ==> s[i] != s[j]
  }

  /** Removes the first occurrence of x, as indexOf followed by splice does. */
  function Without<T(==)>(s: seq<T>, x: T): (r: seq<T>) {
    if s == [] then []
    else if s[0] == x then s[1..]
    else [s[0]] + Without(s[1..], x)
  }

  lemma {:induction false} WithoutRemovesOne<T(!new)>(s: seq<T>, x: T)
    requires NoDuplicates(s)
    ensures NoDuplicates(Without(s, x))
    ensures forall y :: y in Without(s, x) <==> y in s && y != x
    ensures x in s ==> |Without(s, x)| == |s| - 1
    ensures x !in s ==> Without(s, x) == s
  {
    if s == [] {
    } else {
      var t := s[1..];
      assert s == [s[0]] + t;
      assert s[0] !in t;
      assert NoDuplicates(t);
      WithoutRemovesOne(t, x);
    }
  }

  /** A queued element never moves back when another one leaves. */
  lemma {:induction false} WithoutKeepsOrder<T(!new)>(s: seq<T>, x: T, k: nat)
    requires k < |s| && s[k] != x
    ensures exists j :: 0 <= j <= k && j < |Without(s, x)| && Without(s, x)[j] == s[k]
  {
    var w := Without(s, x);
    if s[0] == x {
      assert w[k - 1] == s[k];
    } else if k == 0 {
      assert w[0] == s[k];
    } else {
      WithoutKeepsOrder(s[1..], x, k - 1);
      var j :| 0 <= j <= k - 1 && j < |Without(s[1..], x)| && Without(s[1..], x)[j] == s[1..][k - 1];
      assert w[j + 1] == s[k];
    }
  }

  /** A number above all of these. */
  lemma {:induction false} FreshNumber(used: set<nat>) returns (n: nat)
    ensures forall x :: x in used ==> x < n
    decreases used
  {
    if used == {} {
      n := 0;
    } else {
      var x :| x in used;
      var m := FreshNumber(used - {x});
      n := if m <= x then x + 1 else m;
      assert forall y :: y in used ==> y == x || y in used - {x};
    }
  }
}
