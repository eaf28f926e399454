/** Numbers listed in ascending order. */
module Ordered {
  ghost predicate Ascends(r: seq<nat>) {
    forall j, k | 0 <= j < k < |r| :: r[j] < r[k]
  }

  /** There is one way to list a set in ascending order. */
  lemma {:induction false} OneAscendingOrder(a: seq<nat>, b: seq<nat>)
    requires Ascends(a) && Ascends(b) && forall i :: i in a <==> i in b
    ensures a == b
    decreases |a|
  {
    assert |b| == 0 || b[0] in b;
    if a != [] {
      var m, n := |a| - 1, |b| - 1;
      assert a[m] in b && b[n] in a;
      assert a[m] == b[n];
      forall i ensures i in a[..m] <==> i in b[..n] {
        if i in a[..m] { assert i in b && i != b[n]; }
        if i in b[..n] { assert i in a && i != a[m]; }
      }
      OneAscendingOrder(a[..m], b[..n]);
      assert a == a[..m] + [a[m]] && b == b[..n] + [b[n]];
    }
  }

  function Largest(s: set<nat>): (m: nat)
    requires s != {}
    ensures m in s && forall x | x in s :: x <= m
  {
    HasLargest(s);
    var m :| m in s && forall x | x in s :: x <= m;
    m
  }

  lemma {:induction false} HasLargest(s: set<nat>)
    requires s != {}
    ensures exists m :: m in s && forall x | x in s :: x <= m
  {
    var x :| x in s;
    var rest := s - {x};
    if rest == {} {
      forall y | y in s ensures y <= x {
        assert y == x || y in rest;
      }
    } else {
      HasLargest(rest);
      var m :| m in rest && forall y | y in rest :: y <= m;
      var top := if x > m then x else m;
      forall y | y in s ensures y <= top {
        assert y == x || y in rest;
      }
      assert top in s;
    }
  }

  /** A set in ascending order, as sorting its elements lists them. */
  function Ascending(s: set<nat>): (r: seq<nat>)
    ensures Ascends(r) && |r| == |s| && forall i :: i in r <==> i in s
  {
    if s == {} then []
    else
      var m := Largest(s);
      Ascending(s - {m}) + [m]
  }

  /** Cut in two, an ascending list has each number in one part alone. */
  lemma CutInTwo(q: seq<nat>, n: nat)
    requires Ascends(q) && n <= |q|
    ensures forall x :: x in q[n..] <==> x in q && x !in q[..n]
  {
    assert q == q[..n] + q[n..];
  }
}
