/** Sets of integers listed in increasing order. */
module IntOrder {

  ghost predicate Increasing(s: seq<int>) {
    forall i, j :: 0 <= i < j < |s| ==> s[i] < s[j]
  }

  /** A set has one increasing list. */
  lemma {:induction false} IncreasingIsUnique(a: seq<int>, b: seq<int>)
    requires Increasing(a) && Increasing(b) && forall x :: x in a <==> x in b
    ensures a == b
  {
    assert a != [] ==> a[0] in a && a[0] in b;
    assert b != [] ==> b[0] in b && b[0] in a;
    if a != [] {
      SameHead(a, b);
      SameHead(b, a);
      forall x ensures x in a[1..] <==> x in b[1..] {
        InTail(a, x);
        InTail(b, x);
      }
      IncreasingIsUnique(a[1..], b[1..]);
      assert a == [a[0]] + a[1..] && b == [b[0]] + b[1..];
    }
  }

  lemma SameHead(a: seq<int>, b: seq<int>)
    requires Increasing(a) && a != [] && b != [] && b[0] in a
    ensures a[0] <= b[0]
  {
    var i :| 0 <= i < |a| && a[i] == b[0];
  }

  lemma InTail(a: seq<int>, x: int)
    requires Increasing(a) && a != []
    ensures x in a[1..] <==> x in a && x != a[0]
  {
    if x in a[1..] {
      var i :| 0 <= i < |a[1..]| && a[1..][i] == x;
      assert a[i + 1] == x;
    }
    if x in a && x != a[0] {
      var i :| 0 <= i < |a| && a[i] == x;
      assert a[1..][i - 1] == x;
    }
  }

  lemma InsertedIsIncreasing(sorted: seq<int>, x: int, i: nat)
    requires Increasing(sorted) && i <= |sorted|
    requires (forall k :: 0 <= k < i ==> sorted[k] < x) && (i < |sorted| ==> x < sorted[i])
    ensures Increasing(sorted[..i] + [x] + sorted[i..])
  {
    var r := sorted[..i] + [x] + sorted[i..];
    forall j, k | 0 <= j < k < |r| ensures r[j] < r[k] {
      assert r[j] == if j < i then sorted[j] else if j == i then x else sorted[j - 1];
      assert r[k] == if k < i then sorted[k] else if k == i then x else sorted[k - 1];
    }
  }

  lemma InsertedHolds(sorted: seq<int>, x: int, i: nat, y: int)
    requires i <= |sorted|
    ensures y in sorted[..i] + [x] + sorted[i..] <==> y == x || y in sorted
  {
    assert sorted == sorted[..i] + sorted[i..];
  }

  method Insert(sorted: seq<int>, x: int) returns (r: seq<int>)
    requires Increasing(sorted) && x !in sorted
    ensures Increasing(r) && forall y :: y in r <==> y == x || y in sorted
  {
    var i := 0;
    while i < |sorted| && sorted[i] < x
      invariant 0 <= i <= |sorted|
      invariant forall k :: 0 <= k < i ==> sorted[k] < x
    {
      i := i + 1;
    }
    r := sorted[..i] + [x] + sorted[i..];
    InsertedIsIncreasing(sorted, x, i);
    forall y ensures y in r <==> y == x || y in sorted {
      InsertedHolds(sorted, x, i, y);
    }
  }

  lemma Inhabited(s: set<int>)
    ensures s == {} || exists x :: x in s
  {
    if forall x :: x !in s {
      assert s == {};
    }
  }

  /** The elements of a set, collected in any order and then sorted. */
  method SortedInts(keys: set<int>) returns (indices: seq<int>)
    ensures Increasing(indices) && forall i :: i in indices <==> i in keys
  {
    indices := [];
    var left := keys;
    while left != {}
      invariant left <= keys && Increasing(indices)
      invariant forall i :: i in indices <==> i in keys && i !in left
    {
      Inhabited(left);
      var x :| x in left;
      indices := Insert(indices, x);
      left := left - {x};
    }
  }
}
