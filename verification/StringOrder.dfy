/** The byte order of strings, and the sorted listing of a set of them. */
module StringOrder {

  predicate AtMost(a: string, b: string) {
    || a == []
    || (b != [] && (a[0] < b[0] || (a[0] == b[0] && AtMost(a[1..], b[1..]))))
  }

  lemma {:induction false} Total(a: string, b: string)
    ensures AtMost(a, b) || AtMost(b, a)
  {
    if a != [] && b != [] && a[0] == b[0] {
      Total(a[1..], b[1..]);
    }
  }

  lemma {:induction false} Antisymmetric(a: string, b: string)
    requires AtMost(a, b) && AtMost(b, a)
    ensures a == b
  {
    if a != [] {
      Antisymmetric(a[1..], b[1..]);
      assert a == [a[0]] + a[1..] && b == [b[0]] + b[1..];
    }
  }

  lemma {:induction false} Transitive(a: string, b: string, c: string)
    requires AtMost(a, b) && AtMost(b, c)
    ensures AtMost(a, c)
  {
    if a != [] && a[0] == b[0] && b[0] == c[0] {
      Transitive(a[1..], b[1..], c[1..]);
    }
  }

  ghost predicate Sorted(s: seq<string>) {
    forall i, j :: 0 <= i < j < |s| ==> AtMost(s[i], s[j]) && s[i] != s[j]
  }

  ghost predicate IsLeast(x: string, s: set<string>) {
    x in s && forall y :: y in s ==> AtMost(x, y)
  }

  lemma {:induction false} LeastExists(s: set<string>)
    requires s != {}
    ensures exists x :: IsLeast(x, s)
  {
    var x :| x in s;
    if s == {x} {
      Total(x, x);
      assert IsLeast(x, s);
    } else {
      LeastExists(s - {x});
      var y :| IsLeast(y, s - {x});
      Total(x, y);
      Total(x, x);
      if AtMost(x, y) {
        forall z | z in s
          ensures AtMost(x, z)
        {
          if z != x {
            Transitive(x, y, z);
          }
        }
        assert IsLeast(x, s);
      } else {
        assert IsLeast(y, s);
      }
    }
  }

  /** The strings of the set in ascending order. */
  ghost function Listing(s: set<string>): seq<string> {
    if s == {} then []
    else
      LeastExists(s);
      var x :| IsLeast(x, s);
      [x] + Listing(s - {x})
  }

  lemma {:induction false} ListingHas(s: set<string>, y: string)
    ensures y in Listing(s) <==> y in s
  {
    if s != {} {
      LeastExists(s);
      var x := Listing(s)[0];
      assert Listing(s) == [x] + Listing(s - {x});
      ListingHas(s - {x}, y);
    }
  }

  lemma {:induction false} ListingIsSorted(s: set<string>)
    ensures Sorted(Listing(s))
  {
    if s != {} {
      LeastExists(s);
      var x := Listing(s)[0];
      assert IsLeast(x, s) && Listing(s) == [x] + Listing(s - {x});
      ListingIsSorted(s - {x});
      forall j | 0 <= j < |Listing(s - {x})| ensures AtMost(x, Listing(s - {x})[j]) && x != Listing(s - {x})[j] {
        ListingHas(s - {x}, Listing(s - {x})[j]);
      }
    }
  }

  /** A sorted sequence is the listing of its elements, so sorting hides the order in which a
      map was walked. */
  lemma {:induction false} SortedIsListing(ids: seq<string>, s: set<string>)
    requires Sorted(ids) && forall y :: y in ids <==> y in s
    ensures ids == Listing(s)
  {
    assert ids != [] ==> ids[0] in s;
    if s != {} {
      var x := Listing(s)[0];
      LeastExists(s);
      assert IsLeast(x, s);
      assert x in ids;
      var k :| 0 <= k < |ids| && ids[k] == x;
      assert ids[0] in s;
      assert k == 0 || AtMost(ids[0], x);
      assert AtMost(x, ids[0]);
      if k != 0 {
        Antisymmetric(x, ids[0]);
      }
      assert forall y :: y in ids[1..] <==> y in s - {x};
      SortedIsListing(ids[1..], s - {x});
      assert ids == [x] + ids[1..];
    }
  }

  /** Inserts into a sorted sequence; sort.Strings sees each key once. */
  method Insert(sorted: seq<string>, x: string) returns (r: seq<string>)
    requires Sorted(sorted) && x !in sorted
    ensures Sorted(r)
    ensures forall y :: y in r <==> y == x || y in sorted
  {
    var i := 0;
    while i < |sorted| && AtMost(sorted[i], x)
      invariant 0 <= i <= |sorted|
      invariant forall k :: 0 <= k < i ==> AtMost(sorted[k], x)
    {
      i := i + 1;
    }
    if i < |sorted| {
      Total(sorted[i], x);
    }
    forall k | i <= k < |sorted|
      ensures AtMost(x, sorted[k])
    {
      if k > i {
        Transitive(x, sorted[i], sorted[k]);
      }
    }
    r := sorted[..i] + [x] + sorted[i..];
    assert sorted == sorted[..i] + sorted[i..];
  }

  method SortedKeys(keys: set<string>) returns (ids: seq<string>)
    ensures ids == Listing(keys)
  {
    ids := [];
    var rest := keys;
    while rest != {}
      invariant rest <= keys && Sorted(ids)
      invariant forall y :: y in ids <==> y in keys && y !in rest
    {
      var x :| x in rest;
      ids := Insert(ids, x);
      rest := rest - {x};
    }
    SortedIsListing(ids, keys);
  }
}
