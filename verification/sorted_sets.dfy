/**
  `sorted(set(xs))` over reals: the strictly ascending list of the distinct
  values of xs. `SortedSet` builds it by insertion; `SortedUnique` shows
  that the contract pins the result down completely, so any strictly
  ascending list with the same elements is the same list.
 */
module SortedSets {

  predicate StrictlyAscending(s: seq<real>) {
    forall i, j :: 0 <= i < j < |s| ==> s[i] < s[j]
  }

  predicate StrictlyDescending(s: seq<real>) {
    forall i, j :: 0 <= i < j < |s| ==> s[i] > s[j]
  }

  /** Insert x into an ascending duplicate-free list, dropping it if already present. */
  function Insert(s: seq<real>, x: real): (r: seq<real>)
    requires StrictlyAscending(s)
    ensures StrictlyAscending(r)
    ensures forall y :: y in r <==> y in s || y == x
  {
    if |s| == 0 then [x]
    else if x < s[0] then [x] + s
    else if x == s[0] then s
    else
      var rest := Insert(s[1..], x);
      assert forall y :: y in s <==> y == s[0] || y in s[1..];
      forall y | y in rest
        ensures s[0] < y
      {
        if y in s[1..] {
          var k :| 0 <= k < |s[1..]| && s[1..][k] == y;
          assert s[k + 1] == y;
        }
      }
      var r := [s[0]] + rest;
      assert forall j :: 0 < j < |r| ==> r[j] == rest[j - 1] && r[j] in rest;
      r
  }

  /** The distinct values of xs in ascending order. */
  function SortedSet(xs: seq<real>): (r: seq<real>)
    ensures StrictlyAscending(r)
    ensures forall y :: y in r <==> y in xs
    ensures |r| <= |xs|
  {
    if |xs| == 0 then []
    else
      var init := xs[..|xs| - 1];
      assert xs == init + [xs[|xs| - 1]];
      var r := Insert(SortedSet(init), xs[|xs| - 1]);
      DistinctBound(r, xs);
      r
  }

  /** A duplicate-free list of values of xs is no longer than xs. */
  lemma {:induction false} DistinctBound(r: seq<real>, xs: seq<real>)
    requires StrictlyAscending(r)
    requires forall y :: y in r ==> y in xs
    ensures |r| <= |xs|
  {
    if |r| > 0 {
      var x := r[|r| - 1];
      assert x in r;
      var k :| 0 <= k < |xs| && xs[k] == x;
      var xs' := xs[..k] + xs[k + 1..];
      assert xs == xs[..k] + [x] + xs[k + 1..];
      forall y | y in r[..|r| - 1]
        ensures y in xs'
      {
        assert y in xs && y != x;
      }
      DistinctBound(r[..|r| - 1], xs');
    }
  }

  /** A strictly ascending list is determined by its set of elements. */
  lemma {:induction false} SortedUnique(a: seq<real>, b: seq<real>)
    requires StrictlyAscending(a) && StrictlyAscending(b)
    requires forall y :: y in a <==> y in b
    ensures a == b
  {
    if |a| > 0 {
      assert a[0] in a;
    }
    if |b| > 0 {
      assert b[0] in b;
    }
    if |a| == 0 {
      // Then b has no member either, so it is empty too.
    } else {
      // Both heads are the least element of the common set.
      assert b[0] in b && a[0] in a;
      var j :| 0 <= j < |b| && b[j] == a[0];
      assert b[0] <= b[j];
      var i :| 0 <= i < |a| && a[i] == b[0];
      assert a[0] <= a[i];
      forall y
        ensures y in a[1..] <==> y in b[1..]
      {
        if y in a[1..] {
          assert y in b && y != b[0];
        }
        if y in b[1..] {
          assert y in a && y != a[0];
        }
      }
      SortedUnique(a[1..], b[1..]);
      assert a == [a[0]] + a[1..] && b == [b[0]] + b[1..];
    }
  }

  /** sorted(set(xs)) of a list already strictly ascending is the list itself. */
  lemma SortedSetOfAscending(xs: seq<real>)
    requires StrictlyAscending(xs)
    ensures SortedSet(xs) == xs
  {
    SortedUnique(SortedSet(xs), xs);
  }

  function Reverse(s: seq<real>): (r: seq<real>)
    ensures |r| == |s|
    ensures forall i :: 0 <= i < |s| ==> r[i] == s[|s| - 1 - i]
  {
    if |s| == 0 then [] else Reverse(s[1..]) + [s[0]]
  }

  /** sorted(set(xs)) of a strictly descending list is its reverse. */
  lemma SortedSetOfDescending(xs: seq<real>)
    requires StrictlyDescending(xs)
    ensures SortedSet(xs) == Reverse(xs)
  {
    var r := Reverse(xs);
    forall y
      ensures y in r <==> y in xs
    {
      if y in xs {
        var i :| 0 <= i < |xs| && xs[i] == y;
        assert r[|xs| - 1 - i] == y;
      }
    }
    SortedUnique(SortedSet(xs), r);
  }

  /** sorted(set(xs)) of a list whose elements are all equal to x is [x]. */
  lemma SortedSetOfConstant(xs: seq<real>, x: real)
    requires |xs| > 0
    requires forall i :: 0 <= i < |xs| ==> xs[i] == x
    ensures SortedSet(xs) == [x]
  {
    assert xs[0] == x;
    SortedUnique(SortedSet(xs), [x]);
  }
}
