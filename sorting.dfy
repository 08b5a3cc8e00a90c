/**
 * `Array.prototype.sort(compareFn)`, modelled as a stable in-place insertion
 * sort: an element moves left while the comparator says its left neighbour
 * belongs after it (result > 0). A result of 0, or a `NaN` (which the
 * comparators here map to 0), keeps the order.
 */
module Sorting {

  /** The reference definition: insert each element, in order, into the
      sorted prefix, scanning from the right. */
  function SortSeq<T>(s: seq<T>, cmp: (T, T) -> int): (r: seq<T>)
    ensures |r| == |s|
  {
    if s == [] then [] else Insert(SortSeq(s[..|s| - 1], cmp), s[|s| - 1], cmp)
  }

  function Insert<T>(s: seq<T>, x: T, cmp: (T, T) -> int): (r: seq<T>)
    ensures |r| == |s| + 1
  {
    if s == [] then [x]
    else if cmp(s[|s| - 1], x) > 0 then Insert(s[..|s| - 1], x, cmp) + [s[|s| - 1]]
    else s + [x]
  }

  /** Sorts `a` in place. */
  method SortInPlace<T>(a: array<T>, cmp: (T, T) -> int)
    modifies a
    ensures a[..] == SortSeq(old(a[..]), cmp)
  {
    ghost var input := a[..];
    var i := 0;
    while i < a.Length
      invariant 0 <= i <= a.Length
      invariant a[..i] == SortSeq(input[..i], cmp)
      invariant a[i..] == input[i..]
    {
      assert input[..i + 1] == input[..i] + [input[i]];
      InsertNext(a, i, cmp);
      i := i + 1;
    }
    assert input[..a.Length] == input;
  }

  /** Moves `a[i]` left into the sorted prefix `a[..i]`. */
  method InsertNext<T>(a: array<T>, i: nat, cmp: (T, T) -> int)
    requires i < a.Length
    modifies a
    ensures a[..i + 1] == Insert(old(a[..i]), old(a[i]), cmp)
    ensures a[i + 1..] == old(a[i + 1..])
  {
    ghost var sorted := a[..i];
    var x := a[i];
    var j := i;
    while j > 0 && cmp(a[j - 1], x) > 0
      invariant 0 <= j <= i
      invariant forall k :: 0 <= k < j ==> a[k] == sorted[k]
      invariant forall k :: j < k <= i ==> a[k] == sorted[k - 1]
      invariant forall k :: j <= k < i ==> cmp(sorted[k], x) > 0
      invariant a[i + 1..] == old(a[i + 1..])
    {
      a[j] := a[j - 1];
      j := j - 1;
    }
    a[j] := x;
    Placed(a[..i + 1], sorted, j, x);
    InsertShifted(sorted, j, x, cmp);
  }

  /** The array after the inner loop: the prefix before `j`, then `x`, then
      the shifted rest. */
  lemma Placed<T>(b: seq<T>, sorted: seq<T>, j: nat, x: T)
    requires |b| == |sorted| + 1 && j <= |sorted|
    requires forall k :: 0 <= k < j ==> b[k] == sorted[k]
    requires b[j] == x
    requires forall k :: j < k < |b| ==> b[k] == sorted[k - 1]
    ensures b == sorted[..j] + [x] + sorted[j..]
  {
  }

  /** Where the inner loop stops, the element goes: after the elements that
      do not belong after it, before those that do. */
  lemma {:induction false} InsertShifted<T>(sorted: seq<T>, j: nat, x: T, cmp: (T, T) -> int)
    requires j <= |sorted|
    requires j == 0 || cmp(sorted[j - 1], x) <= 0
    requires forall k :: j <= k < |sorted| ==> cmp(sorted[k], x) > 0
    ensures Insert(sorted, x, cmp) == sorted[..j] + [x] + sorted[j..]
    decreases |sorted|
  {
    if j < |sorted| {
      var init := sorted[..|sorted| - 1];
      assert forall k :: 0 <= k < |init| ==> init[k] == sorted[k];
      InsertShifted(init, j, x, cmp);
      ShiftStep(sorted, j, x, cmp);
    } else if sorted != [] {
      assert sorted[..j] == sorted && sorted[j..] == [];
    }
  }

  /** The induction step of `InsertShifted`: the last element belongs after
      `x`, so it stays last. */
  lemma ShiftStep<T>(sorted: seq<T>, j: nat, x: T, cmp: (T, T) -> int)
    requires j < |sorted| && cmp(sorted[|sorted| - 1], x) > 0
    requires var init := sorted[..|sorted| - 1];
             Insert(init, x, cmp) == init[..j] + [x] + init[j..]
    ensures Insert(sorted, x, cmp) == sorted[..j] + [x] + sorted[j..]
  {
    var init, last := sorted[..|sorted| - 1], sorted[|sorted| - 1];
    assert init[..j] == sorted[..j];
    assert sorted[j..] == init[j..] + [last];
  }

  /** Sorting rearranges: no element is added or dropped. */
  lemma {:induction false} SortSeqPermutes<T>(s: seq<T>, cmp: (T, T) -> int)
    ensures multiset(SortSeq(s, cmp)) == multiset(s)
  {
    if s != [] {
      SortSeqPermutes(s[..|s| - 1], cmp);
      InsertAdds(SortSeq(s[..|s| - 1], cmp), s[|s| - 1], cmp);
      assert s == s[..|s| - 1] + [s[|s| - 1]];
    }
  }

  lemma {:induction false} InsertAdds<T>(s: seq<T>, x: T, cmp: (T, T) -> int)
    ensures multiset(Insert(s, x, cmp)) == multiset(s) + multiset{x}
  {
    if s != [] {
      assert s == s[..|s| - 1] + [s[|s| - 1]];
      if cmp(s[|s| - 1], x) > 0 {
        InsertAdds(s[..|s| - 1], x, cmp);
      }
    }
  }

  /** `cmp` orders consistently: it never puts each of two elements after
      the other, and "not after" is transitive. */
  ghost predicate Consistent<T(!new)>(cmp: (T, T) -> int) {
    (forall x, y :: cmp(x, y) > 0 ==> cmp(y, x) <= 0)
    && (forall x, y, z :: cmp(x, y) <= 0 && cmp(y, z) <= 0 ==> cmp(x, z) <= 0)
  }

  /** `cmp` orders the elements of `s` consistently; elements outside `s`
      may be compared in any way. */
  ghost predicate ConsistentOn<T>(cmp: (T, T) -> int, s: seq<T>) {
    (forall x, y :: x in s && y in s && cmp(x, y) > 0 ==> cmp(y, x) <= 0)
    && (forall x, y, z :: x in s && y in s && z in s && cmp(x, y) <= 0 && cmp(y, z) <= 0 ==> cmp(x, z) <= 0)
  }

  /** A comparator that never asks for a swap within `s` leaves it as it is. */
  lemma {:induction false} NoSwapKeepsOrder<T>(s: seq<T>, cmp: (T, T) -> int)
    requires forall a, b :: a in s && b in s ==> cmp(a, b) <= 0
    ensures SortSeq(s, cmp) == s
  {
    if s != [] {
      var init, x := s[..|s| - 1], s[|s| - 1];
      assert forall a :: a in init ==> a in s;
      NoSwapKeepsOrder(init, cmp);
      assert x in s;
      if init != [] {
        assert init[|init| - 1] in s;
      }
      assert s == init + [x];
    }
  }

  /** Every element is "not after" every later one. */
  ghost predicate SortedBy<T>(s: seq<T>, cmp: (T, T) -> int) {
    forall i, j :: 0 <= i < j < |s| ==> cmp(s[i], s[j]) <= 0
  }

  /** With a comparator consistent on the input the result is sorted. */
  lemma {:induction false} SortSeqSorts<T>(s: seq<T>, cmp: (T, T) -> int)
    requires ConsistentOn(cmp, s)
    ensures SortedBy(SortSeq(s, cmp), cmp)
  {
    if s != [] {
      var init := s[..|s| - 1];
      assert forall y :: y in init ==> y in s;
      SortSeqSorts(init, cmp);
      SortSeqPermutes(init, cmp);
      assert forall y :: y in SortSeq(init, cmp) ==> y in init by {
        forall y | y in SortSeq(init, cmp)
          ensures y in init
        {
          assert y in multiset(SortSeq(init, cmp));
        }
      }
      InsertSorts(SortSeq(init, cmp), s[|s| - 1], cmp, s);
    }
  }

  lemma {:induction false} InsertSorts<T>(s: seq<T>, x: T, cmp: (T, T) -> int, dom: seq<T>)
    requires ConsistentOn(cmp, dom)
    requires forall y :: y in s ==> y in dom
    requires x in dom
    requires SortedBy(s, cmp)
    ensures SortedBy(Insert(s, x, cmp), cmp)
  {
    if s != [] {
      var init, last := s[..|s| - 1], s[|s| - 1];
      assert last in s;
      if cmp(last, x) > 0 {
        assert forall y :: y in init ==> y in s;
        assert SortedBy(init, cmp) by {
          forall i, j | 0 <= i < j < |init|
            ensures cmp(init[i], init[j]) <= 0
          {
            assert init[i] == s[i] && init[j] == s[j];
          }
        }
        InsertSorts(init, x, cmp, dom);
        assert cmp(x, last) <= 0;
        assert forall m :: 0 <= m < |init| ==> cmp(init[m], last) <= 0 by {
          forall m | 0 <= m < |init|
            ensures cmp(init[m], last) <= 0
          {
            assert init[m] == s[m];
          }
        }
        InsertBelow(init, x, last, cmp);
        SortedSnoc(Insert(init, x, cmp), last, cmp);
      } else {
        forall k | 0 <= k < |s|
          ensures cmp(s[k], x) <= 0
        {
          if k < |s| - 1 {
            assert cmp(s[k], last) <= 0;
            assert s[k] in dom;
          }
        }
        SortedSnoc(s, x, cmp);
      }
    }
  }

  /** Appending an element no earlier element is after keeps the order. */
  lemma SortedSnoc<T>(s: seq<T>, y: T, cmp: (T, T) -> int)
    requires SortedBy(s, cmp)
    requires forall k :: 0 <= k < |s| ==> cmp(s[k], y) <= 0
    ensures SortedBy(s + [y], cmp)
  {
    var r := s + [y];
    forall i, j | 0 <= i < j < |r|
      ensures cmp(r[i], r[j]) <= 0
    {
      assert r[i] == s[i];
      if j < |s| {
        assert r[j] == s[j];
      }
    }
  }

  /** Inserting an element that is not after `bound` into elements that are
      not after it keeps them all not after it. */
  lemma {:induction false} InsertBelow<T>(s: seq<T>, x: T, bound: T, cmp: (T, T) -> int)
    requires forall m :: 0 <= m < |s| ==> cmp(s[m], bound) <= 0
    requires cmp(x, bound) <= 0
    ensures forall k :: 0 <= k < |s| + 1 ==> cmp(Insert(s, x, cmp)[k], bound) <= 0
  {
    if s != [] && cmp(s[|s| - 1], x) > 0 {
      InsertBelow(s[..|s| - 1], x, bound, cmp);
    }
  }
}
