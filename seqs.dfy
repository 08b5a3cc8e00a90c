/**
 * Sequence operations the source gets from JavaScript's Array methods
 * (`filter`, `find`, `flat`, insertion-ordered `Map` keys), with the facts the
 * rest of the model uses about them.
 */
module Seqs {

  /** `s.filter(p)`: the elements of `s` that satisfy `p`, in their order. */
  function Filter<T>(s: seq<T>, p: T -> bool): (r: seq<T>)
    ensures |r| <= |s|
    ensures forall i :: 0 <= i < |r| ==> p(r[i])
  {
    if s == [] then []
    else (if p(s[0]) then [s[0]] else []) + Filter(s[1..], p)
  }

  /** An element is kept exactly when it is in `s` and satisfies `p`. */
  lemma {:induction false} FilterMembers<T>(s: seq<T>, p: T -> bool)
    ensures forall x :: x in Filter(s, p) <==> x in s && p(x)
  {
    if s != [] {
      FilterMembers(s[1..], p);
      assert forall x :: x in s <==> x == s[0] || x in s[1..];
    }
  }

  lemma ConcatIndex<T>(a: seq<T>, b: seq<T>, k: nat)
    requires |a| <= k < |a| + |b|
    ensures (a + b)[k] == b[k - |a|]
  {
  }

  lemma ConcatAssoc<T>(a: seq<T>, b: seq<T>, c: seq<T>)
    ensures a + b + c == a + (b + c)
  {
  }

  /** `r` is an order-preserving subsequence of `s`. */
  predicate IsSubsequence<T(==)>(r: seq<T>, s: seq<T>)
    decreases |s|
  {
    if r == [] then true
    else if s == [] then false
    else if r[0] == s[0] then IsSubsequence(r[1..], s[1..])
    else IsSubsequence(r, s[1..])
  }

  lemma {:induction false} FilterIsSubsequence<T>(s: seq<T>, p: T -> bool)
    ensures IsSubsequence(Filter(s, p), s)
  {
    if s != [] {
      FilterIsSubsequence(s[1..], p);
      if p(s[0]) {
        assert Filter(s, p) == [s[0]] + Filter(s[1..], p);
        assert Filter(s, p)[1..] == Filter(s[1..], p);
      } else {
        assert Filter(s, p) == Filter(s[1..], p);
        SubsequenceSkip(Filter(s[1..], p), s);
      }
    }
  }

  /** A subsequence of the tail is a subsequence of the whole. */
  lemma {:induction false} SubsequenceSkip<T>(r: seq<T>, s: seq<T>)
    requires s != []
    requires IsSubsequence(r, s[1..])
    ensures IsSubsequence(r, s)
    decreases |s|, 0
  {
    if r != [] && r[0] == s[0] {
      SubsequenceTail(r, s[1..]);
    }
  }

  /** Dropping the head of a non-empty subsequence keeps it a subsequence. */
  lemma {:induction false} SubsequenceTail<T>(r: seq<T>, s: seq<T>)
    requires r != []
    requires IsSubsequence(r, s)
    ensures IsSubsequence(r[1..], s)
    decreases |s|, 1
  {
    if r[0] == s[0] {
      SubsequenceSkip(r[1..], s);
    } else {
      SubsequenceTail(r, s[1..]);
      SubsequenceSkip(r[1..], s);
    }
  }

  lemma {:induction false} FilterConcat<T>(a: seq<T>, b: seq<T>, p: T -> bool)
    ensures Filter(a + b, p) == Filter(a, p) + Filter(b, p)
  {
    if a == [] {
      assert a + b == b;
    } else {
      assert (a + b)[0] == a[0];
      assert (a + b)[1..] == a[1..] + b;
      FilterConcat(a[1..], b, p);
    }
  }

  /** Filtering a prefix one element longer: the form a left-to-right loop needs. */
  lemma FilterSnoc<T>(s: seq<T>, i: nat, p: T -> bool)
    requires i < |s|
    ensures Filter(s[..i + 1], p) == Filter(s[..i], p) + (if p(s[i]) then [s[i]] else [])
  {
    assert s[..i + 1] == s[..i] + [s[i]];
    FilterConcat(s[..i], [s[i]], p);
  }

  lemma {:induction false} FilterTrue<T>(s: seq<T>, p: T -> bool)
    requires forall x :: x in s ==> p(x)
    ensures Filter(s, p) == s
  {
    if s != [] {
      FilterTrue(s[1..], p);
    }
  }

  lemma {:induction false} FilterFalse<T>(s: seq<T>, p: T -> bool)
    requires forall x :: x in s ==> !p(x)
    ensures Filter(s, p) == []
  {
    if s != [] {
      FilterFalse(s[1..], p);
    }
  }

  /** Filtering by `p` and then by `q` is filtering by both. */
  lemma {:induction false} FilterFilter<T>(s: seq<T>, p: T -> bool, q: T -> bool, pq: T -> bool)
    requires forall x :: pq(x) == (p(x) && q(x))
    ensures Filter(Filter(s, p), q) == Filter(s, pq)
  {
    if s != [] {
      FilterFilter(s[1..], p, q, pq);
      var head := if p(s[0]) then [s[0]] else [];
      assert Filter(s, p) == head + Filter(s[1..], p);
      FilterConcat(head, Filter(s[1..], p), q);
      assert Filter(head, q) == if pq(s[0]) then [s[0]] else [] by {
        if p(s[0]) {
          assert Filter(head, q) == (if q(s[0]) then [s[0]] else []) + Filter([], q);
        }
      }
    }
  }

  /** Two filters that agree on every element of `s` give the same result. */
  lemma {:induction false} FilterCongruent<T>(s: seq<T>, p: T -> bool, q: T -> bool)
    requires forall x :: x in s ==> p(x) == q(x)
    ensures Filter(s, p) == Filter(s, q)
  {
    if s != [] {
      FilterCongruent(s[1..], p, q);
    }
  }

  /** All elements of `s` are pairwise distinct. */
  predicate NoDuplicates<T(==)>(s: seq<T>) {
    forall i, j :: 0 <= i < j < |s| ==> s[i] != s[j]
  }

  lemma {:induction false} FilterNoDuplicates<T>(s: seq<T>, p: T -> bool)
    requires NoDuplicates(s)
    ensures NoDuplicates(Filter(s, p))
  {
    if s != [] {
      FilterNoDuplicates(s[1..], p);
      FilterMembers(s[1..], p);
      assert s[0] !in s[1..];
    }
  }

  /** The index of the first element satisfying `p`, if any (`findIndex`). */
  function FindIndex<T>(s: seq<T>, p: T -> bool): (r: int)
    ensures -1 <= r < |s|
    ensures r >= 0 ==> p(s[r]) && forall k :: 0 <= k < r ==> !p(s[k])
    ensures r == -1 ==> forall k :: 0 <= k < |s| ==> !p(s[k])
  {
    if s == [] then -1
    else if p(s[0]) then 0
    else var r := FindIndex(s[1..], p); if r == -1 then -1 else r + 1
  }

  /** Distinct keys of `s` in the order they are first seen: the key order of a
      JavaScript `Map` filled by iterating over `s`. */
  function Keys<T, K(==)>(s: seq<T>, key: T -> K): (r: seq<K>)
    ensures NoDuplicates(r)
    ensures forall k :: k in r ==> exists i :: 0 <= i < |s| && key(s[i]) == k
    ensures forall i :: 0 <= i < |s| ==> key(s[i]) in r
  {
    if s == [] then []
    else
      var ks := Keys(s[..|s| - 1], key);
      assert forall i :: 0 <= i < |s| - 1 ==> s[..|s| - 1][i] == s[i];
      if key(s[|s| - 1]) in ks then ks else ks + [key(s[|s| - 1])]
  }

  /** `ks` with `k` added at the end unless it is already there. */
  function Append<K(==)>(ks: seq<K>, k: K): (r: seq<K>)
    ensures k in r && (k in ks ==> r == ks) && (k !in ks ==> r == ks + [k])
  {
    if k in ks then ks else ks + [k]
  }

  /** The last element adds its key unless it is already there. */
  lemma KeysLast<T, K>(s: seq<T>, key: T -> K)
    requires s != []
    ensures Keys(s, key) == Append(Keys(s[..|s| - 1], key), key(s[|s| - 1]))
  {
  }

  /** The records whose key is `k`. */
  function HasKey<T, K(==)>(key: T -> K, k: K): T -> bool {
    x => key(x) == k
  }

  /** The grouping of `s` by `key` as the loop below builds it: the last
      element is pushed onto its key's list, created when missing. */
  function Group<T, K(==,!new)>(s: seq<T>, key: T -> K): (g: map<K, seq<T>>)
    ensures forall k :: k in g <==> k in Keys(s, key)
  {
    if s == [] then map[]
    else
      var g := Group(s[..|s| - 1], key);
      var k := key(s[|s| - 1]);
      g[k := (if k in g then g[k] else []) + [s[|s| - 1]]]
  }

  /** Grouping into a JavaScript `Map`: for each element, its key is added
      with an empty list when the map lacks it, then the element is pushed
      onto that key's list. */
  method GroupBy<T, K(==,!new)>(s: seq<T>, key: T -> K) returns (order: seq<K>, groups: map<K, seq<T>>)
    ensures order == Keys(s, key) && groups == Group(s, key)
  {
    order, groups := [], map[];
    for i := 0 to |s|
      invariant order == Keys(s[..i], key) && groups == Group(s[..i], key)
    {
      GroupStep(s, key, i);
      var k := key(s[i]);
      var list := if k in groups then groups[k] else [];
      if k !in groups {
        order := order + [k];
      }
      groups := groups[k := list + [s[i]]];
    }
    assert s[..|s|] == s;
  }

  /** One more element: the loop step of `GroupBy`. */
  lemma GroupStep<T, K(!new)>(s: seq<T>, key: T -> K, i: nat)
    requires i < |s|
    ensures var ks, k := Keys(s[..i], key), key(s[i]);
            Keys(s[..i + 1], key) == if k in ks then ks else ks + [k]
    ensures var g, k := Group(s[..i], key), key(s[i]);
            Group(s[..i + 1], key) == g[k := (if k in g then g[k] else []) + [s[i]]]
  {
    assert s[..i + 1][..i] == s[..i];
    assert s[..i + 1][i] == s[i];
  }

  /** Each key's list holds the elements with that key, in order. */
  lemma {:induction false} GroupContents<T, K(!new)>(s: seq<T>, key: T -> K, k: K)
    requires k in Group(s, key)
    ensures Group(s, key)[k] == Filter(s, HasKey(key, k))
  {
    var init := s[..|s| - 1];
    GroupLast(s, key, k);
    if k in Group(init, key) {
      GroupContents(init, key, k);
    } else {
      UnseenKeyEmptyGroup(init, key, k);
    }
  }

  /** The last element of `s` joins its key's list and the filter alike. */
  lemma GroupLast<T, K(!new)>(s: seq<T>, key: T -> K, k: K)
    requires s != []
    ensures var g, x := Group(s[..|s| - 1], key), s[|s| - 1];
            k in Group(s, key) ==>
              Group(s, key)[k] == if key(x) == k then (if k in g then g[k] else []) + [x] else g[k]
    ensures var x := s[|s| - 1];
            Filter(s, HasKey(key, k)) == Filter(s[..|s| - 1], HasKey(key, k)) + if key(x) == k then [x] else []
  {
    var init, x := s[..|s| - 1], s[|s| - 1];
    assert s == init + [x];
    FilterConcat(init, [x], HasKey(key, k));
    assert Filter([x], HasKey(key, k)) == if key(x) == k then [x] else [] by { assert [x][1..] == []; }
  }

  /** A key no element has yet selects nothing. */
  lemma UnseenKeyEmptyGroup<T, K>(s: seq<T>, key: T -> K, k: K)
    requires k !in Keys(s, key)
    ensures Filter(s, HasKey(key, k)) == []
  {
    forall x | x in s
      ensures !HasKey(key, k)(x)
    {
      var i :| 0 <= i < |s| && s[i] == x;
      assert key(s[i]) in Keys(s, key);
    }
    FilterFalse(s, HasKey(key, k));
  }

  /** The concatenation of a sequence of sequences (`flat`). */
  function Flatten<T>(ss: seq<seq<T>>): (r: seq<T>)
    ensures |r| == 0 <==> forall i :: 0 <= i < |ss| ==> ss[i] == []
  {
    if ss == [] then [] else ss[0] + Flatten(ss[1..])
  }

  lemma {:induction false} FlattenSnoc<T>(ss: seq<seq<T>>, s: seq<T>)
    ensures Flatten(ss + [s]) == Flatten(ss) + s
  {
    if ss == [] {
      assert [] + [s] == [s];
    } else {
      assert (ss + [s])[0] == ss[0];
      assert (ss + [s])[1..] == ss[1..] + [s];
      FlattenSnoc(ss[1..], s);
    }
  }

  lemma {:induction false} FlattenMember<T>(ss: seq<seq<T>>, x: T)
    ensures x in Flatten(ss) <==> exists i :: 0 <= i < |ss| && x in ss[i]
  {
    if ss != [] {
      FlattenMember(ss[1..], x);
      if x in Flatten(ss[1..]) {
        var i :| 0 <= i < |ss[1..]| && x in ss[1..][i];
        assert x in ss[i + 1];
      }
      if exists i :: 0 <= i < |ss| && x in ss[i] {
        var i :| 0 <= i < |ss| && x in ss[i];
        if i > 0 {
          assert x in ss[1..][i - 1];
        }
      }
    }
  }

  lemma {:induction false} FlattenFilter<T>(ss: seq<seq<T>>, p: T -> bool)
    ensures Filter(Flatten(ss), p) == Flatten(seq(|ss|, i requires 0 <= i < |ss| => Filter(ss[i], p)))
  {
    if ss != [] {
      FilterConcat(ss[0], Flatten(ss[1..]), p);
      FlattenFilter(ss[1..], p);
      var f := seq(|ss|, i requires 0 <= i < |ss| => Filter(ss[i], p));
      assert f[1..] == seq(|ss[1..]|, i requires 0 <= i < |ss[1..]| => Filter(ss[1..][i], p));
    }
  }
}
