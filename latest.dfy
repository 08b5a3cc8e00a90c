/**
 * `filterToLatestVersions`: the upstream models are grouped by vendor, each
 * vendor's models by base name (a family), and each family keeps its first
 * preview model and its first stable model once the family is sorted with
 * the family comparator. Vendors and families come out in the order they are
 * first seen, as the keys of a JavaScript `Map` are visited.
 */
module LatestVersions {
  import opened Wrappers
  import opened Types
  import Seqs
  import Sorting
  import opened Versions

  // ------------------------------------------- selection, for any records

  function Not<T>(p: T -> bool): T -> bool {
    x => !p(x)
  }

  /** The first element with `tag` and then the first element without it,
      each when there is one (two `find` calls). */
  function FirstOfEach<T>(s: seq<T>, tag: T -> bool): (r: seq<T>)
    ensures |r| <= 2
  {
    var p := Seqs.FindIndex(s, tag);
    var q := Seqs.FindIndex(s, Not(tag));
    (if p >= 0 then [s[p]] else []) + (if q >= 0 then [s[q]] else [])
  }

  /** The picks of each group of `g` whose key is in `ks`, in key order. */
  function PicksOver<K, T>(ks: seq<K>, g: map<K, seq<T>>, pick: seq<T> -> seq<T>): seq<T>
    requires forall k :: k in ks ==> k in g
  {
    if ks == [] then [] else PicksOver(ks[..|ks| - 1], g, pick) + pick(g[ks[|ks| - 1]])
  }

  /** Group `s` by `key` into an insertion-ordered map, then concatenate the
      picks of each group in key order. */
  function GroupPicks<K(==,!new), T>(s: seq<T>, key: T -> K, pick: seq<T> -> seq<T>): seq<T> {
    PicksOver(Seqs.Keys(s, key), Seqs.Group(s, key), pick)
  }

  /** Sort a group with `cmp`, then pick from it. */
  function SortPicker<T>(cmp: (T, T) -> int, tag: T -> bool): seq<T> -> seq<T> {
    xs => FirstOfEach(Sorting.SortSeq(xs, cmp), tag)
  }

  function GroupPicker<K(==,!new), T>(key: T -> K, pick: seq<T> -> seq<T>): seq<T> -> seq<T> {
    xs => GroupPicks(xs, key, pick)
  }

  /** `pick` only ever returns elements of its argument. */
  ghost predicate Selects<T(!new)>(pick: seq<T> -> seq<T>) {
    forall xs, x :: x in pick(xs) ==> x in xs
  }

  // ---------------------------------------------------- the model records

  function VendorOf(m: AIModel): int {
    m.vendorId
  }

  function BaseOf(m: AIModel): string {
    ExtractBaseModelName(m.displayName)
  }

  /** The models of vendor `v` whose base name is `b`. */
  function InFamily(v: int, b: string): AIModel -> bool {
    Both(VendorOf, v, BaseOf, b)
  }

  /** The sort callback of one family. */
  function FamilyCmp(time: string -> Option<real>): (AIModel, AIModel) -> int {
    (a: AIModel, b: AIModel) => FamilyCompare(time, a, b)
  }

  /** The picks of one family: the first preview and then the first stable
      model of the sorted family, each when there is one. */
  function FamilyPicks(time: string -> Option<real>, family: seq<AIModel>): (r: seq<AIModel>)
    ensures |r| <= 2
  {
    FirstOfEach(Sorting.SortSeq(family, FamilyCmp(time)), IsPreview)
  }

  function FamilyPicker(time: string -> Option<real>): seq<AIModel> -> seq<AIModel> {
    SortPicker(FamilyCmp(time), IsPreview)
  }

  /** The picks of one vendor: its families in first-seen order. */
  function VendorPicks(time: string -> Option<real>, vendorModels: seq<AIModel>): seq<AIModel> {
    GroupPicks(vendorModels, BaseOf, FamilyPicker(time))
  }

  function VendorPicker(time: string -> Option<real>): seq<AIModel> -> seq<AIModel> {
    GroupPicker(BaseOf, FamilyPicker(time))
  }

  /** The result of `filterToLatestVersions`: the vendors in first-seen
      order. */
  function Latest(time: string -> Option<real>, models: seq<AIModel>): seq<AIModel> {
    GroupPicks(models, VendorOf, VendorPicker(time))
  }

  // ------------------------------------------------------------- the loops

  /** `filterToLatestVersions`. */
  method FilterToLatestVersions(time: string -> Option<real>, models: seq<AIModel>) returns (filtered: seq<AIModel>)
    ensures filtered == Latest(time, models)
  {
    filtered := PickNested(models, VendorOf, BaseOf, FamilyCmp(time), IsPreview);
  }

  /** One pass groups by the `outer` key; then each group, in first-seen
      order, is grouped by the `inner` key and picked from. */
  method PickNested<K1(==,!new), K2(==,!new), T(==)>(s: seq<T>, outer: T -> K1, inner: T -> K2, cmp: (T, T) -> int, tag: T -> bool)
    returns (filtered: seq<T>)
    ensures filtered == GroupPicks(s, outer, GroupPicker(inner, SortPicker(cmp, tag)))
  {
    var order, groups := Seqs.GroupBy(s, outer);
    ghost var pick := GroupPicker(inner, SortPicker(cmp, tag));
    filtered := [];
    for i := 0 to |order|
      invariant filtered == PicksOver(order[..i], groups, pick)
    {
      var picks := PickGroups(groups[order[i]], inner, cmp, tag);
      PicksOverSnoc(order, i, groups, pick);
      filtered := filtered + picks;
    }
    PicksOverAll(order, groups, pick);
  }

  /** One pass groups by `key`; then each group, in first-seen order, is
      sorted and picked from. */
  method PickGroups<K(==,!new), T(==)>(s: seq<T>, key: T -> K, cmp: (T, T) -> int, tag: T -> bool)
    returns (picks: seq<T>)
    ensures picks == GroupPicks(s, key, SortPicker(cmp, tag))
  {
    var order, groups := Seqs.GroupBy(s, key);
    ghost var pick := SortPicker(cmp, tag);
    picks := [];
    for i := 0 to |order|
      invariant picks == PicksOver(order[..i], groups, pick)
    {
      var chosen := SortAndPick(groups[order[i]], cmp, tag);
      PicksOverSnoc(order, i, groups, pick);
      picks := picks + chosen;
    }
    PicksOverAll(order, groups, pick);
  }

  /** The group is copied into an array and sorted in place; then the first
      tagged and the first untagged element are pushed, the second only when
      it is not the first, which it never is. */
  method SortAndPick<T(==)>(family: seq<T>, cmp: (T, T) -> int, tag: T -> bool) returns (picks: seq<T>)
    ensures picks == FirstOfEach(Sorting.SortSeq(family, cmp), tag)
  {
    var a := new T[|family|](i requires 0 <= i < |family| => family[i]);
    assert a[..] == family;
    Sorting.SortInPlace(a, cmp);
    var sorted := a[..];
    var p := Seqs.FindIndex(sorted, tag);
    var q := Seqs.FindIndex(sorted, Not(tag));
    picks := [];
    if p >= 0 {
      picks := picks + [sorted[p]];
    }
    if q >= 0 && (p < 0 || sorted[q] != sorted[p]) {
      picks := picks + [sorted[q]];
    }
  }

  /** One more key: the loop step. */
  lemma PicksOverSnoc<K, T>(ks: seq<K>, i: nat, g: map<K, seq<T>>, pick: seq<T> -> seq<T>)
    requires i < |ks| && forall k :: k in ks ==> k in g
    ensures forall k :: k in ks[..i + 1] ==> k in g
    ensures PicksOver(ks[..i + 1], g, pick) == PicksOver(ks[..i], g, pick) + pick(g[ks[i]])
  {
    assert ks[..i + 1][..i] == ks[..i];
  }

  lemma PicksOverAll<K, T>(ks: seq<K>, g: map<K, seq<T>>, pick: seq<T> -> seq<T>)
    requires forall k :: k in ks ==> k in g
    ensures PicksOver(ks[..|ks|], g, pick) == PicksOver(ks, g, pick)
  {
    assert ks[..|ks|] == ks;
  }

  // ------------------------------------------------------------ properties

  /** At most one element of each kind is picked, each from the list; a
      tagged one exactly when the list has one, and first; an untagged one
      exactly when the list has one, and last. */
  lemma FirstOfEachShape<T>(s: seq<T>, tag: T -> bool)
    ensures forall x :: x in FirstOfEach(s, tag) ==> x in s
    ensures var r := FirstOfEach(s, tag);
            (exists x :: x in s && tag(x)) <==> (r != [] && tag(r[0]))
    ensures var r := FirstOfEach(s, tag);
            (exists x :: x in s && !tag(x)) <==> (r != [] && !tag(r[|r| - 1]))
    ensures |FirstOfEach(s, tag)| ==
              (if exists x :: x in s && tag(x) then 1 else 0) + (if exists x :: x in s && !tag(x) then 1 else 0)
  {
    var p := Seqs.FindIndex(s, tag);
    var q := Seqs.FindIndex(s, Not(tag));
    assert (exists x :: x in s && tag(x)) <==> p >= 0;
    assert (exists x :: x in s && !tag(x)) <==> q >= 0 by {
      assert forall k :: 0 <= k < |s| ==> (Not(tag)(s[k]) <==> !tag(s[k]));
    }
  }

  /** In a list sorted by `cmp`, each pick is not after any element of the
      same kind. */
  lemma FirstOfEachFirst<T>(s: seq<T>, tag: T -> bool, cmp: (T, T) -> int, x: T, m: T)
    requires Sorting.SortedBy(s, cmp)
    requires x in FirstOfEach(s, tag) && m in s && tag(x) == tag(m)
    ensures x == m || cmp(x, m) <= 0
  {
    var j :| 0 <= j < |s| && s[j] == m;
    var p := Seqs.FindIndex(s, tag);
    var q := Seqs.FindIndex(s, Not(tag));
    if tag(m) {
      assert x == s[p] && p <= j;
    } else {
      assert Not(tag)(s[j]);
      assert x == s[q] && q <= j;
    }
  }

  /** What `PicksOver` selects with `P` comes from the group of `k0` alone
      when no other group's picks satisfy `P`. */
  lemma {:induction false} PicksOverKey<K, T>(ks: seq<K>, g: map<K, seq<T>>, pick: seq<T> -> seq<T>,
                                              P: T -> bool, k0: K)
    requires forall k :: k in ks ==> k in g
    requires Seqs.NoDuplicates(ks)
    requires forall k :: k in ks && k != k0 ==> Seqs.Filter(pick(g[k]), P) == []
    ensures Seqs.Filter(PicksOver(ks, g, pick), P) == if k0 in ks then Seqs.Filter(pick(g[k0]), P) else []
  {
    if ks != [] {
      var init, last := ks[..|ks| - 1], ks[|ks| - 1];
      assert forall k :: k in init ==> k in ks;
      var before := PicksOver(init, g, pick);
      assert Seqs.Filter(before, P) == if k0 in init then Seqs.Filter(pick(g[k0]), P) else [] by {
        assert Seqs.NoDuplicates(init) by {
          assert forall i :: 0 <= i < |init| ==> init[i] == ks[i];
        }
        PicksOverKey(init, g, pick, P, k0);
      }
      assert PicksOver(ks, g, pick) == before + pick(g[last]);
      Seqs.FilterConcat(before, pick(g[last]), P);
      assert last !in init by {
        assert forall i :: 0 <= i < |init| ==> init[i] == ks[i];
      }
      assert k0 in ks <==> k0 in init || k0 == last;
    }
  }

  /** What `PicksOver` keeps comes from one of the groups' picks. */
  lemma {:induction false} PicksOverMember<K, T>(ks: seq<K>, g: map<K, seq<T>>, pick: seq<T> -> seq<T>, x: T)
    requires forall k :: k in ks ==> k in g
    requires x in PicksOver(ks, g, pick)
    ensures exists k :: k in ks && x in pick(g[k])
  {
    var init, last := ks[..|ks| - 1], ks[|ks| - 1];
    assert forall k :: k in init ==> k in ks;
    if x !in pick(g[last]) {
      PicksOverMember(init, g, pick, x);
    }
  }

  /** What the grouped picks keep is in the list. */
  lemma GroupPicksMember<K(!new), T(!new)>(s: seq<T>, key: T -> K, pick: seq<T> -> seq<T>, x: T)
    requires Selects(pick)
    requires x in GroupPicks(s, key, pick)
    ensures x in s
  {
    var ks, g := Seqs.Keys(s, key), Seqs.Group(s, key);
    PicksOverMember(ks, g, pick, x);
    var k :| k in ks && x in pick(g[k]);
    Seqs.GroupContents(s, key, k);
    Seqs.FilterMembers(s, Seqs.HasKey(key, k));
  }

  /** When `P` holds only for the key `k0`, what the grouped picks keep with
      `P` is what the picks of the `k0` group keep with `P`: the groups are
      handled independently. */
  lemma GroupPicksRestrict<K(!new), T(!new)>(s: seq<T>, key: T -> K, pick: seq<T> -> seq<T>, P: T -> bool, k0: K)
    requires Selects(pick)
    requires forall x :: P(x) ==> key(x) == k0
    ensures Seqs.Filter(GroupPicks(s, key, pick), P) == Seqs.Filter(pick(Seqs.Filter(s, Seqs.HasKey(key, k0))), P)
  {
    var ks, g := Seqs.Keys(s, key), Seqs.Group(s, key);
    forall k | k in ks && k != k0
      ensures Seqs.Filter(pick(g[k]), P) == []
    {
      Seqs.GroupContents(s, key, k);
      Seqs.FilterMembers(s, Seqs.HasKey(key, k));
      Seqs.FilterFalse(pick(g[k]), P);
    }
    PicksOverKey(ks, g, pick, P, k0);
    if k0 in ks {
      Seqs.GroupContents(s, key, k0);
    } else {
      Seqs.UnseenKeyEmptyGroup(s, key, k0);
      Seqs.FilterFalse(pick([]), P);
    }
  }

  /** Sorting then picking only returns elements of the group. */
  lemma SortPickerSelects<T(!new)>(cmp: (T, T) -> int, tag: T -> bool)
    ensures Selects(SortPicker(cmp, tag))
  {
    forall xs, x | x in SortPicker(cmp, tag)(xs)
      ensures x in xs
    {
      var sorted := Sorting.SortSeq(xs, cmp);
      FirstOfEachShape(sorted, tag);
      Sorting.SortSeqPermutes(xs, cmp);
      assert x in multiset(sorted);
    }
  }

  lemma GroupPickerSelects<K(!new), T(!new)>(key: T -> K, pick: seq<T> -> seq<T>)
    requires Selects(pick)
    ensures Selects(GroupPicker(key, pick))
  {
    forall xs, x | x in GroupPicker(key, pick)(xs)
      ensures x in xs
    {
      GroupPicksMember(xs, key, pick, x);
    }
  }

  /** The elements whose outer key is `k1` and whose inner key is `k2`. */
  function Both<K1(==), K2(==), T>(outer: T -> K1, k1: K1, inner: T -> K2, k2: K2): T -> bool {
    x => outer(x) == k1 && inner(x) == k2
  }

  /** Grouping twice and picking from each inner group: restricted to one
      pair of keys, the result is the picks of that inner group. */
  lemma NestedRestrict<K1(!new), K2(!new), T(!new)>(s: seq<T>, outer: T -> K1, inner: T -> K2,
                                                          pick: seq<T> -> seq<T>, k1: K1, k2: K2)
    requires Selects(pick)
    ensures Seqs.Filter(GroupPicks(s, outer, GroupPicker(inner, pick)), Both(outer, k1, inner, k2)) ==
              pick(Seqs.Filter(s, Both(outer, k1, inner, k2)))
  {
    var P := Both(outer, k1, inner, k2);
    var first := Seqs.Filter(s, Seqs.HasKey(outer, k1));
    var group := Seqs.Filter(first, Seqs.HasKey(inner, k2));
    assert Seqs.Filter(GroupPicks(s, outer, GroupPicker(inner, pick)), P) == Seqs.Filter(GroupPicks(first, inner, pick), P) by {
      GroupPickerSelects(inner, pick);
      GroupPicksRestrict(s, outer, GroupPicker(inner, pick), P, k1);
    }
    assert Seqs.Filter(GroupPicks(first, inner, pick), P) == Seqs.Filter(pick(group), P) by {
      GroupPicksRestrict(first, inner, pick, P, k2);
    }
    assert group == Seqs.Filter(s, P) by {
      Seqs.FilterFilter(s, Seqs.HasKey(outer, k1), Seqs.HasKey(inner, k2), P);
    }
    assert Seqs.Filter(pick(group), P) == pick(group) by {
      Seqs.FilterMembers(s, P);
      Seqs.FilterTrue(pick(group), P);
    }
  }

  /** What the nested picks keep is in the list, among the picks of its own
      inner group. */
  lemma NestedMember<K1(!new), K2(!new), T(!new)>(s: seq<T>, outer: T -> K1, inner: T -> K2,
                                                        pick: seq<T> -> seq<T>, x: T)
    requires Selects(pick)
    requires x in GroupPicks(s, outer, GroupPicker(inner, pick))
    ensures x in s
    ensures x in pick(Seqs.Filter(s, Both(outer, outer(x), inner, inner(x))))
  {
    var P := Both(outer, outer(x), inner, inner(x));
    var group := Seqs.Filter(s, P);
    var kept := GroupPicks(s, outer, GroupPicker(inner, pick));
    assert x in Seqs.Filter(kept, P) by {
      Seqs.FilterMembers(kept, P);
    }
    assert x in pick(group) by {
      NestedRestrict(s, outer, inner, pick, outer(x), inner(x));
    }
    assert x in group && x in s by {
      SelectsFrom(pick, group, x);
      Seqs.FilterMembers(s, P);
    }
  }

  lemma SelectsFrom<T(!new)>(pick: seq<T> -> seq<T>, xs: seq<T>, x: T)
    requires Selects(pick) && x in pick(xs)
    ensures x in xs
  {
  }

  /** The sorted family holds the family's models. */
  lemma SortedMembers(time: string -> Option<real>, family: seq<AIModel>)
    ensures forall x :: x in Sorting.SortSeq(family, FamilyCmp(time)) <==> x in family
  {
    var sorted := Sorting.SortSeq(family, FamilyCmp(time));
    Sorting.SortSeqPermutes(family, FamilyCmp(time));
    assert forall x :: x in sorted <==> x in multiset(sorted);
  }

  /** One family keeps at most one preview and one stable model, each from
      the family: a preview exactly when the family has one, and first; a
      stable model exactly when the family has one, and last. */
  lemma FamilyPicksShape(time: string -> Option<real>, family: seq<AIModel>)
    ensures forall x :: x in FamilyPicks(time, family) ==> x in family
    ensures var r := FamilyPicks(time, family);
            (exists m :: m in family && IsPreview(m)) <==> (r != [] && IsPreview(r[0]))
    ensures var r := FamilyPicks(time, family);
            (exists m :: m in family && !IsPreview(m)) <==> (r != [] && !IsPreview(r[|r| - 1]))
    ensures |FamilyPicks(time, family)| ==
              (if exists m :: m in family && IsPreview(m) then 1 else 0)
              + (if exists m :: m in family && !IsPreview(m) then 1 else 0)
  {
    SortedMembers(time, family);
    FirstOfEachShape(Sorting.SortSeq(family, FamilyCmp(time)), IsPreview);
  }

  /** The output restricted to one family (one vendor, one base name) is
      exactly that family's picks: families are handled independently and
      none is dropped or mixed with another. */
  lemma LatestPerFamily(time: string -> Option<real>, models: seq<AIModel>, v: int, b: string)
    ensures Seqs.Filter(Latest(time, models), InFamily(v, b)) == FamilyPicks(time, Seqs.Filter(models, InFamily(v, b)))
  {
    SortPickerSelects(FamilyCmp(time), IsPreview);
    NestedRestrict(models, VendorOf, BaseOf, FamilyPicker(time), v, b);
  }

  /** Every model kept is one of the input models, and it is one of its own
      family's picks. */
  lemma LatestMembers(time: string -> Option<real>, models: seq<AIModel>, x: AIModel)
    requires x in Latest(time, models)
    ensures x in models
    ensures x in FamilyPicks(time, Seqs.Filter(models, InFamily(VendorOf(x), BaseOf(x))))
  {
    SortPickerSelects(FamilyCmp(time), IsPreview);
    NestedMember(models, VendorOf, BaseOf, FamilyPicker(time), x);
  }

  /** A model compares equal to itself. */
  lemma CompareSelf(time: string -> Option<real>, m: AIModel)
    ensures FamilyCompare(time, m, m) == 0
  {
    if !HasReleaseDate(m) {
      match ExtractVersionNumber(m.displayName)
      case Some(a) => assert Sign(a - a) == 0;
      case None =>
    }
  }

  /** When the family comparator orders the family consistently, each pick
      is not after any model of the family with the same preview status:
      the kept preview and the kept stable model are the first of their
      kind. */
  lemma PicksComeFirst(time: string -> Option<real>, family: seq<AIModel>, x: AIModel, m: AIModel)
    requires Sorting.ConsistentOn(FamilyCmp(time), family)
    requires x in FamilyPicks(time, family) && m in family && IsPreview(x) == IsPreview(m)
    ensures FamilyCompare(time, x, m) <= 0
  {
    var cmp := FamilyCmp(time);
    SortedMembers(time, family);
    Sorting.SortSeqSorts(family, cmp);
    CompareSelf(time, m);
    FirstOfEachFirst(Sorting.SortSeq(family, cmp), IsPreview, cmp, x, m);
  }

  /** Every model of the family has a release date that parses. */
  predicate AllDated(time: string -> Option<real>, family: seq<AIModel>) {
    forall m :: m in family ==> HasReleaseDate(m) && time(m.releaseDate.value).Some?
  }

  function TimeOf(time: string -> Option<real>, m: AIModel): real
    requires HasReleaseDate(m) && time(m.releaseDate.value).Some?
  {
    time(m.releaseDate.value).value
  }

  /** With every release date known the family comparator is consistent:
      previews first, then newest first. */
  lemma DatedConsistent(time: string -> Option<real>, family: seq<AIModel>)
    requires AllDated(time, family)
    ensures Sorting.ConsistentOn(FamilyCmp(time), family)
  {
    var cmp := FamilyCmp(time);
    forall x, y | x in family && y in family && cmp(x, y) > 0
      ensures cmp(y, x) <= 0
    {
    }
    forall x, y, z | x in family && y in family && z in family && cmp(x, y) <= 0 && cmp(y, z) <= 0
      ensures cmp(x, z) <= 0
    {
    }
  }

  /** The "latest" promise: when every model of the family has a release
      date that parses, the kept preview is the newest preview and the
      kept stable model the newest stable model. */
  lemma NewestKept(time: string -> Option<real>, family: seq<AIModel>, x: AIModel, m: AIModel)
    requires AllDated(time, family)
    requires x in FamilyPicks(time, family) && m in family && IsPreview(x) == IsPreview(m)
    ensures HasReleaseDate(x) && time(x.releaseDate.value).Some? && TimeOf(time, m) <= TimeOf(time, x)
  {
    FamilyPicksShape(time, family);
    DatedConsistent(time, family);
    PicksComeFirst(time, family, x, m);
  }

}
