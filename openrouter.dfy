/**
 * The raw-record path of the upstream normaliser
 * (`transformOpenRouterData` in `src/lib/dataService.ts`): records of an
 * allowed vendor are turned into catalogue models, vendors and categories
 * are interned on first sight with sequential ids, a record whose
 * parameters throw is skipped, and the latest-version filter decides which
 * models are shown and listed under their vendor and category.
 *
 * The interning loop is first stated generically over the record type and
 * the three things the loop asks of a record (its vendor, its category
 * name and the model it builds, if any); the upstream instance follows.
 */
module OpenRouter {
  import opened Wrappers
  import opened Types
  import Text
  import Seqs
  import opened Upstream
  import LatestVersions

  // ------------------------------------------------------------ interning

  /** The state of the loop: the two Maps in insertion order, as their keys
      with the record stored under each key at the same position, and the
      models pushed so far. */
  datatype Interned = Interned(
    vendorKeys: seq<string>,
    vendors: seq<Vendor>,
    categoryKeys: seq<string>,
    categories: seq<Category>,
    models: seq<AIModel>)

  predicate Aligned(st: Interned) {
    |st.vendorKeys| == |st.vendors| && |st.categoryKeys| == |st.categories|
  }

  /** The two Maps of `b` hold those of `a` at the same positions. */
  predicate Extends(a: Interned, b: Interned) {
    a.vendorKeys <= b.vendorKeys && a.vendors <= b.vendors
    && a.categoryKeys <= b.categoryKeys && a.categories <= b.categories
  }

  const Empty: Interned := Interned([], [], [], [], [])

  /** What the loop asks of a record: its vendor, its category name and
      the key the name is interned under, and the model it builds with the
      two entries (none when building throws). */
  datatype Reading<-T> = Reading(
    vendor: T -> VendorInfo,
    categoryName: T -> string,
    categoryKey: T -> string,
    build: (T, nat, Vendor, Category) -> Option<AIModel>)

  /** The vendor record created for a key seen for the first time. */
  function NewVendor(id: int, info: VendorInfo): Vendor {
    Vendor(id, info.name, "https://" + info.key + ".com/pricing", "https://" + info.key + ".com/models")
  }

  /** The category record created for a name seen for the first time. */
  function NewCategory(id: int, name: string): Category {
    Category(id, name, Some(name + " models and applications"), None)
  }

  /** `name.toLowerCase().replace(/\s+/g, '-')`. */
  function CategoryKey(name: string): string {
    Text.ReplaceSpaceRuns(Text.Lower(name), '-')
  }

  /** Where `k` first occurs among the keys. */
  function Position<K(==)>(keys: seq<K>, k: K): (r: nat)
    requires k in keys
    ensures r < |keys| && keys[r] == k
    ensures forall j :: 0 <= j < r ==> keys[j] != k
  {
    if keys[0] == k then 0 else 1 + Position(keys[1..], k)
  }

  /** `vendors.get(key)`. */
  function VendorAt(st: Interned, key: string): Vendor
    requires Aligned(st) && key in st.vendorKeys
  {
    st.vendors[Position(st.vendorKeys, key)]
  }

  /** `categories.get(key)`. */
  function CategoryAt(st: Interned, key: string): Category
    requires Aligned(st) && key in st.categoryKeys
  {
    st.categories[Position(st.categoryKeys, key)]
  }

  /** `if (!vendors.has(key)) vendors.set(key, …)`: the id is the size plus one. */
  function InternVendor(st: Interned, info: VendorInfo): (r: Interned)
    requires Aligned(st)
    ensures Aligned(r) && info.key in r.vendorKeys && Extends(st, r)
    ensures r.categoryKeys == st.categoryKeys && r.categories == st.categories && r.models == st.models
  {
    if info.key in st.vendorKeys then st
    else st.(vendorKeys := st.vendorKeys + [info.key], vendors := st.vendors + [NewVendor(|st.vendors| + 1, info)])
  }

  /** The same for a category name under its key. */
  function InternCategory(st: Interned, key: string, name: string): (r: Interned)
    requires Aligned(st)
    ensures Aligned(r) && key in r.categoryKeys && Extends(st, r)
    ensures r.vendorKeys == st.vendorKeys && r.vendors == st.vendors && r.models == st.models
  {
    if key in st.categoryKeys then st
    else st.(categoryKeys := st.categoryKeys + [key], categories := st.categories + [NewCategory(|st.categories| + 1, name)])
  }

  function Emit<X>(m: Option<X>): (r: seq<X>)
    ensures |r| <= 1
  {
    match m
    case None => []
    case Some(x) => [x]
  }

  /** One record: both entries are interned before the model is built, so
      a record that builds no model still leaves its vendor and category. */
  function Step<T>(st: Interned, x: T, index: nat, rd: Reading<T>): (r: Interned)
    requires Aligned(st)
    ensures Aligned(r) && Extends(st, r)
  {
    var st2 := InternCategory(InternVendor(st, rd.vendor(x)), rd.categoryKey(x), rd.categoryName(x));
    var m := rd.build(x, index, VendorAt(st2, rd.vendor(x).key), CategoryAt(st2, rd.categoryKey(x)));
    st2.(models := st2.models + Emit(m))
  }

  /** The loop over the records, each with its position. */
  function Process<T>(s: seq<T>, rd: Reading<T>): (r: Interned)
    ensures Aligned(r)
  {
    if s == [] then Empty
    else Step(Process(s[..|s| - 1], rd), s[|s| - 1], |s| - 1, rd)
  }

  function VendorKey<T>(rd: Reading<T>): T -> string {
    x => rd.vendor(x).key
  }

  /** Every record's keys have entries in `st`. */
  predicate Covers<T>(st: Interned, s: seq<T>, rd: Reading<T>) {
    && (forall i :: 0 <= i < |s| ==> rd.vendor(s[i]).key in st.vendorKeys)
    && (forall i :: 0 <= i < |s| ==> rd.categoryKey(s[i]) in st.categoryKeys)
  }

  /** The model record `i` builds with the entries of its keys. */
  function BuildAt<T>(s: seq<T>, st: Interned, i: nat, rd: Reading<T>): Option<AIModel>
    requires Aligned(st) && Covers(st, s, rd) && i < |s|
  {
    rd.build(s[i], i, VendorAt(st, rd.vendor(s[i]).key), CategoryAt(st, rd.categoryKey(s[i])))
  }

  /** What each record builds with the entries of its keys in `st`. */
  function Builds<T>(s: seq<T>, st: Interned, rd: Reading<T>): (bs: seq<Option<AIModel>>)
    requires Aligned(st) && Covers(st, s, rd)
    ensures |bs| == |s|
    ensures forall i :: 0 <= i < |s| ==> bs[i] == BuildAt(s, st, i, rd)
  {
    seq(|s|, i requires 0 <= i < |s| => BuildAt(s, st, i, rd))
  }

  /** The models among `bs`, in order. */
  function Somes<X>(bs: seq<Option<X>>): (r: seq<X>)
    ensures |r| <= |bs|
  {
    if bs == [] then [] else Somes(bs[..|bs| - 1]) + Emit(bs[|bs| - 1])
  }

  /** What the loop builds, in order, once every key has its entry: the
      model of each record that builds one, with the entries of its keys. */
  function Built<T>(s: seq<T>, st: Interned, rd: Reading<T>): (r: seq<AIModel>)
    requires Aligned(st) && Covers(st, s, rd)
  {
    Somes(Builds(s, st, rd))
  }

  /** Record `j` is the first whose key is `k`. */
  predicate FirstWith<T, K(==)>(s: seq<T>, key: T -> K, j: int, k: K) {
    0 <= j < |s| && key(s[j]) == k && forall i :: 0 <= i < j ==> key(s[i]) != k
  }

  /** Every model built carries the position of its record plus one. */
  ghost predicate Lawful<T(!new)>(rd: Reading<T>) {
    forall x, i: nat, v, c :: BuildLaw(rd, x, i, v, c)
  }

  /** A model built at position `i` with entries `v` and `c` carries id
      `i + 1`, links to both entries and is hosted by its record's vendor. */
  predicate BuildLaw<T>(rd: Reading<T>, x: T, i: nat, v: Vendor, c: Category) {
    rd.build(x, i, v, c).Some? ==>
      var m := rd.build(x, i, v, c).value;
      && m.id == i + 1
      && m.vendorId == v.id && m.vendor == Some(v)
      && m.categoryId == c.id && m.category == Some(c)
      && m.host == rd.vendor(x).name
  }

  // ------------------------------------------------------ generic lemmas

  lemma PositionPrefix<K>(a: seq<K>, b: seq<K>, k: K)
    requires a <= b && k in a
    ensures k in b && Position(b, k) == Position(a, k)
  {
    var r := Position(a, k);
    assert b[r] == a[r];
  }

  lemma LookupsExtend(a: Interned, b: Interned, vkey: string, ckey: string)
    requires Aligned(a) && Aligned(b) && Extends(a, b)
    requires vkey in a.vendorKeys && ckey in a.categoryKeys
    ensures vkey in b.vendorKeys && VendorAt(b, vkey) == VendorAt(a, vkey)
    ensures ckey in b.categoryKeys && CategoryAt(b, ckey) == CategoryAt(a, ckey)
  {
    PositionPrefix(a.vendorKeys, b.vendorKeys, vkey);
    PositionPrefix(a.categoryKeys, b.categoryKeys, ckey);
    var r := Position(a.vendorKeys, vkey);
    assert b.vendors[r] == a.vendors[r];
    var q := Position(a.categoryKeys, ckey);
    assert b.categories[q] == a.categories[q];
  }

  /** The Map keys are the records' keys in first-seen order, each once. */
  lemma {:induction false} ProcessKeys<T>(s: seq<T>, rd: Reading<T>)
    ensures Process(s, rd).vendorKeys == Seqs.Keys(s, VendorKey(rd))
    ensures Process(s, rd).categoryKeys == Seqs.Keys(s, rd.categoryKey)
  {
    if s != [] {
      var init, x := s[..|s| - 1], s[|s| - 1];
      ProcessKeys(init, rd);
      StepKeys(Process(init, rd), x, |s| - 1, rd);
      Seqs.KeysLast(s, VendorKey(rd));
      Seqs.KeysLast(s, rd.categoryKey);
    }
  }

  /** One step adds the record's keys that are new, at the end. */
  lemma StepKeys<T>(st: Interned, x: T, index: nat, rd: Reading<T>)
    requires Aligned(st)
    ensures Step(st, x, index, rd).vendorKeys == Seqs.Append(st.vendorKeys, rd.vendor(x).key)
    ensures Step(st, x, index, rd).categoryKeys == Seqs.Append(st.categoryKeys, rd.categoryKey(x))
  {
  }

  /** Every record's keys have entries. */
  lemma ProcessCovers<T>(s: seq<T>, rd: Reading<T>)
    ensures Covers(Process(s, rd), s, rd)
  {
    ProcessKeys(s, rd);
    var st := Process(s, rd);
    forall i | 0 <= i < |s|
      ensures rd.vendor(s[i]).key in st.vendorKeys && rd.categoryKey(s[i]) in st.categoryKeys
    {
      assert VendorKey(rd)(s[i]) in Seqs.Keys(s, VendorKey(rd));
      assert rd.categoryKey(s[i]) in Seqs.Keys(s, rd.categoryKey);
    }
  }

  /** Entries never move, so the models built against an earlier state
      are those built against a later one. */
  lemma BuiltExtends<T>(s: seq<T>, a: Interned, b: Interned, rd: Reading<T>)
    requires Aligned(a) && Aligned(b) && Extends(a, b) && Covers(a, s, rd)
    ensures Covers(b, s, rd)
    ensures Builds(s, a, rd) == Builds(s, b, rd)
  {
    forall i | 0 <= i < |s|
      ensures rd.vendor(s[i]).key in b.vendorKeys && rd.categoryKey(s[i]) in b.categoryKeys
      ensures BuildAt(s, a, i, rd) == BuildAt(s, b, i, rd)
    {
      LookupsExtend(a, b, rd.vendor(s[i]).key, rd.categoryKey(s[i]));
    }
  }

  /** Dropping the last record drops the last entry of `Builds`. */
  lemma BuildsPrefix<T>(s: seq<T>, st: Interned, rd: Reading<T>)
    requires s != [] && Aligned(st) && Covers(st, s, rd)
    ensures Covers(st, s[..|s| - 1], rd)
    ensures Builds(s, st, rd)[..|s| - 1] == Builds(s[..|s| - 1], st, rd)
  {
    var init := s[..|s| - 1];
    assert forall i :: 0 <= i < |init| ==> init[i] == s[i];
    forall i | 0 <= i < |init|
      ensures BuildAt(init, st, i, rd) == BuildAt(s, st, i, rd)
    {
    }
  }

  /** The models the loop pushes are those `Built` describes against the
      final Maps. */
  lemma {:induction false} ProcessBuilt<T>(s: seq<T>, rd: Reading<T>)
    ensures Covers(Process(s, rd), s, rd)
    ensures var st := Process(s, rd);
            st.models == Built(s, st, rd)
  {
    ProcessCovers(s, rd);
    if s != [] {
      var init, x := s[..|s| - 1], s[|s| - 1];
      var st0 := Process(init, rd);
      var st := Process(s, rd);
      ProcessBuilt(init, rd);
      BuiltExtends(init, st0, st, rd);
      BuildsPrefix(s, st, rd);
      var st2 := InternCategory(InternVendor(st0, rd.vendor(x)), rd.categoryKey(x), rd.categoryName(x));
      assert st2.vendorKeys == st.vendorKeys && st2.vendors == st.vendors;
      assert st2.categoryKeys == st.categoryKeys && st2.categories == st.categories;
    }
  }

  /** What one record does to the two Maps. */
  lemma StepTables<T>(st: Interned, x: T, index: nat, rd: Reading<T>)
    requires Aligned(st)
    ensures var r := Step(st, x, index, rd);
            var v := InternVendor(st, rd.vendor(x));
            var c := InternCategory(st, rd.categoryKey(x), rd.categoryName(x));
            && r.vendorKeys == v.vendorKeys && r.vendors == v.vendors
            && r.categoryKeys == c.categoryKeys && r.categories == c.categories
  {
  }

  /** Vendor `k` was created for the first record with its key, with id
      `k + 1`. */
  lemma {:induction false} ProcessVendor<T>(s: seq<T>, rd: Reading<T>, k: nat)
    requires k < |Process(s, rd).vendors|
    ensures var st := Process(s, rd);
            exists j :: FirstWith(s, VendorKey(rd), j, st.vendorKeys[k])
                        && st.vendors[k] == NewVendor(k + 1, rd.vendor(s[j]))
  {
    var init, x := s[..|s| - 1], s[|s| - 1];
    var st0 := Process(init, rd);
    if k < |st0.vendors| {
      ProcessVendor(init, rd, k);
    }
    ProcessCovers(init, rd);
    StepTables(st0, x, |s| - 1, rd);
    SplitLast(s);
    VendorFirstStep(init, x, st0, Process(s, rd), rd, k);
  }

  lemma SplitLast<T>(s: seq<T>)
    requires s != []
    ensures s == s[..|s| - 1] + [s[|s| - 1]]
  {
  }

  /** The induction step of `ProcessVendor`. */
  lemma VendorFirstStep<T>(init: seq<T>, x: T, st0: Interned, st: Interned, rd: Reading<T>, k: nat)
    requires Aligned(st0) && Covers(st0, init, rd)
    requires st.vendorKeys == InternVendor(st0, rd.vendor(x)).vendorKeys
    requires st.vendors == InternVendor(st0, rd.vendor(x)).vendors
    requires k < |st.vendors|
    requires k < |st0.vendors| ==>
               exists j :: FirstWith(init, VendorKey(rd), j, st0.vendorKeys[k])
                           && st0.vendors[k] == NewVendor(k + 1, rd.vendor(init[j]))
    ensures exists j :: FirstWith(init + [x], VendorKey(rd), j, st.vendorKeys[k])
                        && st.vendors[k] == NewVendor(k + 1, rd.vendor((init + [x])[j]))
  {
    var s := init + [x];
    assert forall i :: 0 <= i < |init| ==> s[i] == init[i];
    if k < |st0.vendors| {
      var j :| FirstWith(init, VendorKey(rd), j, st0.vendorKeys[k]) && st0.vendors[k] == NewVendor(k + 1, rd.vendor(init[j]));
      assert FirstWith(s, VendorKey(rd), j, st.vendorKeys[k]);
    } else {
      var j := |init|;
      forall i | 0 <= i < j
        ensures VendorKey(rd)(s[i]) != st.vendorKeys[k]
      {
        assert rd.vendor(init[i]).key in st0.vendorKeys;
      }
      assert FirstWith(s, VendorKey(rd), j, st.vendorKeys[k]);
    }
  }

  /** Category `k` was created for the first record with its key, with id
      `k + 1`. */
  lemma {:induction false} ProcessCategory<T>(s: seq<T>, rd: Reading<T>, k: nat)
    requires k < |Process(s, rd).categories|
    ensures var st := Process(s, rd);
            exists j :: FirstWith(s, rd.categoryKey, j, st.categoryKeys[k])
                        && st.categories[k] == NewCategory(k + 1, rd.categoryName(s[j]))
  {
    var init, x := s[..|s| - 1], s[|s| - 1];
    var st0 := Process(init, rd);
    if k < |st0.categories| {
      ProcessCategory(init, rd, k);
    }
    ProcessCovers(init, rd);
    StepTables(st0, x, |s| - 1, rd);
    SplitLast(s);
    CategoryFirstStep(init, x, st0, Process(s, rd), rd, k);
  }

  /** The induction step of `ProcessCategory`. */
  lemma CategoryFirstStep<T>(init: seq<T>, x: T, st0: Interned, st: Interned, rd: Reading<T>, k: nat)
    requires Aligned(st0) && Covers(st0, init, rd)
    requires st.categoryKeys == InternCategory(st0, rd.categoryKey(x), rd.categoryName(x)).categoryKeys
    requires st.categories == InternCategory(st0, rd.categoryKey(x), rd.categoryName(x)).categories
    requires k < |st.categories|
    requires k < |st0.categories| ==>
               exists j :: FirstWith(init, rd.categoryKey, j, st0.categoryKeys[k])
                           && st0.categories[k] == NewCategory(k + 1, rd.categoryName(init[j]))
    ensures exists j :: FirstWith(init + [x], rd.categoryKey, j, st.categoryKeys[k])
                        && st.categories[k] == NewCategory(k + 1, rd.categoryName((init + [x])[j]))
  {
    var s := init + [x];
    assert forall i :: 0 <= i < |init| ==> s[i] == init[i];
    if k < |st0.categories| {
      var j :| FirstWith(init, rd.categoryKey, j, st0.categoryKeys[k]) && st0.categories[k] == NewCategory(k + 1, rd.categoryName(init[j]));
      assert FirstWith(s, rd.categoryKey, j, st.categoryKeys[k]);
    } else {
      var j := |init|;
      forall i | 0 <= i < j
        ensures rd.categoryKey(s[i]) != st.categoryKeys[k]
      {
        assert rd.categoryKey(init[i]) in st0.categoryKeys;
      }
      assert FirstWith(s, rd.categoryKey, j, st.categoryKeys[k]);
    }
  }

  /** The values `r` have increasing ids, each the position of the entry
      of `bs` that holds it plus one. */
  ghost predicate NumberedBy<X>(r: seq<X>, bs: seq<Option<X>>, id: X -> int) {
    && (forall a, b :: 0 <= a < b < |r| ==> id(r[a]) < id(r[b]))
    && (forall k :: 0 <= k < |r| ==> (1 <= id(r[k]) <= |bs| && bs[id(r[k]) - 1] == Some(r[k])))
  }

  /** Every value an entry holds is among the values kept. */
  lemma {:induction false} SomesComplete<X>(bs: seq<Option<X>>, i: nat)
    requires i < |bs| && bs[i].Some?
    ensures bs[i].value in Somes(bs)
  {
    var init := bs[..|bs| - 1];
    if i < |init| {
      assert init[i] == bs[i];
      SomesComplete(init, i);
    }
  }

  /** When each entry's value carries the entry's position plus one, the
      values are numbered by their entries. */
  lemma {:induction false} SomesNumbered<X>(bs: seq<Option<X>>, id: X -> int)
    requires forall i :: 0 <= i < |bs| && bs[i].Some? ==> id(bs[i].value) == i + 1
    ensures NumberedBy(Somes(bs), bs, id)
  {
    if bs != [] {
      var init := bs[..|bs| - 1];
      var last := bs[|bs| - 1];
      assert forall i :: 0 <= i < |init| && init[i].Some? ==> id(init[i].value) == i + 1 by {
        forall i | 0 <= i < |init| && init[i].Some? ensures id(init[i].value) == i + 1 {
          assert init[i] == bs[i];
        }
      }
      SomesNumbered(init, id);
      NumberedSnoc(Somes(init), init, last, id);
      assert init + [last] == bs;
    }
  }

  /** The induction step of `SomesNumbered`. */
  lemma NumberedSnoc<X>(r0: seq<X>, init: seq<Option<X>>, last: Option<X>, id: X -> int)
    requires NumberedBy(r0, init, id)
    requires last.Some? ==> id(last.value) == |init| + 1
    ensures NumberedBy(r0 + Emit(last), init + [last], id)
  {
    var bs := init + [last];
    var r := r0 + Emit(last);
    forall k | 0 <= k < |r|
      ensures 1 <= id(r[k]) <= |bs| && bs[id(r[k]) - 1] == Some(r[k])
    {
      if k < |r0| {
        assert r[k] == r0[k];
        assert bs[id(r0[k]) - 1] == init[id(r0[k]) - 1];
      }
    }
  }

  function IdOf(m: AIModel): int {
    m.id
  }

  /** When models are numbered by position, `Built` is numbered by its
      records. */
  lemma BuiltNumbering<T(!new)>(s: seq<T>, st: Interned, rd: Reading<T>)
    requires Aligned(st) && Covers(st, s, rd) && Lawful(rd)
    ensures NumberedBy(Built(s, st, rd), Builds(s, st, rd), IdOf)
  {
    assert forall i :: 0 <= i < |Builds(s, st, rd)| && Builds(s, st, rd)[i].Some? ==> IdOf(Builds(s, st, rd)[i].value) == i + 1 by {
      forall i | 0 <= i < |s| ensures BuildLaw(rd, s[i], i, VendorAt(st, rd.vendor(s[i]).key), CategoryAt(st, rd.categoryKey(s[i]))) {}
    }
    SomesNumbered(Builds(s, st, rd), IdOf);
  }

  // ------------------------------------------------------------ upstream

  const AllowedVendors: seq<string> := ["anthropic", "google", "meta", "deepseek", "inference-net"]

  function InfoOf(api: ApiModel): VendorInfo {
    VendorInfoOf(api.id, api.name)
  }

  /** `name`, lower-cased, is on the vendor allow-list. */
  predicate AllowedVendor(name: string) {
    Text.Lower(name) in AllowedVendors
  }

  /** The filter in front of the loop. */
  predicate IsAllowed(api: ApiModel) {
    AllowedVendor(InfoOf(api).key)
  }

  function CategoryNameOf(api: ApiModel): string {
    CategoryFor(SearchText(api))
  }

  function CategoryKeyFor(api: ApiModel): string {
    CategoryKey(CategoryNameOf(api))
  }

  /** `apiModel.id || \`unknown-${index}\``. */
  function SystemNameOf(api: ApiModel, index: nat): string {
    if TruthyText(api.id) then api.id.value else "unknown-" + Text.NatToString(index)
  }

  /** `apiModel.name || apiModel.display_name || apiModel.id || \`Model ${index}\``. */
  function DisplayNameOf(api: ApiModel, index: nat): string {
    match FirstText([api.name, api.display_name, api.id])
    case Some(n) => n
    case None => "Model " + Text.NatToString(index)
  }

  /** The model literal. `...modelParams` comes last, so every field it
      holds replaces the one written before it: `parametersB` is the
      extracted value even where the literal gave `|| 0`. */
  function ModelOf(api: ApiModel, index: nat, info: VendorInfo, pricing: Option<Pricing>,
                   vendor: Vendor, category: Category, mp: ModelParams): AIModel {
    AIModel(
      id := index + 1,
      systemName := SystemNameOf(api, index),
      displayName := DisplayNameOf(api, index),
      categoryId := category.id,
      parametersB := mp.parametersB,
      vendorId := vendor.id,
      host := info.name,
      precision := mp.precision,
      description := mp.description,
      contextWindow := mp.contextWindow,
      tokenLimit := mp.tokenLimit,
      releaseDate := mp.releaseDate,
      isOpenSource := Some(mp.isOpenSource),
      isHidden := Some(mp.isHidden),
      modality := mp.modality,
      capabilityTier := Some(mp.capabilityTier),
      pricing := pricing,
      category := Some(category),
      vendor := Some(vendor))
  }

  /** The body of the `try`: an error from `extractModelParams` is caught
      and nothing is pushed. */
  function BuildModel(p: Parsers, api: ApiModel, index: nat, vendor: Vendor, category: Category): (r: Option<AIModel>)
    ensures r.None? <==> ExtractModelParams(api, p).Thrown?
    ensures r.Some? ==> && r.value.id == index + 1
                        && r.value.vendorId == vendor.id && r.value.vendor == Some(vendor)
                        && r.value.categoryId == category.id && r.value.category == Some(category)
  {
    match ExtractModelParams(api, p)
    case Thrown(_) => None
    case Ok(mp) => Some(ModelOf(api, index, InfoOf(api), ExtractPricing(api, index, p), vendor, category, mp))
  }

  function RecordReading(p: Parsers): Reading<ApiModel> {
    Reading(InfoOf, CategoryNameOf, CategoryKeyFor, (a, i, v, c) => BuildModel(p, a, i, v, c))
  }

  /** `data.filter(…)` with the vendor allow-list, in order. */
  function Allowed(records: seq<ApiModel>): seq<ApiModel> {
    Seqs.Filter(records, IsAllowed)
  }

  /** The two Maps and the models after the loop. */
  function Normalised(p: Parsers, records: seq<ApiModel>): (st: Interned)
    ensures Aligned(st)
  {
    Process(Allowed(records), RecordReading(p))
  }

  function WithVendor(id: int): AIModel -> bool {
    (m: AIModel) => m.vendorId == id
  }

  function WithCategory(id: int): AIModel -> bool {
    (m: AIModel) => m.categoryId == id
  }

  /** Every category and every vendor lists exactly the catalogue's models
      that carry its id, in catalogue order. */
  ghost predicate BackListed(c: Catalogue) {
    && |c.categoryModels| == |c.categories| && |c.vendorModels| == |c.vendors|
    && (forall k :: 0 <= k < |c.categories| ==>
          c.categoryModels[k] == Seqs.Filter(c.models, WithCategory(c.categories[k].id)))
    && (forall k :: 0 <= k < |c.vendors| ==>
          c.vendorModels[k] == Seqs.Filter(c.models, WithVendor(c.vendors[k].id)))
  }

  /** What `transformOpenRouterData` returns for `records`: the latest
      versions of the normalised models, every interned vendor and category,
      and the back-lists drawn from the returned models. */
  ghost predicate Transformed(p: Parsers, time: string -> Option<real>, records: seq<ApiModel>, out: Catalogue) {
    var st := Normalised(p, records);
    && out.models == LatestVersions.Latest(time, st.models)
    && out.vendors == st.vendors && out.categories == st.categories
    && BackListed(out)
  }

  // -------------------------------------------------------------- methods

  /** `transformOpenRouterData`. `time` reads a release date as a time for
      the latest-version filter. */
  method TransformOpenRouterData(p: Parsers, time: string -> Option<real>, records: seq<ApiModel>)
    returns (out: Catalogue)
    ensures forall k :: 0 <= k < |out.vendors| ==> AllowedVendor(out.vendors[k].name)
    ensures forall m :: m in out.models ==> AllowedVendor(m.host)
    ensures forall m :: m in out.models ==> m in Normalised(p, records).models
    ensures Transformed(p, time, records, out)
    ensures Linked(out.models, out.vendors, out.categories)
  {
    var allowed := Allowed(records);
    var st := ProcessRecords(p, allowed);
    AllowedOnly(records);
    AllowedVendorsOnly(p, allowed);
    RecordsLinked(p, allowed);
    var filteredModels := LatestVersions.FilterToLatestVersions(time, st.models);
    LatestLinked(time, st.models, st.vendors, st.categories);
    var vendorModels := FillVendorLists(filteredModels, st.vendors);
    var categoryModels := FillCategoryLists(filteredModels, st.categories);
    out := Catalogue(filteredModels, st.categories, categoryModels, st.vendors, vendorModels);
  }

  /** The `forEach` over the allowed records. */
  method ProcessRecords(p: Parsers, allowed: seq<ApiModel>) returns (st: Interned)
    ensures st == Process(allowed, RecordReading(p))
  {
    st := Empty;
    for index := 0 to |allowed|
      invariant st == Process(allowed[..index], RecordReading(p))
    {
      ProcessSnoc(allowed, index, RecordReading(p));
      st := ProcessRecord(st, allowed[index], index, p);
    }
    assert allowed[..|allowed|] == allowed;
  }

  /** One turn of `forEach`: intern the vendor, classify and intern the
      category, then build and push the model unless building throws. */
  method ProcessRecord(st: Interned, api: ApiModel, index: nat, p: Parsers) returns (r: Interned)
    requires Aligned(st)
    ensures r == Step(st, api, index, RecordReading(p))
  {
    var vendorInfo := ExtractVendorInfo(api.id, api.name);
    var st1 := AddVendor(st, vendorInfo);
    var categoryName := ClassifyModel(api);
    var st2 := AddCategory(st1, CategoryKey(categoryName), categoryName);
    var vendor := VendorAt(st2, vendorInfo.key);
    var category := CategoryAt(st2, CategoryKey(categoryName));
    r := PushModel(st2, api, index, p, vendor, category);
    assert RecordReading(p).build(api, index, vendor, category) == BuildModel(p, api, index, vendor, category);
  }

  /** `if (!vendorMap.has(key)) vendorMap.set(key, {...})`. */
  method AddVendor(st: Interned, info: VendorInfo) returns (r: Interned)
    requires Aligned(st)
    ensures r == InternVendor(st, info)
  {
    r := st;
    if info.key !in st.vendorKeys {
      var vendor := NewVendor(|st.vendors| + 1, info);
      r := r.(vendorKeys := st.vendorKeys + [info.key], vendors := st.vendors + [vendor]);
    }
  }

  /** `if (!categoryMap.has(key)) categoryMap.set(key, {...})`. */
  method AddCategory(st: Interned, key: string, name: string) returns (r: Interned)
    requires Aligned(st)
    ensures r == InternCategory(st, key, name)
  {
    r := st;
    if key !in st.categoryKeys {
      var category := NewCategory(|st.categories| + 1, name);
      r := r.(categoryKeys := st.categoryKeys + [key], categories := st.categories + [category]);
    }
  }

  /** Pricing and parameters are extracted and the model pushed; a throw
      from `extractModelParams` is caught and nothing is pushed. */
  method PushModel(st: Interned, api: ApiModel, index: nat, p: Parsers, vendor: Vendor, category: Category)
    returns (r: Interned)
    ensures r == st.(models := st.models + Emit(BuildModel(p, api, index, vendor, category)))
  {
    var pricing := ExtractPricing(api, index, p);
    var modelParams := ExtractModelParams(api, p);
    r := st;
    if modelParams.Ok? {
      var model := ModelOf(api, index, InfoOf(api), pricing, vendor, category, modelParams.value);
      r := r.(models := st.models + [model]);
    }
  }

  /** `vendor.models = filteredModels.filter(m => m.vendorId === vendor.id)`. */
  method FillVendorLists(models: seq<AIModel>, vendors: seq<Vendor>) returns (lists: seq<seq<AIModel>>)
    ensures |lists| == |vendors|
    ensures forall k :: 0 <= k < |vendors| ==> lists[k] == Seqs.Filter(models, WithVendor(vendors[k].id))
  {
    lists := [];
    for k := 0 to |vendors|
      invariant |lists| == k
      invariant forall j :: 0 <= j < k ==> lists[j] == Seqs.Filter(models, WithVendor(vendors[j].id))
    {
      lists := lists + [Seqs.Filter(models, WithVendor(vendors[k].id))];
    }
  }

  /** `category.models = filteredModels.filter(m => m.categoryId === category.id)`. */
  method FillCategoryLists(models: seq<AIModel>, categories: seq<Category>) returns (lists: seq<seq<AIModel>>)
    ensures |lists| == |categories|
    ensures forall k :: 0 <= k < |categories| ==> lists[k] == Seqs.Filter(models, WithCategory(categories[k].id))
  {
    lists := [];
    for k := 0 to |categories|
      invariant |lists| == k
      invariant forall j :: 0 <= j < k ==> lists[j] == Seqs.Filter(models, WithCategory(categories[j].id))
    {
      lists := lists + [Seqs.Filter(models, WithCategory(categories[k].id))];
    }
  }

  lemma ProcessSnoc<T>(s: seq<T>, i: nat, rd: Reading<T>)
    requires i < |s|
    ensures Process(s[..i + 1], rd) == Step(Process(s[..i], rd), s[i], i, rd)
  {
    assert s[..i + 1][..i] == s[..i];
  }

  // ------------------------------------------------------ upstream lemmas

  /** Each model of the loop is the one its record's position builds. */
  lemma ProcessModelAt<T(!new)>(s: seq<T>, rd: Reading<T>, m: AIModel)
    requires Lawful(rd) && m in Process(s, rd).models
    ensures var st := Process(s, rd);
            && Covers(st, s, rd) && 1 <= m.id <= |s| && BuildAt(s, st, m.id - 1, rd) == Some(m)
  {
    ProcessBuilt(s, rd);
    var st := Process(s, rd);
    BuiltNumbering(s, st, rd);
    BuiltModelAt(s, st, rd, m);
  }

  lemma BuiltModelAt<T>(s: seq<T>, st: Interned, rd: Reading<T>, m: AIModel)
    requires Aligned(st) && Covers(st, s, rd) && m in Built(s, st, rd)
    requires NumberedBy(Built(s, st, rd), Builds(s, st, rd), IdOf)
    ensures 1 <= m.id <= |s| && BuildAt(s, st, m.id - 1, rd) == Some(m)
  {
    var bs := Builds(s, st, rd);
    NumberedLookup(Built(s, st, rd), bs, IdOf, m);
    assert IdOf(m) == m.id;
  }

  /** Every model a record builds is among the loop's models. */
  lemma ProcessYields<T>(s: seq<T>, rd: Reading<T>, i: nat)
    requires i < |s|
    ensures var st := Process(s, rd);
            && Covers(st, s, rd)
            && (BuildAt(s, st, i, rd).Some? ==> BuildAt(s, st, i, rd).value in st.models)
  {
    ProcessBuilt(s, rd);
    BuiltYields(s, Process(s, rd), rd, i);
  }

  lemma BuiltYields<T>(s: seq<T>, st: Interned, rd: Reading<T>, i: nat)
    requires Aligned(st) && Covers(st, s, rd) && i < |s|
    ensures BuildAt(s, st, i, rd).Some? ==> BuildAt(s, st, i, rd).value in Built(s, st, rd)
  {
    var bs := Builds(s, st, rd);
    if bs[i].Some? {
      SomesComplete(bs, i);
    }
  }

  /** The loop's models have increasing ids. */
  lemma ProcessIdsIncrease<T(!new)>(s: seq<T>, rd: Reading<T>)
    requires Lawful(rd)
    ensures var models := Process(s, rd).models;
            forall a, b :: 0 <= a < b < |models| ==> models[a].id < models[b].id
  {
    ProcessBuilt(s, rd);
    BuiltIdsIncrease(s, Process(s, rd), rd);
  }

  lemma BuiltIdsIncrease<T(!new)>(s: seq<T>, st: Interned, rd: Reading<T>)
    requires Aligned(st) && Covers(st, s, rd) && Lawful(rd)
    ensures var r := Built(s, st, rd);
            forall a, b :: 0 <= a < b < |r| ==> r[a].id < r[b].id
  {
    BuiltNumbering(s, st, rd);
    var r := Built(s, st, rd);
    forall a, b | 0 <= a < b < |r| ensures r[a].id < r[b].id {
      assert IdOf(r[a]) < IdOf(r[b]);
    }
  }

  /** Record `i` yields the model with id `i + 1` exactly when it builds
      one. */
  lemma ProcessYieldsAt<T(!new)>(s: seq<T>, rd: Reading<T>, i: nat)
    requires Lawful(rd) && i < |s|
    ensures var st := Process(s, rd);
            && Covers(st, s, rd)
            && (BuildAt(s, st, i, rd).Some? <==> exists m :: m in st.models && m.id == i + 1)
  {
    var st := Process(s, rd);
    ProcessYields(s, rd, i);
    if BuildAt(s, st, i, rd).Some? {
      assert BuildLaw(rd, s[i], i, VendorAt(st, rd.vendor(s[i]).key), CategoryAt(st, rd.categoryKey(s[i])));
    }
    if m :| m in st.models && m.id == i + 1 {
      ProcessModelAt(s, rd, m);
    }
  }

  /** Every model links to the vendor and the category its ids name. */
  lemma ProcessLinks<T(!new)>(s: seq<T>, rd: Reading<T>, m: AIModel)
    requires Lawful(rd) && m in Process(s, rd).models
    ensures var st := Process(s, rd);
            && 1 <= m.vendorId <= |st.vendors| && m.vendor == Some(st.vendors[m.vendorId - 1])
            && 1 <= m.categoryId <= |st.categories| && m.category == Some(st.categories[m.categoryId - 1])
  {
    var st := Process(s, rd);
    ProcessModelAt(s, rd, m);
    var j := m.id - 1;
    var vkey, ckey := rd.vendor(s[j]).key, rd.categoryKey(s[j]);
    var q, r := Position(st.vendorKeys, vkey), Position(st.categoryKeys, ckey);
    var v, c := st.vendors[q], st.categories[r];
    assert rd.build(s[j], j, v, c) == Some(m);
    assert BuildLaw(rd, s[j], j, v, c);
    assert m.vendorId == v.id && m.vendor == Some(v) && m.categoryId == c.id && m.category == Some(c);
    VendorNumbered(s, rd, q);
    CategoryNumbered(s, rd, r);
    assert m.vendorId - 1 == q && m.categoryId - 1 == r;
  }

  /** Vendor `k` carries id `k + 1`. */
  lemma VendorNumbered<T>(s: seq<T>, rd: Reading<T>, k: nat)
    requires k < |Process(s, rd).vendors|
    ensures Process(s, rd).vendors[k].id == k + 1
  {
    ProcessVendor(s, rd, k);
  }

  /** Category `k` carries id `k + 1`. */
  lemma CategoryNumbered<T>(s: seq<T>, rd: Reading<T>, k: nat)
    requires k < |Process(s, rd).categories|
    ensures Process(s, rd).categories[k].id == k + 1
  {
    ProcessCategory(s, rd, k);
  }

  /** Every model is hosted by the vendor of its record. */
  lemma ProcessHost<T(!new)>(s: seq<T>, rd: Reading<T>, m: AIModel)
    requires Lawful(rd) && m in Process(s, rd).models
    ensures 1 <= m.id <= |s| && m.host == rd.vendor(s[m.id - 1]).name
  {
    var st := Process(s, rd);
    ProcessModelAt(s, rd, m);
    var j := m.id - 1;
    assert BuildLaw(rd, s[j], j, VendorAt(st, rd.vendor(s[j]).key), CategoryAt(st, rd.categoryKey(s[j])));
  }

  lemma NumberedLookup<X>(r: seq<X>, bs: seq<Option<X>>, id: X -> int, x: X)
    requires NumberedBy(r, bs, id) && x in r
    ensures 1 <= id(x) <= |bs| && bs[id(x) - 1] == Some(x)
  {
    var k :| 0 <= k < |r| && r[k] == x;
  }

  /** A record builds a model exactly when its dates do not throw; the model
      carries the record's position plus one, the entries it was given and
      the extracted parameters, where a null `parametersB` stays null. */
  lemma BuiltModel(p: Parsers, api: ApiModel, index: nat, v: Vendor, c: Category)
    ensures BuildModel(p, api, index, v, c).Some? <==> ReleaseDay(api, p).Ok?
    ensures BuildModel(p, api, index, v, c).Some? ==>
              var m := BuildModel(p, api, index, v, c).value;
              && m.id == index + 1
              && m.vendorId == v.id && m.vendor == Some(v)
              && m.categoryId == c.id && m.category == Some(c)
              && m.host == InfoOf(api).name
              && m.systemName == SystemNameOf(api, index)
              && m.displayName == DisplayNameOf(api, index)
              && m.parametersB == ParametersOf(api, p)
              && m.pricing == ExtractPricing(api, index, p)
              && m.isHidden == Some(IsTrue(api.isHidden) || IsTrue(api.hidden))
              && m.isOpenSource == Some(IsTrue(api.isOpenSource) || IsTrue(api.open_source))
              && m.capabilityTier == Some(ClassifyCapabilityTier(api, p))
  {
  }

  lemma RecordsLawful(p: Parsers)
    ensures Lawful(RecordReading(p))
  {
    forall x, i: nat, v, c ensures BuildLaw(RecordReading(p), x, i, v, c) {
      BuiltModel(p, x, i, v, c);
    }
  }

  /** Every record has its vendor and category entries. */
  lemma RecordsCovered(p: Parsers, s: seq<ApiModel>)
    ensures var st := Process(s, RecordReading(p));
            forall api :: api in s ==> InfoOf(api).key in st.vendorKeys && CategoryKeyFor(api) in st.categoryKeys
  {
    ProcessCovers(s, RecordReading(p));
  }

  /** Model ids increase along the list. */
  lemma ModelIdsIncrease(p: Parsers, s: seq<ApiModel>)
    ensures var models := Process(s, RecordReading(p)).models;
            forall a, b :: 0 <= a < b < |models| ==> models[a].id < models[b].id
  {
    RecordsLawful(p);
    ProcessIdsIncrease(s, RecordReading(p));
  }

  /** What the reading of the records builds. */
  lemma ReadingBuilds(p: Parsers, s: seq<ApiModel>, st: Interned, i: nat)
    requires Aligned(st) && Covers(st, s, RecordReading(p)) && i < |s|
    ensures InfoOf(s[i]).key in st.vendorKeys && CategoryKeyFor(s[i]) in st.categoryKeys
    ensures BuildAt(s, st, i, RecordReading(p))
            == BuildModel(p, s[i], i, VendorAt(st, InfoOf(s[i]).key), CategoryAt(st, CategoryKeyFor(s[i])))
  {
  }

  /** Record `i` yields the model with id `i + 1` exactly when its dates
      do not throw: a throwing record is skipped and the loop goes on. */
  lemma RecordYieldsModel(p: Parsers, s: seq<ApiModel>, i: nat)
    requires i < |s|
    ensures ReleaseDay(s[i], p).Ok? <==> exists m :: m in Process(s, RecordReading(p)).models && m.id == i + 1
  {
    var rd := RecordReading(p);
    RecordsLawful(p);
    ProcessYieldsAt(s, rd, i);
    RecordBuilds(p, s, Process(s, rd), i);
  }

  lemma RecordBuilds(p: Parsers, s: seq<ApiModel>, st: Interned, i: nat)
    requires Aligned(st) && Covers(st, s, RecordReading(p)) && i < |s|
    ensures BuildAt(s, st, i, RecordReading(p)).Some? <==> ReleaseDay(s[i], p).Ok?
  {
    ReadingBuilds(p, s, st, i);
    BuiltModel(p, s[i], i, VendorAt(st, InfoOf(s[i]).key), CategoryAt(st, CategoryKeyFor(s[i])));
  }

  /** The allow-list filter keeps exactly the allowed records, in order. */
  lemma AllowedOnly(records: seq<ApiModel>)
    ensures forall i :: 0 <= i < |Allowed(records)| ==> IsAllowed(Allowed(records)[i])
    ensures forall x :: x in Allowed(records) <==> x in records && IsAllowed(x)
  {
    Seqs.FilterMembers(records, IsAllowed);
  }

  /** The vendor a record is interned under, in any case, is on the
      allow-list when the record passed the filter. */
  lemma AllowedName(api: ApiModel)
    requires IsAllowed(api)
    ensures AllowedVendor(InfoOf(api).name)
  {
    Text.LowerIdempotent(InfoOf(api).name);
  }

  /** Over allowed records every vendor's name, and every model's host, is
      one of the five allowed vendors up to case. */
  lemma AllowedVendorsOnly(p: Parsers, s: seq<ApiModel>)
    requires forall i :: 0 <= i < |s| ==> IsAllowed(s[i])
    ensures var st := Process(s, RecordReading(p));
            forall k :: 0 <= k < |st.vendors| ==> AllowedVendor(st.vendors[k].name)
    ensures forall m :: m in Process(s, RecordReading(p)).models ==> AllowedVendor(m.host)
  {
    var rd := RecordReading(p);
    var st := Process(s, rd);
    forall k | 0 <= k < |st.vendors| ensures AllowedVendor(st.vendors[k].name) {
      ProcessVendor(s, rd, k);
      var j :| FirstWith(s, VendorKey(rd), j, st.vendorKeys[k]) && st.vendors[k] == NewVendor(k + 1, rd.vendor(s[j]));
      AllowedName(s[j]);
    }
    RecordsLawful(p);
    forall m | m in st.models ensures AllowedVendor(m.host) {
      ProcessHost(s, rd, m);
      AllowedName(s[m.id - 1]);
    }
  }

  /** Every model's ids name entries of the tables, and its vendor and
      category are those entries. */
  ghost predicate Linked(models: seq<AIModel>, vendors: seq<Vendor>, categories: seq<Category>) {
    forall m :: m in models ==>
      && 1 <= m.vendorId <= |vendors| && m.vendor == Some(vendors[m.vendorId - 1])
      && 1 <= m.categoryId <= |categories| && m.category == Some(categories[m.categoryId - 1])
  }

  lemma RecordsLinked(p: Parsers, s: seq<ApiModel>)
    ensures var st := Process(s, RecordReading(p));
            Linked(st.models, st.vendors, st.categories)
  {
    var rd := RecordReading(p);
    RecordsLawful(p);
    forall m | m in Process(s, rd).models
      ensures var st := Process(s, rd);
              && 1 <= m.vendorId <= |st.vendors| && m.vendor == Some(st.vendors[m.vendorId - 1])
              && 1 <= m.categoryId <= |st.categories| && m.category == Some(st.categories[m.categoryId - 1])
    {
      ProcessLinks(s, rd, m);
    }
  }

  /** Keeping only the latest versions keeps the links. */
  lemma LatestLinked(time: string -> Option<real>, models: seq<AIModel>, vendors: seq<Vendor>, categories: seq<Category>)
    requires Linked(models, vendors, categories)
    ensures Linked(LatestVersions.Latest(time, models), vendors, categories)
    ensures forall m :: m in LatestVersions.Latest(time, models) ==> m in models
  {
    forall m | m in LatestVersions.Latest(time, models) ensures m in models {
      LatestVersions.LatestMembers(time, models, m);
    }
  }

  /** A category or vendor lists a model exactly when the catalogue holds it
      under that entry's id. */
  lemma BackListMembers(c: Catalogue, m: AIModel)
    requires BackListed(c)
    ensures forall k :: 0 <= k < |c.vendors| ==>
              (m in c.vendorModels[k] <==> m in c.models && m.vendorId == c.vendors[k].id)
    ensures forall k :: 0 <= k < |c.categories| ==>
              (m in c.categoryModels[k] <==> m in c.models && m.categoryId == c.categories[k].id)
  {
    forall k | 0 <= k < |c.vendors|
      ensures m in c.vendorModels[k] <==> m in c.models && m.vendorId == c.vendors[k].id
    {
      Seqs.FilterMembers(c.models, WithVendor(c.vendors[k].id));
    }
    forall k | 0 <= k < |c.categories|
      ensures m in c.categoryModels[k] <==> m in c.models && m.categoryId == c.categories[k].id
    {
      Seqs.FilterMembers(c.models, WithCategory(c.categories[k].id));
    }
  }
}
