/**
 * The pricing table's helpers (`src/components/pricing/helpers.ts`): name and
 * URL lookups by id, filtering by the selected category and vendor names, and
 * sorting a copy of the model list by a column key and a direction.
 */
module Helpers {
  import opened Wrappers
  import opened Types
  import Text
  import Seqs
  import Sorting
  import JsNumbers

  // ---------------------------------------------------------------- lookups

  /** The name of the first category with the id, else "Unknown". */
  function GetCategoryName(categoryId: int, categories: seq<Category>): (r: string)
    ensures (forall i :: 0 <= i < |categories| ==> categories[i].id != categoryId) ==> r == "Unknown"
    ensures forall i :: 0 <= i < |categories| && categories[i].id == categoryId
                        && (forall j :: 0 <= j < i ==> categories[j].id != categoryId)
                        ==> r == categories[i].name
  {
    match FindCategory(categories, categoryId)
    case Some(c) => c.name
    case None => "Unknown"
  }

  /** The name of the first vendor with the id, else "Unknown". */
  function GetVendorName(vendorId: int, vendors: seq<Vendor>): (r: string)
    ensures (forall i :: 0 <= i < |vendors| ==> vendors[i].id != vendorId) ==> r == "Unknown"
    ensures forall i :: 0 <= i < |vendors| && vendors[i].id == vendorId
                        && (forall j :: 0 <= j < i ==> vendors[j].id != vendorId)
                        ==> r == vendors[i].name
  {
    match FindVendor(vendors, vendorId)
    case Some(v) => v.name
    case None => "Unknown"
  }

  /** The pricing page of the first vendor with the id, else "#". */
  function GetVendorPricingUrl(vendorId: int, vendors: seq<Vendor>): (r: string)
    ensures (forall i :: 0 <= i < |vendors| ==> vendors[i].id != vendorId) ==> r == "#"
    ensures forall i :: 0 <= i < |vendors| && vendors[i].id == vendorId
                        && (forall j :: 0 <= j < i ==> vendors[j].id != vendorId)
                        ==> r == vendors[i].pricingUrl
  {
    match FindVendor(vendors, vendorId)
    case Some(v) => v.pricingUrl
    case None => "#"
  }

  // -------------------------------------------------------------- filtering

  /** An empty selection matches everything; otherwise the attached record
      must exist and its name must be selected. */
  predicate ListMatches(selected: seq<string>, name: Option<string>) {
    |selected| == 0 || (name.Some? && name.value in selected)
  }

  function CategoryNameOf(m: AIModel): Option<string> {
    if m.category.Some? then Some(m.category.value.name) else None
  }

  function VendorNameOf(m: AIModel): Option<string> {
    if m.vendor.Some? then Some(m.vendor.value.name) else None
  }

  predicate MatchesSelection(m: AIModel, categories: seq<string>, vendors: seq<string>) {
    ListMatches(categories, CategoryNameOf(m)) && ListMatches(vendors, VendorNameOf(m))
  }

  function Selector(categories: seq<string>, vendors: seq<string>): AIModel -> bool {
    m => MatchesSelection(m, categories, vendors)
  }

  /** The models that match both selections, in their order. */
  function FilterModels(models: seq<AIModel>, categories: seq<string>, vendors: seq<string>): (r: seq<AIModel>)
    ensures Seqs.IsSubsequence(r, models)
    ensures forall i :: 0 <= i < |r| ==> MatchesSelection(r[i], categories, vendors)
    ensures forall m :: m in r <==> m in models && MatchesSelection(m, categories, vendors)
  {
    Seqs.FilterIsSubsequence(models, Selector(categories, vendors));
    Seqs.FilterMembers(models, Selector(categories, vendors));
    Seqs.Filter(models, Selector(categories, vendors))
  }

  /** With nothing selected, every model is shown. */
  lemma FilterModelsNothingSelected(models: seq<AIModel>)
    ensures FilterModels(models, [], []) == models
  {
    Seqs.FilterTrue(models, Selector([], []));
  }

  /** Filtering again with the same selection changes nothing. */
  lemma FilterModelsIdempotent(models: seq<AIModel>, categories: seq<string>, vendors: seq<string>)
    ensures FilterModels(FilterModels(models, categories, vendors), categories, vendors)
         == FilterModels(models, categories, vendors)
  {
    var p := Selector(categories, vendors);
    Seqs.FilterTrue(Seqs.Filter(models, p), p);
  }

  /** Filtering by categories and then by vendors is filtering by both. */
  lemma FilterModelsComposes(models: seq<AIModel>, categories: seq<string>, vendors: seq<string>)
    ensures FilterModels(FilterModels(models, categories, []), [], vendors)
         == FilterModels(models, categories, vendors)
  {
    Seqs.FilterFilter(models, Selector(categories, []), Selector([], vendors), Selector(categories, vendors));
  }

  // ---------------------------------------------------------------- sorting

  /** The value a column contributes to a comparison. `Object` is a record
      value (`pricing`, `category`, `vendor`, or `Object.prototype` itself
      under `__proto__`) reached through the generic key; `Native` is a
      built-in method that `key in m` finds on the prototype chain. */
  datatype SortValue = Text(s: string) | Number(n: real) | Object | Native(name: string)

  /** The methods every plain object inherits from `Object.prototype`. */
  const PrototypeMethods: set<string> :=
    {"constructor", "__defineGetter__", "__defineSetter__", "hasOwnProperty", "__lookupGetter__",
     "__lookupSetter__", "isPrototypeOf", "propertyIsEnumerable", "toString", "valueOf", "toLocaleString"}

  /** The own properties of a model record that the generic read can find. */
  const RecordFields: set<string> :=
    {"id", "systemName", "displayName", "categoryId", "parametersB", "vendorId", "host", "precision",
     "description", "contextWindow", "tokenLimit", "releaseDate", "isOpenSource", "isHidden", "modality",
     "capabilityTier", "pricing", "category", "vendor"}

  /** `Number.MAX_VALUE`, exactly: (2^53 - 1) * 2^971. */
  const MaxValue: real := 179769313486231570814527423731704356798070567525844996598917476803157260780028538760589558632766878171540458953514382464234321326889464182768467546703537516986049910576551282076245490090389328944075868508455133942304583236903222948165808559332123348274797826204144723168738177180919299881250404026184124858368.0

  function OptText(v: Option<string>): SortValue {
    if v.Some? then Text(v.value) else Text("")
  }

  function OptNumber(v: Option<int>): SortValue {
    if v.Some? then Number(v.value as real) else Text("")
  }

  function OptBool(v: Option<bool>): SortValue {
    if v.Some? then Number(if v.value then 1.0 else 0.0) else Text("")
  }

  /** `key in m ? m[key] ?? '' : ''`: an own property of the record, with an
      absent or null one read as the empty string, or a property inherited
      from `Object.prototype`. Booleans take part in comparisons as 1 and 0. */
  function FieldValue(m: AIModel, key: string): (r: SortValue)
    ensures key in PrototypeMethods ==> r == Native(key)
    ensures key == "__proto__" ==> r == Object
    ensures key !in RecordFields && key !in PrototypeMethods && key != "__proto__" ==> r == Text("")
    ensures r.Object? && key != "__proto__" ==>
              (key == "pricing" && m.pricing.Some?) || (key == "category" && m.category.Some?)
              || (key == "vendor" && m.vendor.Some?)
  {
    match key
    case "id" => Number(m.id as real)
    case "systemName" => Text(m.systemName)
    case "displayName" => Text(m.displayName)
    case "categoryId" => Number(m.categoryId as real)
    case "parametersB" => if m.parametersB.Some? then Number(m.parametersB.value) else Text("")
    case "vendorId" => Number(m.vendorId as real)
    case "host" => Text(m.host)
    case "precision" => OptText(m.precision)
    case "description" => OptText(m.description)
    case "contextWindow" => OptNumber(m.contextWindow)
    case "tokenLimit" => OptNumber(m.tokenLimit)
    case "releaseDate" => OptText(m.releaseDate)
    case "isOpenSource" => OptBool(m.isOpenSource)
    case "isHidden" => OptBool(m.isHidden)
    case "modality" => OptText(m.modality)
    case "capabilityTier" => OptText(m.capabilityTier)
    case "pricing" => if m.pricing.Some? then Object else Text("")
    case "category" => if m.category.Some? then Object else Text("")
    case "vendor" => if m.vendor.Some? then Object else Text("")
    case "__proto__" => Object
    case _ => if key in PrototypeMethods then Native(key) else Text("")
  }

  /** The value `sortModels` compares for a column key: the named columns
      first, then the generic property read. */
  function SortValueOf(m: AIModel, key: string): SortValue {
    if key == "inputPrice" then Number(if m.pricing.Some? then m.pricing.value.inputText else MaxValue)
    else if key == "outputPrice" then Number(if m.pricing.Some? then m.pricing.value.outputText else MaxValue)
    else if key == "categoryName" then Text(if m.category.Some? then m.category.value.name else "")
    else if key == "vendorName" then Text(if m.vendor.Some? then m.vendor.value.name else "")
    else if key == "parametersB" then Number(if m.parametersB.Some? then m.parametersB.value else 0.0)
    else if key == "contextWindow" then Number(if m.contextWindow.Some? then m.contextWindow.value as real else 0.0)
    else FieldValue(m, key)
  }

  /** The source text a built-in method converts to. */
  function NativeSource(name: string): string {
    "function " + (if name == "constructor" then "Object" else name) + "() { [native code] }"
  }

  /** The primitive a value becomes before `<` or `>`. */
  function ToPrimitive(v: SortValue): (r: SortValue)
    ensures r.Text? || r.Number?
    ensures v.Text? || v.Number? ==> r == v
  {
    match v
    case Object => Text("[object Object]")
    case Native(name) => Text(NativeSource(name))
    case _ => v
  }

  /** `Number(v)` on a primitive: a number is itself and a string is read as
      a numeric literal (white space alone is 0). */
  function ToNumber(v: SortValue): (r: JsNumbers.JsNumber)
    ensures v.Number? ==> r == JsNumbers.Finite(v.n)
    ensures v.Text? && Text.Trim(v.s) == "" ==> r == JsNumbers.Finite(0.0)
    ensures v.Text? ==> r == JsNumbers.StringToNumber(Text.Trim(v.s))
  {
    match v
    case Number(n) => JsNumbers.Finite(n)
    case Text(s) => JsNumbers.TrimDoesNotMatter(s); JsNumbers.StringToNumber(s)
    case _ => JsNumbers.NaN
  }

  /** `x > y`: two strings compare as strings, anything else as numbers, and
      any comparison with `NaN` is false. */
  predicate Greater(x: SortValue, y: SortValue) {
    var px, py := ToPrimitive(x), ToPrimitive(y);
    if px.Text? && py.Text? then Text.Less(py.s, px.s)
    else JsNumbers.Below(ToNumber(py), ToNumber(px))
  }

  /** The comparator `sortModels` hands to `sort`: a tie only between two
      equal strings, and 1 or -1 in every other case. */
  function CompareModels(a: AIModel, b: AIModel, key: string, direction: string): (r: int)
    ensures r == -1 || r == 0 || r == 1
    ensures r == 0 ==> SortValueOf(a, key).Text? && SortValueOf(a, key) == SortValueOf(b, key)
  {
    var x, y := SortValueOf(a, key), SortValueOf(b, key);
    if x.Text? && y.Text? then
      (if direction == "asc" then Text.LocaleCompare(x.s, y.s) else Text.LocaleCompare(y.s, x.s))
    else if direction == "asc" then (if Greater(x, y) then 1 else -1)
    else (if Greater(y, x) then 1 else -1)
  }

  function Comparator(key: string, direction: string): (AIModel, AIModel) -> int {
    (a: AIModel, b: AIModel) => CompareModels(a, b, key, direction)
  }

  /** Sorts a copy of `models`; the argument is left as it was. */
  method SortModels(models: seq<AIModel>, key: string, direction: string) returns (r: seq<AIModel>)
    ensures r == Sorting.SortSeq(models, Comparator(key, direction))
    ensures multiset(r) == multiset(models)
  {
    var copy := new AIModel[|models|](i requires 0 <= i < |models| => models[i]);
    assert copy[..] == models;
    Sorting.SortInPlace(copy, Comparator(key, direction));
    r := copy[..];
    Sorting.SortSeqPermutes(models, Comparator(key, direction));
  }

  // ------------------------------------------ what the sorted order means

  predicate IsNumericKey(key: string) {
    key == "inputPrice" || key == "outputPrice" || key == "parametersB" || key == "contextWindow"
  }

  /** Columns whose value is always a string. */
  predicate IsTextKey(key: string) {
    key == "categoryName" || key == "vendorName" || key == "displayName" || key == "systemName" || key == "host"
  }

  function NumberOf(m: AIModel, key: string): (n: real)
    requires IsNumericKey(key)
    ensures SortValueOf(m, key) == Number(n)
  {
    SortValueOf(m, key).n
  }

  function TextOf(m: AIModel, key: string): (s: string)
    requires IsTextKey(key)
    ensures SortValueOf(m, key) == Text(s)
  {
    SortValueOf(m, key).s
  }

  /** On a numeric column the comparator says "after" exactly when the value
      is greater (ascending) or smaller (otherwise). */
  lemma NumericComparison(a: AIModel, b: AIModel, key: string, direction: string)
    requires IsNumericKey(key)
    ensures direction == "asc" ==> (CompareModels(a, b, key, direction) > 0 <==> NumberOf(a, key) > NumberOf(b, key))
    ensures direction != "asc" ==> (CompareModels(a, b, key, direction) > 0 <==> NumberOf(a, key) < NumberOf(b, key))
  {
  }

  /** On a text column the comparator is string comparison, possibly reversed. */
  lemma TextComparison(a: AIModel, b: AIModel, key: string, direction: string)
    requires IsTextKey(key)
    ensures direction == "asc" ==> CompareModels(a, b, key, direction) == Text.LocaleCompare(TextOf(a, key), TextOf(b, key))
    ensures direction != "asc" ==> CompareModels(a, b, key, direction) == Text.LocaleCompare(TextOf(b, key), TextOf(a, key))
  {
  }

  lemma NumericComparatorConsistent(key: string, direction: string)
    requires IsNumericKey(key)
    ensures Sorting.Consistent(Comparator(key, direction))
  {
    var cmp := Comparator(key, direction);
    forall a, b | cmp(a, b) > 0
      ensures cmp(b, a) <= 0
    {
      NumericComparison(a, b, key, direction);
      NumericComparison(b, a, key, direction);
    }
    forall a, b, c | cmp(a, b) <= 0 && cmp(b, c) <= 0
      ensures cmp(a, c) <= 0
    {
      NumericComparison(a, b, key, direction);
      NumericComparison(b, c, key, direction);
      NumericComparison(a, c, key, direction);
    }
  }

  lemma TextComparatorConsistent(key: string, direction: string)
    requires IsTextKey(key)
    ensures Sorting.Consistent(Comparator(key, direction))
  {
    var cmp := Comparator(key, direction);
    forall a, b | cmp(a, b) > 0
      ensures cmp(b, a) <= 0
    {
      TextComparison(a, b, key, direction);
      TextComparison(b, a, key, direction);
    }
    forall a, b, c | cmp(a, b) <= 0 && cmp(b, c) <= 0
      ensures cmp(a, c) <= 0
    {
      TextComparison(a, b, key, direction);
      TextComparison(b, c, key, direction);
      TextComparison(a, c, key, direction);
      var x, y, z := TextOf(a, key), TextOf(b, key), TextOf(c, key);
      if direction == "asc" {
        if Text.Less(z, x) {
          if Text.Less(y, x) {
          } else if x == y {
          } else {
            Text.LessTrichotomy(x, y);
            Text.LessTransitive(z, x, y);
          }
        }
      } else {
        if Text.Less(x, z) {
          if Text.Less(x, y) {
          } else if x == y {
          } else {
            Text.LessTrichotomy(x, y);
            Text.LessTransitive(y, x, z);
          }
        }
      }
    }
  }

  /** Sorting by a numeric column orders the values ascending for 'asc' and
      descending for any other direction. */
  lemma {:induction false} SortedByNumber(models: seq<AIModel>, key: string, direction: string)
    requires IsNumericKey(key)
    ensures var r := Sorting.SortSeq(models, Comparator(key, direction));
            forall i, j :: 0 <= i < j < |r| ==>
              if direction == "asc" then NumberOf(r[i], key) <= NumberOf(r[j], key)
              else NumberOf(r[i], key) >= NumberOf(r[j], key)
  {
    NumericComparatorConsistent(key, direction);
    Sorting.SortSeqSorts(models, Comparator(key, direction));
    var r := Sorting.SortSeq(models, Comparator(key, direction));
    forall i, j | 0 <= i < j < |r|
      ensures if direction == "asc" then NumberOf(r[i], key) <= NumberOf(r[j], key)
              else NumberOf(r[i], key) >= NumberOf(r[j], key)
    {
      NumericComparison(r[i], r[j], key, direction);
    }
  }

  /** With pairwise distinct values the order is strict. */
  lemma SortedStrictlyByNumber(models: seq<AIModel>, key: string, direction: string)
    requires IsNumericKey(key)
    requires forall i, j :: 0 <= i < j < |models| ==> NumberOf(models[i], key) != NumberOf(models[j], key)
    ensures var r := Sorting.SortSeq(models, Comparator(key, direction));
            forall i, j :: 0 <= i < j < |r| ==>
              if direction == "asc" then NumberOf(r[i], key) < NumberOf(r[j], key)
              else NumberOf(r[i], key) > NumberOf(r[j], key)
  {
    var cmp := Comparator(key, direction);
    var f := (m: AIModel) => NumberOf(m, key);
    var r := Sorting.SortSeq(models, cmp);
    SortedByNumber(models, key, direction);
    Sorting.SortSeqPermutes(models, cmp);
    DistinctKeysPermuted(models, r, f);
    forall i, j | 0 <= i < j < |r|
      ensures NumberOf(r[i], key) != NumberOf(r[j], key)
    {
      assert f(r[i]) != f(r[j]);
    }
  }

  /** A rearrangement of a sequence whose keys are pairwise distinct has
      pairwise distinct keys. */
  lemma DistinctKeysPermuted<T, K>(s: seq<T>, r: seq<T>, f: T -> K)
    requires multiset(r) == multiset(s)
    requires forall i, j :: 0 <= i < j < |s| ==> f(s[i]) != f(s[j])
    ensures forall i, j :: 0 <= i < j < |r| ==> f(r[i]) != f(r[j])
  {
    forall i, j | 0 <= i < j < |r|
      ensures f(r[i]) != f(r[j])
    {
      assert r[i] in multiset(s) && r[j] in multiset(s);
      assert r[i] in s && r[j] in s;
      var p :| 0 <= p < |s| && s[p] == r[i];
      var q :| 0 <= q < |s| && s[q] == r[j];
      if r[i] == r[j] {
        assert r == r[..j] + r[j..];
        assert r[i] in r[..j] && r[j] in r[j..];
        assert multiset(r)[r[i]] == multiset(r[..j])[r[i]] + multiset(r[j..])[r[i]];
        SingleOccurrence(s, f, p);
      } else {
        assert p != q;
      }
    }
  }

  /** In a sequence with distinct keys every element occurs once. */
  lemma {:induction false} SingleOccurrence<T, K>(s: seq<T>, f: T -> K, p: nat)
    requires p < |s|
    requires forall i, j :: 0 <= i < j < |s| ==> f(s[i]) != f(s[j])
    ensures multiset(s)[s[p]] == 1
  {
    var x := s[p];
    assert s == s[..p] + [x] + s[p + 1..];
    assert forall k :: 0 <= k < p ==> s[..p][k] == s[k];
    assert forall k :: p + 1 <= k < |s| ==> s[p + 1..][k - p - 1] == s[k];
  }

  /** Ascending by price, models without pricing come after every priced one
      (prices below `Number.MAX_VALUE`). */
  lemma UnpricedLast(models: seq<AIModel>, key: string)
    requires key == "inputPrice" || key == "outputPrice"
    requires forall m :: m in models && m.pricing.Some? ==> NumberOf(m, key) < MaxValue
    ensures var r := Sorting.SortSeq(models, Comparator(key, "asc"));
            forall i, j :: 0 <= i < j < |r| && r[i].pricing.None? ==> r[j].pricing.None?
  {
    SortedByNumber(models, key, "asc");
    var r := Sorting.SortSeq(models, Comparator(key, "asc"));
    Sorting.SortSeqPermutes(models, Comparator(key, "asc"));
    forall j | 0 <= j < |r|
      ensures r[j] in models
    {
      assert r[j] in multiset(models);
    }
  }

  /** Sorting by a text column follows string comparison, reversed unless the
      direction is 'asc'; a missing category or vendor sorts as ''. */
  lemma {:induction false} SortedByText(models: seq<AIModel>, key: string, direction: string)
    requires IsTextKey(key)
    ensures var r := Sorting.SortSeq(models, Comparator(key, direction));
            forall i, j :: 0 <= i < j < |r| ==>
              if direction == "asc" then !Text.Less(TextOf(r[j], key), TextOf(r[i], key))
              else !Text.Less(TextOf(r[i], key), TextOf(r[j], key))
  {
    TextComparatorConsistent(key, direction);
    Sorting.SortSeqSorts(models, Comparator(key, direction));
    var r := Sorting.SortSeq(models, Comparator(key, direction));
    forall i, j | 0 <= i < j < |r|
      ensures if direction == "asc" then !Text.Less(TextOf(r[j], key), TextOf(r[i], key))
              else !Text.Less(TextOf(r[i], key), TextOf(r[j], key))
    {
      TextComparison(r[i], r[j], key, direction);
    }
  }

  /** A key that names no property of a model (such as 'samplePrice')
      leaves the order as it was: it compares '' with '' everywhere, or,
      for a name inherited from `Object.prototype`, says "before" for
      every pair. */
  lemma UnknownKeyKeepsOrder(models: seq<AIModel>, key: string, direction: string)
    requires !IsNumericKey(key) && key !in {"inputPrice", "outputPrice", "categoryName", "vendorName"}
    requires key !in RecordFields
    ensures Sorting.SortSeq(models, Comparator(key, direction)) == models
  {
    forall a, b | a in models && b in models
      ensures Comparator(key, direction)(a, b) <= 0
    {
      if key in PrototypeMethods || key == "__proto__" {
        PrototypeKeyBefore(a, b, key, direction);
      } else {
        UnknownKeyTies(a, b, key, direction);
      }
    }
    Sorting.NoSwapKeepsOrder(models, Comparator(key, direction));
  }

  /** A key that is neither a column, a record property nor an inherited
      name reads '' on both sides: a tie. */
  lemma UnknownKeyTies(a: AIModel, b: AIModel, key: string, direction: string)
    requires !IsNumericKey(key) && key !in {"inputPrice", "outputPrice", "categoryName", "vendorName"}
    requires key !in RecordFields && key !in PrototypeMethods && key != "__proto__"
    ensures CompareModels(a, b, key, direction) == 0
  {
  }

  /** A key inherited from `Object.prototype` reads the same non-string
      value on both sides; neither is greater, so the comparator returns -1
      for every pair, in either direction. */
  lemma PrototypeKeyBefore(a: AIModel, b: AIModel, key: string, direction: string)
    requires key in PrototypeMethods || key == "__proto__"
    ensures CompareModels(a, b, key, direction) == -1
  {
    var v := FieldValue(a, key);
    assert SortValueOf(a, key) == v && SortValueOf(b, key) == v;
    assert !v.Text?;
    var x := ToPrimitive(v);
    Text.LessIrreflexive(x.s);
    assert !Greater(v, v);
  }
}
