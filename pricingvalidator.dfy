/**
 * The pricing sanity checker (`scripts/pricing-validator.js`): generic
 * thresholds that catch prices entered per token instead of per million
 * tokens, and typical price ranges of three vendors. Findings are appended
 * to two lists the driver owns, critical issues and warnings; they are
 * structured values here instead of message strings. The database query
 * (visible models with their pricing and vendor), the console report and
 * the log file are not part of this model: the models come in as a list.
 */
module PricingValidator {
  import opened Wrappers
  import Text
  import Seqs

  /** A stored pricing row as the query returns it; a price may be null. */
  datatype PriceRow = PriceRow(inputText: Option<real>, outputText: Option<real>)

  /** A model row with its vendor's name (absent without a vendor or name)
      and its pricing (absent without a pricing row). */
  datatype ModelRow = ModelRow(
    displayName: string,
    systemName: string,
    host: string,
    vendorName: Option<string>,
    pricing: Option<PriceRow>)

  datatype PriceField = InputText | OutputText

  function Price(p: PriceRow, field: PriceField): Option<real> {
    match field
    case InputText => p.inputText
    case OutputText => p.outputText
  }

  datatype Issue =
    | SuspiciouslyLow(model: string, field: PriceField, price: real)
    | UnusuallyHigh(model: string, field: PriceField, price: real)
    | OutsideVendorRange(model: string, field: PriceField, price: real, vendor: VendorKey, min: real, max: real)
    | GooglePricingIssue(model: string, field: PriceField, price: real)

  datatype Warning =
    | NoPricingData(displayName: string, systemName: string)
    | MissingPrice(displayName: string, field: PriceField)

  // ------------------------------------------------------------ the tables

  /** The keys of the vendor table, in the order `Object.keys` lists them. */
  datatype VendorKey = Google | Anthropic | OpenAi

  const VendorKeys: seq<VendorKey> := [Google, Anthropic, OpenAi]

  /** The position of a key in the table. */
  function Rank(k: VendorKey): (i: nat)
    ensures i < |VendorKeys| && VendorKeys[i] == k
  {
    match k
    case Google => 0
    case Anthropic => 1
    case OpenAi => 2
  }

  function KeyName(k: VendorKey): string {
    match k
    case Google => "google"
    case Anthropic => "anthropic"
    case OpenAi => "openai"
  }

  /** A vendor's expected price ranges and its common prices (the common
      prices are listed but no check reads them). */
  datatype VendorPattern = VendorPattern(
    inputMin: real, inputMax: real,
    outputMin: real, outputMax: real,
    commonInputPrices: seq<real>,
    commonOutputPrices: seq<real>)

  function Pattern(k: VendorKey): (p: VendorPattern)
    ensures p.inputMin < p.inputMax && p.outputMin < p.outputMax
  {
    match k
    case Google => VendorPattern(0.0001, 0.1, 0.0005, 0.3, [0.0375, 0.075, 0.01875], [0.15, 0.3, 0.075])
    case Anthropic => VendorPattern(0.5, 15.0, 1.5, 30.0, [0.5, 1.0, 2.0, 3.0], [1.5, 3.0, 6.0, 15.0])
    case OpenAi => VendorPattern(0.1, 30.0, 0.3, 120.0, [0.5, 1.0, 3.0, 5.0, 10.0], [1.5, 3.0, 6.0, 15.0, 30.0])
  }

  /** Models whose unusual prices are intended. */
  const PricingExceptions: seq<string> := ["o1-pro", "gpt-4.5"]

  /** `PRICING_EXCEPTIONS.includes(systemName)`: an exact match. */
  predicate IsException(systemName: string) {
    systemName in PricingExceptions
  }

  const SuspiciouslyLowBound: real := 0.001
  const SuspiciouslyHighInput: real := 200.0
  const SuspiciouslyHighOutput: real := 500.0

  function HighThreshold(field: PriceField): real {
    if field == InputText then SuspiciouslyHighInput else SuspiciouslyHighOutput
  }

  // --------------------------------------------------------- vendor choice

  /** The key is searched in the lower-cased vendor name (or '') and in the
      lower-cased host. */
  predicate KeyMatches(k: VendorKey, vendorName: string, host: string) {
    Text.Contains(vendorName, KeyName(k)) || Text.Contains(Text.Lower(host), KeyName(k))
  }

  /** `model.vendor?.name?.toLowerCase() || ""`. */
  function LowerVendorName(m: ModelRow): (r: string)
    ensures m.vendorName.None? ==> r == ""
    ensures m.vendorName.Some? ==> r == Text.Lower(m.vendorName.value)
  {
    if m.vendorName.Some? then Text.Lower(m.vendorName.value) else ""
  }

  /** `Object.keys(VENDOR_PATTERNS).find(...)`: the first key, in table
      order, that matches. */
  function FindVendorKey(vendorName: string, host: string): (r: Option<VendorKey>)
    ensures r.None? <==> forall k: VendorKey :: !KeyMatches(k, vendorName, host)
    ensures r.Some? ==> KeyMatches(r.value, vendorName, host)
                          && forall j :: 0 <= j < Rank(r.value) ==> !KeyMatches(VendorKeys[j], vendorName, host)
  {
    var r := FindKeyFrom(0, vendorName, host);
    assert r.None? ==> forall k: VendorKey :: !KeyMatches(VendorKeys[Rank(k)], vendorName, host);
    r
  }

  /** The search from position `i` of the table on. */
  function FindKeyFrom(i: nat, vendorName: string, host: string): (r: Option<VendorKey>)
    requires i <= |VendorKeys|
    ensures r.None? <==> forall j :: i <= j < |VendorKeys| ==> !KeyMatches(VendorKeys[j], vendorName, host)
    ensures r.Some? ==> KeyMatches(r.value, vendorName, host) && i <= Rank(r.value)
                          && forall j :: i <= j < Rank(r.value) ==> !KeyMatches(VendorKeys[j], vendorName, host)
    decreases |VendorKeys| - i
  {
    if i == |VendorKeys| then None
    else if KeyMatches(VendorKeys[i], vendorName, host) then Some(VendorKeys[i])
    else FindKeyFrom(i + 1, vendorName, host)
  }

  function VendorKeyOf(m: ModelRow): Option<VendorKey> {
    FindVendorKey(LowerVendorName(m), m.host)
  }

  // ----------------------------------------------------- what each check adds

  /** The warnings of `validatePrice`: one for a missing or null price. */
  function PriceWarnings(m: ModelRow, p: PriceRow, field: PriceField): (r: seq<Warning>)
    ensures Price(p, field).None? ==> r == [MissingPrice(m.displayName, field)]
    ensures Price(p, field).Some? ==> r == []
  {
    if Price(p, field).None? then [MissingPrice(m.displayName, field)] else []
  }

  /** The issues of `validatePrice`: none for a missing price or an
      excepted model; otherwise a low flag exactly for a price in
      (0, 0.001) and a high flag exactly above the field's threshold. The
      two ranges are disjoint, so a field gets at most one issue. */
  function PriceIssues(m: ModelRow, p: PriceRow, field: PriceField): (r: seq<Issue>)
    ensures Price(p, field).None? || IsException(m.systemName) ==> r == []
    ensures |r| <= 1
    ensures Price(p, field).Some? && !IsException(m.systemName) ==>
              var v := Price(p, field).value;
              && (SuspiciouslyLow(m.displayName, field, v) in r <==> 0.0 < v < SuspiciouslyLowBound)
              && (UnusuallyHigh(m.displayName, field, v) in r <==> v > HighThreshold(field))
              && (forall i :: 0 <= i < |r| ==>
                    r[i] == SuspiciouslyLow(m.displayName, field, v) || r[i] == UnusuallyHigh(m.displayName, field, v))
  {
    match Price(p, field)
    case None => []
    case Some(v) =>
      if IsException(m.systemName) then []
      else
        (if 0.0 < v < SuspiciouslyLowBound then [SuspiciouslyLow(m.displayName, field, v)] else [])
        + (if v > HighThreshold(field) then [UnusuallyHigh(m.displayName, field, v)] else [])
  }

  /** The range check of one leg: only a truthy (non-zero) price outside
      [min, max] is flagged. */
  function RangeIssue(m: ModelRow, field: PriceField, price: Option<real>, key: VendorKey, min: real, max: real): (r: seq<Issue>)
    ensures |r| <= 1
    ensures r != [] <==> price.Some? && price.value != 0.0 && (price.value < min || price.value > max)
    ensures r != [] ==> r == [OutsideVendorRange(m.displayName, field, price.value, key, min, max)]
  {
    if price.Some? && price.value != 0.0 && (price.value < min || price.value > max)
    then [OutsideVendorRange(m.displayName, field, price.value, key, min, max)]
    else []
  }

  /** Google's extra check of one leg: a price strictly inside (lo, hi).
      A null price compares as 0, which is below both bounds. */
  function GoogleIssue(m: ModelRow, field: PriceField, price: Option<real>, lo: real, hi: real): (r: seq<Issue>)
    requires 0.0 <= lo
    ensures r != [] <==> price.Some? && lo < price.value < hi
    ensures r != [] ==> r == [GooglePricingIssue(m.displayName, field, price.value)]
  {
    if price.Some? && lo < price.value < hi then [GooglePricingIssue(m.displayName, field, price.value)] else []
  }

  /** The issues of `vendorSpecificValidation`, in the order it adds them:
      the input range, the output range, then for Google the two
      confusion checks. An excepted model gets none. */
  function VendorIssues(m: ModelRow, p: PriceRow, key: VendorKey): (r: seq<Issue>)
    ensures IsException(m.systemName) ==> r == []
    ensures |r| <= 4
    ensures !IsException(m.systemName) ==>
              var pat := Pattern(key);
              r == RangeIssue(m, InputText, p.inputText, key, pat.inputMin, pat.inputMax)
                   + RangeIssue(m, OutputText, p.outputText, key, pat.outputMin, pat.outputMax)
                   + (if key == Google then GoogleIssue(m, InputText, p.inputText, 10.0, 50.0)
                                            + GoogleIssue(m, OutputText, p.outputText, 100.0, 200.0)
                      else [])
  {
    if IsException(m.systemName) then []
    else
      var pat := Pattern(key);
      RangeIssue(m, InputText, p.inputText, key, pat.inputMin, pat.inputMax)
      + RangeIssue(m, OutputText, p.outputText, key, pat.outputMin, pat.outputMax)
      + (if key == Google then GoogleIssue(m, InputText, p.inputText, 10.0, 50.0)
                               + GoogleIssue(m, OutputText, p.outputText, 100.0, 200.0)
         else [])
  }

  /** Everything the `forEach` callback adds for one model. */
  function ModelIssues(m: ModelRow): (r: seq<Issue>)
    ensures m.pricing.None? || IsException(m.systemName) ==> r == []
    ensures |r| <= 6
  {
    match m.pricing
    case None => []
    case Some(p) =>
      PriceIssues(m, p, InputText) + PriceIssues(m, p, OutputText)
      + (match VendorKeyOf(m) case Some(k) => VendorIssues(m, p, k) case None => [])
  }

  function ModelWarnings(m: ModelRow): (r: seq<Warning>)
    ensures m.pricing.None? ==> |r| == 1
    ensures |r| <= 2
    ensures r == [] <==> m.pricing.Some? && m.pricing.value.inputText.Some? && m.pricing.value.outputText.Some?
  {
    match m.pricing
    case None => [NoPricingData(m.displayName, m.systemName)]
    case Some(p) => PriceWarnings(m, p, InputText) + PriceWarnings(m, p, OutputText)
  }

  /** The findings over a list of models, model by model. */
  function AllIssues(models: seq<ModelRow>): seq<Issue> {
    if models == [] then [] else AllIssues(models[..|models| - 1]) + ModelIssues(models[|models| - 1])
  }

  function AllWarnings(models: seq<ModelRow>): seq<Warning> {
    if models == [] then [] else AllWarnings(models[..|models| - 1]) + ModelWarnings(models[|models| - 1])
  }

  // ------------------------------------------------------------ the driver

  /** The two lists the driver owns and the checks append to. */
  class Findings {
    var issues: seq<Issue>
    var warnings: seq<Warning>

    constructor ()
      ensures issues == [] && warnings == []
    {
      issues := [];
      warnings := [];
    }

    /** `validatePrice`. The caller has checked that the model has pricing. */
    method ValidatePrice(m: ModelRow, field: PriceField)
      requires m.pricing.Some?
      modifies this
      ensures issues == old(issues) + PriceIssues(m, m.pricing.value, field)
      ensures warnings == old(warnings) + PriceWarnings(m, m.pricing.value, field)
    {
      var price := Price(m.pricing.value, field);
      if price.None? {
        warnings := warnings + [MissingPrice(m.displayName, field)];
        return;
      }
      if IsException(m.systemName) {
        return;
      }
      var v := price.value;
      if v > 0.0 && v < SuspiciouslyLowBound {
        issues := issues + [SuspiciouslyLow(m.displayName, field, v)];
      }
      var highThreshold := if field == InputText then SuspiciouslyHighInput else SuspiciouslyHighOutput;
      if v > highThreshold {
        issues := issues + [UnusuallyHigh(m.displayName, field, v)];
      }
    }

    /** `vendorSpecificValidation` with the table entry of `key`. */
    method VendorSpecificValidation(m: ModelRow, key: VendorKey)
      requires m.pricing.Some?
      modifies this
      ensures issues == old(issues) + VendorIssues(m, m.pricing.value, key)
      ensures warnings == old(warnings)
    {
      if IsException(m.systemName) {
        return;
      }
      var pat := Pattern(key);
      var inputPrice := m.pricing.value.inputText;
      var outputPrice := m.pricing.value.outputText;
      ghost var issues0 := issues;
      ghost var inputRange := RangeIssue(m, InputText, inputPrice, key, pat.inputMin, pat.inputMax);
      ghost var outputRange := RangeIssue(m, OutputText, outputPrice, key, pat.outputMin, pat.outputMax);
      if inputPrice.Some? && inputPrice.value != 0.0 {
        if inputPrice.value < pat.inputMin || inputPrice.value > pat.inputMax {
          issues := issues + [OutsideVendorRange(m.displayName, InputText, inputPrice.value, key, pat.inputMin, pat.inputMax)];
        }
      }
      assert issues == issues0 + inputRange;
      if outputPrice.Some? && outputPrice.value != 0.0 {
        if outputPrice.value < pat.outputMin || outputPrice.value > pat.outputMax {
          issues := issues + [OutsideVendorRange(m.displayName, OutputText, outputPrice.value, key, pat.outputMin, pat.outputMax)];
        }
      }
      assert issues == issues0 + inputRange + outputRange;
      Seqs.ConcatAssoc(issues0, inputRange, outputRange);
      if key == Google {
        ghost var ranges := issues;
        ghost var inputGoogle := GoogleIssue(m, InputText, inputPrice, 10.0, 50.0);
        ghost var outputGoogle := GoogleIssue(m, OutputText, outputPrice, 100.0, 200.0);
        if inputPrice.Some? && inputPrice.value > 10.0 && inputPrice.value < 50.0 {
          issues := issues + [GooglePricingIssue(m.displayName, InputText, inputPrice.value)];
        }
        assert issues == ranges + inputGoogle;
        if outputPrice.Some? && outputPrice.value > 100.0 && outputPrice.value < 200.0 {
          issues := issues + [GooglePricingIssue(m.displayName, OutputText, outputPrice.value)];
        }
        assert issues == ranges + inputGoogle + outputGoogle;
        Seqs.ConcatAssoc(ranges, inputGoogle, outputGoogle);
        Seqs.ConcatAssoc(issues0, inputRange + outputRange, inputGoogle + outputGoogle);
      } else {
        assert issues == issues0 + (inputRange + outputRange) + [];
      }
    }

    /** The `forEach` callback for one model. */
    method CheckModel(m: ModelRow)
      modifies this
      ensures issues == old(issues) + ModelIssues(m)
      ensures warnings == old(warnings) + ModelWarnings(m)
    {
      if m.pricing.None? {
        warnings := warnings + [NoPricingData(m.displayName, m.systemName)];
        return;
      }
      ghost var p := m.pricing.value;
      ghost var issues0, warnings0 := issues, warnings;
      var vendorKey := FindVendorKey(LowerVendorName(m), m.host);
      ValidatePrice(m, InputText);
      ValidatePrice(m, OutputText);
      Seqs.ConcatAssoc(issues0, PriceIssues(m, p, InputText), PriceIssues(m, p, OutputText));
      Seqs.ConcatAssoc(warnings0, PriceWarnings(m, p, InputText), PriceWarnings(m, p, OutputText));
      ghost var generic := issues;
      if vendorKey.Some? {
        VendorSpecificValidation(m, vendorKey.value);
        Seqs.ConcatAssoc(issues0, PriceIssues(m, p, InputText) + PriceIssues(m, p, OutputText), VendorIssues(m, p, vendorKey.value));
      } else {
        assert issues == issues0 + (PriceIssues(m, p, InputText) + PriceIssues(m, p, OutputText)) + [];
      }
    }

    /** `models.forEach(...)`. */
    method CheckModels(models: seq<ModelRow>)
      modifies this
      ensures issues == old(issues) + AllIssues(models)
      ensures warnings == old(warnings) + AllWarnings(models)
    {
      for i := 0 to |models|
        invariant issues == old(issues) + AllIssues(models[..i])
        invariant warnings == old(warnings) + AllWarnings(models[..i])
      {
        ghost var issues0, warnings0 := issues, warnings;
        CheckModel(models[i]);
        AllFindingsSnoc(models, i);
        Seqs.ConcatAssoc(old(issues), AllIssues(models[..i]), ModelIssues(models[i]));
        Seqs.ConcatAssoc(old(warnings), AllWarnings(models[..i]), ModelWarnings(models[i]));
      }
      assert models[..|models|] == models;
    }
  }

  lemma AllFindingsSnoc(models: seq<ModelRow>, i: nat)
    requires i < |models|
    ensures AllIssues(models[..i + 1]) == AllIssues(models[..i]) + ModelIssues(models[i])
    ensures AllWarnings(models[..i + 1]) == AllWarnings(models[..i]) + ModelWarnings(models[i])
  {
    assert models[..i + 1][..i] == models[..i];
  }

  // ------------------------------------------------------------- properties

  /** A model without pricing gets exactly one warning and no checks. */
  lemma NoPricingWarnsOnce(m: ModelRow)
    requires m.pricing.None?
    ensures ModelIssues(m) == [] && ModelWarnings(m) == [NoPricingData(m.displayName, m.systemName)]
  {
  }

  /** A model with pricing gets one warning per missing price and no other. */
  lemma MissingPricesWarn(m: ModelRow)
    requires m.pricing.Some?
    ensures |ModelWarnings(m)| == (if m.pricing.value.inputText.None? then 1 else 0)
                                 + (if m.pricing.value.outputText.None? then 1 else 0)
  {
  }

  /** A missing price is never an issue: with both prices missing, no
      threshold and no vendor range fires. */
  lemma MissingPricesNoIssue(m: ModelRow)
    requires m.pricing.Some? && m.pricing.value.inputText.None? && m.pricing.value.outputText.None?
    ensures ModelIssues(m) == []
  {
  }

  /** An excepted model gets no issue from either validator. */
  lemma ExceptionSilencesIssues(m: ModelRow)
    requires IsException(m.systemName)
    ensures ModelIssues(m) == []
  {
  }

  /** The exception list is matched exactly, not as a substring: a variant
      of an excepted name is still checked. */
  lemma ExceptionIsExactName()
    ensures !IsException("o1-pro-2025") && !IsException("gpt-4.5-preview")
    ensures var m := ModelRow("O1 Pro", "o1-pro-2025", "custom", None, Some(PriceRow(Some(0.0005), Some(600.0))));
            ModelIssues(m) == [SuspiciouslyLow("O1 Pro", InputText, 0.0005), UnusuallyHigh("O1 Pro", OutputText, 600.0)]
  {
    var m := ModelRow("O1 Pro", "o1-pro-2025", "custom", None, Some(PriceRow(Some(0.0005), Some(600.0))));
    NoKeyInCustomHost(m);
  }

  lemma NoKeyInCustomHost(m: ModelRow)
    requires m.host == "custom" && m.vendorName.None?
    ensures VendorKeyOf(m).None?
  {
    assert Text.Lower("custom") == "custom";
    forall k: VendorKey
      ensures !KeyMatches(k, "", "custom")
    {
      NotContainedInShorter("", KeyName(k));
      if k != Anthropic {
        NotContainedInSameLength("custom", KeyName(k));
      } else {
        NotContainedInShorter("custom", KeyName(k));
      }
    }
  }

  lemma NotContainedInShorter(s: string, sub: string)
    requires |s| < |sub|
    ensures !Text.Contains(s, sub)
  {
  }

  lemma NotContainedInSameLength(s: string, sub: string)
    requires |s| == |sub| && s != sub
    ensures !Text.Contains(s, sub)
  {
    forall i | 0 <= i <= |s| - |sub|
      ensures !Text.OccursAt(s, sub, i)
    {
      assert s[i..i + |sub|] == s;
    }
  }

  /** A price of 0 is never flagged, by the thresholds or the vendor ranges. */
  lemma ZeroPricesNotFlagged(m: ModelRow)
    requires m.pricing == Some(PriceRow(Some(0.0), Some(0.0)))
    ensures ModelIssues(m) == []
  {
  }

  /** A Google input price of 37.5 is both outside Google's input range and
      inside the per-character confusion window: two issues, while 37.5 is
      well under the generic thresholds. */
  lemma GoogleInputFlaggedTwice(m: ModelRow)
    requires VendorKeyOf(m) == Some(Google) && !IsException(m.systemName)
    requires m.pricing == Some(PriceRow(Some(37.5), Some(0.15)))
    ensures ModelIssues(m) == [OutsideVendorRange(m.displayName, InputText, 37.5, Google, 0.0001, 0.1),
                               GooglePricingIssue(m.displayName, InputText, 37.5)]
  {
    var p := m.pricing.value;
    assert PriceIssues(m, p, InputText) == [] && PriceIssues(m, p, OutputText) == [];
    assert RangeIssue(m, OutputText, p.outputText, Google, 0.0005, 0.3) == [];
    assert GoogleIssue(m, OutputText, p.outputText, 100.0, 200.0) == [];
  }

  /** The vendor key is the first table key found in the vendor name or the
      host, so a host naming Google wins over a vendor named Anthropic. */
  lemma GoogleKeyFirst(m: ModelRow)
    requires Text.Contains(Text.Lower(m.host), "google")
    ensures VendorKeyOf(m) == Some(Google)
  {
  }

  /** Without a table key only the generic checks run. */
  lemma NoKeyGenericOnly(m: ModelRow)
    requires m.pricing.Some? && VendorKeyOf(m).None?
    ensures ModelIssues(m) == PriceIssues(m, m.pricing.value, InputText) + PriceIssues(m, m.pricing.value, OutputText)
  {
  }
}
