/**
 * The TypeScript catalogue validator (`src/lib/dataValidator.ts`): the
 * per-model checks, with price range warnings and a list of models whose
 * prices are intentionally unusual, and its merge over the vendor files.
 * The vendor files are parsed JSON, so a model is a `Value`.
 */
module DataValidator {
  import opened Wrappers
  import opened Json
  import opened Types
  import Text
  import Seqs
  import opened ModelChecks

  const RequiredModelFields: seq<string> :=
    ["id", "systemName", "displayName", "categoryId", "parametersB", "vendorId", "host", "isHidden"]

  /** Names whose presence in the system or display name switches the range
      checks off: a substring test, unlike the pricing checker's. */
  const ExceptionalModels: seq<string> := ["o1-pro", "O1-Pro", "gpt-4.5", "GPT-4.5", "GPT 4.5"]

  const SuspiciouslyLowBound: real := 0.001
  const HighInput: real := 200.0
  const HighOutput: real := 500.0
  const GoogleSuspectInput: real := 37.5

  /** `model.displayName || model.systemName`. */
  function ModelName(model: Value): Value {
    Or(Field(model, "displayName"), Field(model, "systemName"))
  }

  /** A value with an `includes` method. */
  predicate HasIncludes(v: Value) { v.Str? || v.Arr? }

  predicate Found(v: Value, name: string) {
    Includes(v, name) == Ok(true)
  }

  /** `names.some(name => systemName.includes(name) || (modelName && modelName.includes(name)))`,
      which throws when it calls `includes` on a value without one. */
  function SomeNameMatches(names: seq<string>, systemName: Value, modelName: Value): (r: Result<bool>)
    ensures HasIncludes(systemName) && (!Truthy(modelName) || HasIncludes(modelName)) ==>
              r == Ok(exists k :: 0 <= k < |names| && (Found(systemName, names[k]) || (Truthy(modelName) && Found(modelName, names[k]))))
    ensures names != [] && !HasIncludes(systemName) ==> r == Thrown(TypeError)
  {
    if names == [] then Ok(false)
    else
      match Includes(systemName, names[0])
      case Thrown(e) => Thrown(e)
      case Ok(inSystem) =>
        if inSystem then Ok(true)
        else if !Truthy(modelName) then SomeNameMatches(names[1..], systemName, modelName)
        else
          match Includes(modelName, names[0])
          case Thrown(e) => Thrown(e)
          case Ok(inName) => if inName then Ok(true) else SomeNameMatches(names[1..], systemName, modelName)
  }

  /** Whether the range checks are skipped: some exceptional name occurs in
      the system name or in a truthy display name; a system name without
      `includes` throws. */
  function IsExceptional(model: Value): (r: Result<bool>)
    ensures var sys, name := Field(model, "systemName"), ModelName(model);
            HasIncludes(sys) && (!Truthy(name) || HasIncludes(name)) ==>
              r == Ok(exists k :: 0 <= k < |ExceptionalModels|
                                  && (Found(sys, ExceptionalModels[k]) || (Truthy(name) && Found(name, ExceptionalModels[k]))))
    ensures !HasIncludes(Field(model, "systemName")) ==> r == Thrown(TypeError)
  {
    SomeNameMatches(ExceptionalModels, Field(model, "systemName"), ModelName(model))
  }

  /** The range checks of a non-negative price. */
  function RangeErrors(field: string, v: real, model: Value): (r: seq<VError>)
    ensures SuspiciouslyLow(ModelName(model), field, v) in r <==> 0.0 < v < SuspiciouslyLowBound
    ensures UnusuallyHigh(ModelName(model), field, v) in r <==>
              (field == "inputText" && v > HighInput) || (field == "outputText" && v > HighOutput)
    ensures GoogleVerification(ModelName(model)) in r <==>
              StrictEquals(Field(model, "host"), Str("google")) && field == "inputText" && v == GoogleSuspectInput
    ensures v == 0.0 ==> r == []
    ensures |r| <= 1
  {
    var name := ModelName(model);
    (if 0.0 < v < SuspiciouslyLowBound then [SuspiciouslyLow(name, field, v)] else [])
    + (if (field == "inputText" && v > HighInput) || (field == "outputText" && v > HighOutput)
       then [UnusuallyHigh(name, field, v)] else [])
    + (if StrictEquals(Field(model, "host"), Str("google")) && field == "inputText" && v == GoogleSuspectInput
       then [GoogleVerification(name)] else [])
  }

  /** One pass of the price loop. A value that is not a non-negative number
      gets only its type or sign error; an exceptional model skips the
      remaining checks of the field (`continue`); asking whether the model
      is exceptional can throw. */
  function PriceFieldErrors(field: string, model: Value, pricing: Value, file: string): (r: Result<seq<VError>>)
    ensures var value := Field(pricing, field);
            !(value.Num? && value.n >= 0.0) ==> r == Ok(TypeSignErrors(field, value, model, file))
    ensures var value := Field(pricing, field);
            value.Num? && value.n >= 0.0 ==>
              && (IsExceptional(model).Thrown? ==> r == Thrown(IsExceptional(model).error))
              && (IsExceptional(model) == Ok(true) ==> r == Ok([]))
              && (IsExceptional(model) == Ok(false) ==> r == Ok(RangeErrors(field, value.n, model)))
  {
    var value := Field(pricing, field);
    if !(value.Num? && value.n >= 0.0) then Ok(TypeSignErrors(field, value, model, file))
    else
      match IsExceptional(model)
      case Thrown(e) => Thrown(e)
      case Ok(skip) => if skip then Ok([]) else Ok(RangeErrors(field, value.n, model))
  }

  /** The kinds of error the price loop produces. */
  predicate IsPriceError(e: VError) {
    e.NonNumericPrice? || e.NegativePrice? || e.SuspiciouslyLow? || e.UnusuallyHigh? || e.GoogleVerification?
  }

  /** The price loop over `fields`: the passes in order, ended by the first
      exception. */
  function PriceValueErrors(fields: seq<string>, model: Value, pricing: Value, file: string): (r: Result<seq<VError>>)
    ensures r.Ok? ==> forall i :: 0 <= i < |r.value| ==> IsPriceError(r.value[i])
  {
    if fields == [] then Ok([])
    else
      match PriceValueErrors(fields[..|fields| - 1], model, pricing, file)
      case Thrown(e) => Thrown(e)
      case Ok(before) =>
        match PriceFieldErrors(fields[|fields| - 1], model, pricing, file)
        case Thrown(e) => Thrown(e)
        case Ok(more) =>
          FieldErrorsArePriceErrors(fields[|fields| - 1], model, pricing, file);
          PriceErrorsConcat(before, more);
          Ok(before + more)
  }

  /** One pass yields only price errors. */
  lemma FieldErrorsArePriceErrors(field: string, model: Value, pricing: Value, file: string)
    ensures var r := PriceFieldErrors(field, model, pricing, file);
            r.Ok? ==> forall i :: 0 <= i < |r.value| ==> IsPriceError(r.value[i])
  {
    var value := Field(pricing, field);
    if value.Num? && value.n >= 0.0 && IsExceptional(model) == Ok(false) {
      var r := RangeErrors(field, value.n, model);
      if r != [] {
        assert r[0] in r;
      }
    }
  }

  lemma PriceErrorsConcat(a: seq<VError>, b: seq<VError>)
    requires forall i :: 0 <= i < |a| ==> IsPriceError(a[i])
    requires forall i :: 0 <= i < |b| ==> IsPriceError(b[i])
    ensures forall i :: 0 <= i < |a + b| ==> IsPriceError((a + b)[i])
  {
  }

  /** `validateModel`: a null model throws at the first field read. */
  function ModelErrors(model: Value, file: string): (r: Result<seq<VError>>)
    ensures IsNullish(model) ==> r == Thrown(TypeError)
    ensures !IsNullish(model) && !Truthy(Field(model, "pricing")) ==> r.Ok?
    ensures r.Ok? ==> MissingFieldErrors(RequiredModelFields, model, file) <= r.value
  {
    if IsNullish(model) then Thrown(TypeError)
    else
      var required := MissingFieldErrors(RequiredModelFields, model, file);
      var pricing := Field(model, "pricing");
      if !Truthy(pricing) then Ok(required + [MissingPricing(Field(model, "id"), file)])
      else
        match PriceValueErrors(PriceFields, model, pricing, file)
        case Thrown(e) => Thrown(e)
        case Ok(values) =>
          Ok(required + MissingPricingFieldErrors(RequiredPricingFields, model, pricing, file)
             + MismatchErrors(model, pricing, file) + values)
  }

  /** `validateModel`, pushing onto `errors` as the checks run. */
  method ValidateModel(model: Value, file: string) returns (r: Result<seq<VError>>)
    ensures r == ModelErrors(model, file)
  {
    if IsNullish(model) {
      return Thrown(TypeError);
    }
    var errors := CheckRequiredFields(RequiredModelFields, model, file);
    var pricing := Field(model, "pricing");
    if !Truthy(pricing) {
      errors := errors + [MissingPricing(Field(model, "id"), file)];
      return Ok(errors);
    }
    var missing := CheckPricingFields(RequiredPricingFields, model, pricing, file);
    errors := errors + missing;
    if !StrictEquals(Field(pricing, "modelId"), Field(model, "id")) {
      errors := errors + [MismatchedModelId(Field(model, "id"), file, Field(pricing, "modelId"))];
    }
    assert errors == MissingFieldErrors(RequiredModelFields, model, file) + missing + MismatchErrors(model, pricing, file);
    var values := CheckPriceValues(PriceFields, model, pricing, file);
    if values.Thrown? {
      return Thrown(values.error);
    }
    errors := errors + values.value;
    return Ok(errors);
  }

  /** The price loop, which stops at the first exception. */
  method CheckPriceValues(fields: seq<string>, model: Value, pricing: Value, file: string) returns (r: Result<seq<VError>>)
    ensures r == PriceValueErrors(fields, model, pricing, file)
  {
    var errors: seq<VError> := [];
    for i := 0 to |fields|
      invariant PriceValueErrors(fields[..i], model, pricing, file) == Ok(errors)
    {
      assert fields[..i + 1][..i] == fields[..i];
      var more := CheckPriceField(fields[i], model, pricing, file);
      if more.Thrown? {
        ThrownPersists(fields, i + 1, model, pricing, file);
        return Thrown(more.error);
      }
      errors := errors + more.value;
    }
    assert fields[..|fields|] == fields;
    return Ok(errors);
  }

  /** The body of the price loop for one field. */
  method CheckPriceField(field: string, model: Value, pricing: Value, file: string) returns (r: Result<seq<VError>>)
    ensures r == PriceFieldErrors(field, model, pricing, file)
  {
    var value := Field(pricing, field);
    if value.Undefined? {
      return Ok([]);
    }
    if !value.Num? {
      return Ok([NonNumericPrice(Field(model, "id"), file, field, value)]);
    } else if value.n < 0.0 {
      return Ok([NegativePrice(Field(model, "id"), file, field, value.n)]);
    }
    var modelName := ModelName(model);
    var exceptional := SomeNameMatches(ExceptionalModels, Field(model, "systemName"), modelName);
    if exceptional.Thrown? {
      return Thrown(exceptional.error);
    }
    if exceptional.value {
      return Ok([]);
    }
    var errors: seq<VError> := [];
    if value.n > 0.0 && value.n < SuspiciouslyLowBound {
      errors := errors + [SuspiciouslyLow(modelName, field, value.n)];
    }
    ghost var low := errors;
    if (field == "inputText" && value.n > HighInput) || (field == "outputText" && value.n > HighOutput) {
      errors := errors + [UnusuallyHigh(modelName, field, value.n)];
    }
    ghost var high := errors[|low|..];
    assert errors == low + high;
    if StrictEquals(Field(model, "host"), Str("google")) && field == "inputText" && value.n == GoogleSuspectInput {
      errors := errors + [GoogleVerification(modelName)];
    }
    ghost var google := errors[|low + high|..];
    assert errors == low + high + google;
    assert errors == RangeErrors(field, value.n, model);
    return Ok(errors);
  }

  /** Once a pass throws, the loop over any longer prefix throws the same. */
  lemma {:induction false} ThrownPersists(fields: seq<string>, i: nat, model: Value, pricing: Value, file: string)
    requires 0 < i <= |fields|
    requires PriceValueErrors(fields[..i - 1], model, pricing, file).Ok?
    requires PriceFieldErrors(fields[i - 1], model, pricing, file).Thrown?
    ensures PriceValueErrors(fields, model, pricing, file) == Thrown(PriceFieldErrors(fields[i - 1], model, pricing, file).error)
    decreases |fields|
  {
    if i < |fields| {
      var init := fields[..|fields| - 1];
      assert init[..i - 1] == fields[..i - 1] && init[i - 1] == fields[i - 1];
      ThrownPersists(init, i, model, pricing, file);
    } else {
      assert fields[..|fields| - 1] == fields[..i - 1];
    }
  }

  /** The configuration of this file's merge: every model is validated,
      hidden ones included. */
  function MergeConfig(categories: seq<Category>, vendors: seq<Vendor>): (cfg: Config)
    ensures !cfg.skipHidden && cfg.categories == categories && cfg.vendors == vendors
    ensures forall m, f :: cfg.validate(m, f) == ModelErrors(m, f)
  {
    Config((m: Value, f: string) => ModelErrors(m, f), false, categories, vendors)
  }

  /** `mergeAndValidateData` once the categories, vendors and vendor files
      are loaded. */
  method MergeAndValidateData(files: seq<SourceFile>, categories: seq<Category>, vendors: seq<Vendor>)
    returns (models: seq<Value>, validationErrors: seq<VError>)
    ensures var st := ProcessFiles(MergeConfig(categories, vendors), Start, JsonFiles(files));
            models == Sorting.SortSeq(st.models, ById()) && validationErrors == st.errors
    ensures MergePromises(MergeConfig(categories, vendors), JsonFiles(files), models, validationErrors)
  {
    models, validationErrors := MergeAndValidate(files, MergeConfig(categories, vendors));
  }

  /** Every model of every file, in order. */
  function AllModels(files: seq<SourceFile>): seq<Value>
    decreases |files|
  {
    if files == [] then [] else FileItems(files[0]) + AllModels(files[1..])
  }

  /** Nothing is skipped here: the kept models are all the models. */
  lemma {:induction false} EveryModelKept(categories: seq<Category>, vendors: seq<Vendor>, files: seq<SourceFile>)
    ensures KeptModels(MergeConfig(categories, vendors), files) == AllModels(files)
    decreases |files|
  {
    if files != [] {
      var cfg := MergeConfig(categories, vendors);
      Seqs.FilterTrue(FileItems(files[0]), KeptOf(cfg));
      EveryModelKept(categories, vendors, files[1..]);
    }
  }

  // ------------------------------------------------------------ properties

  lemma RequiredModelFieldsDistinct()
    ensures Seqs.NoDuplicates(RequiredModelFields)
  {
  }

  /** Each of the eight required fields left undefined yields one
      missing-field error, and no other field does. */
  lemma MissingFieldsReported(model: Value, file: string)
    requires ModelErrors(model, file).Ok?
    ensures var es := ModelErrors(model, file).value;
            forall f :: MissingField(Label(model), file, f) in es <==> f in RequiredModelFields && Field(model, f).Undefined?
    ensures Seqs.NoDuplicates(MissingFieldErrors(RequiredModelFields, model, file))
  {
    RequiredModelFieldsDistinct();
    var pricing := Field(model, "pricing");
    if Truthy(pricing) {
      var values := PriceValueErrors(PriceFields, model, pricing, file).value;
      var rest := MissingPricingFieldErrors(RequiredPricingFields, model, pricing, file) + MismatchErrors(model, pricing, file) + values;
      forall f
        ensures MissingField(Label(model), file, f) !in rest
      {
        forall i | 0 <= i < |values| ensures values[i] != MissingField(Label(model), file, f) {
          assert IsPriceError(values[i]);
        }
      }
      Seqs.ConcatAssoc(MissingFieldErrors(RequiredModelFields, model, file),
                       MissingPricingFieldErrors(RequiredPricingFields, model, pricing, file) + MismatchErrors(model, pricing, file),
                       values);
      Seqs.ConcatAssoc(MissingFieldErrors(RequiredModelFields, model, file),
                       MissingPricingFieldErrors(RequiredPricingFields, model, pricing, file), MismatchErrors(model, pricing, file));
    }
  }

  /** Without pricing: the missing-pricing error and no pricing-field error. */
  lemma NoPricingOnlyMissingPricing(model: Value, file: string)
    requires !IsNullish(model) && !Truthy(Field(model, "pricing"))
    ensures ModelErrors(model, file) ==
              Ok(MissingFieldErrors(RequiredModelFields, model, file) + [MissingPricing(Field(model, "id"), file)])
  {
  }

  /** With pricing, a `modelId` that is not the model's id is reported. */
  lemma MismatchReported(model: Value, file: string)
    requires Truthy(Field(model, "pricing")) && ModelErrors(model, file).Ok?
    ensures var pricing := Field(model, "pricing");
            (MismatchedModelId(Field(model, "id"), file, Field(pricing, "modelId")) in ModelErrors(model, file).value
             <==> !StrictEquals(Field(pricing, "modelId"), Field(model, "id")))
  {
    var pricing := Field(model, "pricing");
    var e := MismatchedModelId(Field(model, "id"), file, Field(pricing, "modelId"));
    var required := MissingFieldErrors(RequiredModelFields, model, file);
    var missing := MissingPricingFieldErrors(RequiredPricingFields, model, pricing, file);
    var values := PriceValueErrors(PriceFields, model, pricing, file).value;
    assert ModelErrors(model, file).value == (required + missing) + MismatchErrors(model, pricing, file) + values;
    forall i | 0 <= i < |values| ensures values[i] != e {
      assert IsPriceError(values[i]);
    }
    forall i | 0 <= i < |required + missing| ensures (required + missing)[i] != e {
      if i < |required| {
        assert (required + missing)[i] == required[i];
      } else {
        assert (required + missing)[i] == missing[i - |required|];
      }
    }
  }

  /** An exceptional name skips the range and Google checks of every field,
      but not the type and sign checks. */
  lemma ExceptionKeepsTypeChecks(field: string, model: Value, pricing: Value, file: string)
    requires IsExceptional(model) == Ok(true)
    ensures PriceFieldErrors(field, model, pricing, file) == Ok(TypeSignErrors(field, Field(pricing, field), model, file))
  {
  }

  /** A system name that merely contains an exceptional name counts. */
  lemma ExceptionBySubstring(model: Value)
    requires Field(model, "systemName") == Str("gpt-4.5-preview")
    requires !Truthy(ModelName(model)) || HasIncludes(ModelName(model))
    ensures IsExceptional(model) == Ok(true)
  {
    assert Text.OccursAt("gpt-4.5-preview", ExceptionalModels[2], 0);
  }

  /** A Google model with an input price of exactly 37.5 gets the single
      verification message for that field. */
  lemma GoogleInputVerified(model: Value, pricing: Value, file: string)
    requires Field(model, "host") == Str("google") && Field(pricing, "inputText") == Num(37.5)
    requires IsExceptional(model) == Ok(false)
    ensures PriceFieldErrors("inputText", model, pricing, file) == Ok([GoogleVerification(ModelName(model))])
  {
    var value := Field(pricing, "inputText");
    assert value.Num? && value.n == GoogleSuspectInput;
    assert StrictEquals(Field(model, "host"), Str("google"));
    assert RangeErrors("inputText", value.n, model) == [GoogleVerification(ModelName(model))];
  }

  /** A model without a system name but with a non-negative price throws
      instead of reporting the missing field, so the merge gives up on the
      rest of its file. */
  lemma MissingSystemNameThrows(model: Value, file: string)
    requires model.Obj? && Field(model, "systemName").Undefined?
    requires Truthy(Field(model, "pricing")) && Field(Field(model, "pricing"), "inputText") == Num(1.0)
    ensures ModelErrors(model, file) == Thrown(TypeError)
  {
    var pricing := Field(model, "pricing");
    assert PriceFields[..1] == ["inputText"] && PriceFields[0] == "inputText";
    assert PriceValueErrors(PriceFields[..0], model, pricing, file) == Ok([]);
    ThrownPersists(PriceFields, 1, model, pricing, file);
  }
}
