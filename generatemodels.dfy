/**
 * The model-file generator (`scripts/generate-models.js`): a lighter
 * per-model check than the catalogue validator's (seven required fields,
 * only the type and sign of prices) and a merge that skips hidden models.
 */
module GenerateModels {
  import opened Wrappers
  import opened Json
  import opened Types
  import Seqs
  import opened ModelChecks

  /** `isHidden` is not among them. */
  const RequiredModelFields: seq<string> :=
    ["id", "systemName", "displayName", "categoryId", "parametersB", "vendorId", "host"]

  /** The price loop: a type or sign error per defined field that is not a
      non-negative number, in field order. */
  function PriceTypeErrors(fields: seq<string>, model: Value, pricing: Value, file: string): (r: seq<VError>)
    ensures forall i :: 0 <= i < |r| ==> (r[i].NonNumericPrice? || r[i].NegativePrice?) && r[i].model == Field(model, "id") && r[i].file == file
    ensures forall f, v :: NonNumericPrice(Field(model, "id"), file, f, v) in r <==>
              f in fields && v == Field(pricing, f) && !v.Undefined? && !v.Num?
    ensures forall f, p :: NegativePrice(Field(model, "id"), file, f, p) in r <==>
              f in fields && Field(pricing, f) == Num(p) && p < 0.0
    ensures |r| <= |fields|
    ensures (forall f :: f in fields ==> Field(pricing, f).Num? && Field(pricing, f).n >= 0.0) ==> r == []
  {
    if fields == [] then []
    else
      var init, f := fields[..|fields| - 1], fields[|fields| - 1];
      assert forall g :: g in fields <==> g in init || g == f;
      PriceTypeErrors(init, model, pricing, file) + TypeSignErrors(f, Field(pricing, f), model, file)
  }

  /** `validateModel`: apart from reading a field of a null model, it
      never throws. */
  function ModelErrors(model: Value, file: string): (r: Result<seq<VError>>)
    ensures r.Ok? <==> !IsNullish(model)
    ensures r.Thrown? ==> r.error == TypeError
    ensures r.Ok? ==> MissingFieldErrors(RequiredModelFields, model, file) <= r.value
  {
    if IsNullish(model) then Thrown(TypeError)
    else
      var required := MissingFieldErrors(RequiredModelFields, model, file);
      var pricing := Field(model, "pricing");
      if !Truthy(pricing) then Ok(required + [MissingPricing(Field(model, "id"), file)])
      else
        Ok(required + MissingPricingFieldErrors(RequiredPricingFields, model, pricing, file)
           + MismatchErrors(model, pricing, file) + PriceTypeErrors(PriceFields, model, pricing, file))
  }

  /** `validateModel`, pushing onto `errors` as the checks run. */
  method ValidateModel(model: Value, file: string) returns (r: Result<seq<VError>>)
    ensures r == ModelErrors(model, file)
  {
    if IsNullish(model) {
      return Thrown(TypeError);
    }
    var errors := CheckRequiredFields(RequiredModelFields, model, file);
    var pricing := Field(model, "pricing");
    if !Truthy(pricing) {
      errors := errors + [MissingPricing(Field(model, "id"), file)];
      return Ok(errors);
    }
    var missing := CheckPricingFields(RequiredPricingFields, model, pricing, file);
    errors := errors + missing;
    if !StrictEquals(Field(pricing, "modelId"), Field(model, "id")) {
      errors := errors + [MismatchedModelId(Field(model, "id"), file, Field(pricing, "modelId"))];
    }
    assert errors == MissingFieldErrors(RequiredModelFields, model, file) + missing + MismatchErrors(model, pricing, file);
    var types := CheckPriceTypes(PriceFields, model, pricing, file);
    errors := errors + types;
    return Ok(errors);
  }

  /** The price loop. */
  method CheckPriceTypes(fields: seq<string>, model: Value, pricing: Value, file: string) returns (errors: seq<VError>)
    ensures errors == PriceTypeErrors(fields, model, pricing, file)
  {
    errors := [];
    for i := 0 to |fields|
      invariant errors == PriceTypeErrors(fields[..i], model, pricing, file)
    {
      assert fields[..i + 1][..i] == fields[..i];
      var field := fields[i];
      var value := Field(pricing, field);
      if !value.Undefined? {
        if !value.Num? {
          errors := errors + [NonNumericPrice(Field(model, "id"), file, field, value)];
        } else if value.n < 0.0 {
          errors := errors + [NegativePrice(Field(model, "id"), file, field, value.n)];
        }
      }
    }
    assert fields[..|fields|] == fields;
  }

  /** The configuration of this script's merge: hidden models are skipped
      before they are validated. */
  function MergeConfig(categories: seq<Category>, vendors: seq<Vendor>): (cfg: Config)
    ensures cfg.skipHidden && cfg.categories == categories && cfg.vendors == vendors
    ensures forall m, f :: cfg.validate(m, f) == ModelErrors(m, f)
  {
    Config((m: Value, f: string) => ModelErrors(m, f), true, categories, vendors)
  }

  /** `mergeAndValidateData` once the categories, vendors and vendor files
      are loaded. */
  method MergeAndValidateData(files: seq<SourceFile>, categories: seq<Category>, vendors: seq<Vendor>)
    returns (models: seq<Value>, validationErrors: seq<VError>)
    ensures var st := ProcessFiles(MergeConfig(categories, vendors), Start, JsonFiles(files));
            models == Sorting.SortSeq(st.models, ById()) && validationErrors == st.errors
    ensures MergePromises(MergeConfig(categories, vendors), JsonFiles(files), models, validationErrors)
  {
    models, validationErrors := MergeAndValidate(files, MergeConfig(categories, vendors));
  }

  // ------------------------------------------------------------ properties

  /** `isHidden` is not required here. */
  lemma HiddenFlagNotRequired(model: Value, file: string)
    requires ModelErrors(model, file).Ok?
    ensures MissingField(Label(model), file, "isHidden") !in ModelErrors(model, file).value
  {
    var pricing := Field(model, "pricing");
    var e := MissingField(Label(model), file, "isHidden");
    var required := MissingFieldErrors(RequiredModelFields, model, file);
    assert e !in required;
    if Truthy(pricing) {
      var missing := MissingPricingFieldErrors(RequiredPricingFields, model, pricing, file);
      var types := PriceTypeErrors(PriceFields, model, pricing, file);
      var mismatch := MismatchErrors(model, pricing, file);
      assert ModelErrors(model, file).value == required + (missing + mismatch + types) by {
        Seqs.ConcatAssoc(required, missing, mismatch);
        Seqs.ConcatAssoc(required, missing + mismatch, types);
      }
      var rest := missing + mismatch + types;
      forall i | 0 <= i < |rest| ensures rest[i] != e {
        if i < |missing| {
          assert rest[i] == missing[i] && missing[i].MissingPricingField?;
        } else if i >= |missing + mismatch| {
          assert rest[i] == types[i - |missing + mismatch|];
        }
      }
    }
  }

  /** A hidden model is passed over: no error, no id, not in the output. */
  lemma HiddenSkipped(categories: seq<Category>, vendors: seq<Vendor>, st: MergeState, model: Value, file: string)
    requires Truthy(Field(model, "isHidden"))
    ensures Step(MergeConfig(categories, vendors), st, model, file) == Ok(st)
  {
    assert !IsNullish(model) by {
      assert !model.Obj? ==> Field(model, "isHidden") == Undefined;
    }
  }

  /** A file without null entries keeps exactly its visible models, in order. */
  lemma KeepsVisibleModels(categories: seq<Category>, vendors: seq<Vendor>, st: MergeState, items: seq<Value>, file: string)
    requires forall m :: m in items ==> !IsNullish(m)
    ensures var cfg := MergeConfig(categories, vendors);
            ProcessModels(cfg, st, items, file).models == st.models + Seqs.Filter(items, KeptOf(cfg))
  {
    KeepsEveryModel(MergeConfig(categories, vendors), st, items, file);
  }

  /** A null entry ends its file: the error is recorded and the models after
      it are not looked at. */
  lemma NullEntryEndsFile(categories: seq<Category>, vendors: seq<Vendor>, st: MergeState, items: seq<Value>, file: string)
    requires items != [] && IsNullish(items[0])
    ensures ProcessModels(MergeConfig(categories, vendors), st, items, file) ==
              st.(errors := st.errors + [FileFailed(file, TypeError)])
  {
  }
}
