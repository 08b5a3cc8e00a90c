/**
 * What the two catalogue validators share (`src/lib/dataValidator.ts` and
 * `scripts/generate-models.js`): the error kinds, the required-field and
 * pricing checks both `validateModel`s start with, and the merge loop over
 * the vendor files that collects every model, detects repeated ids and
 * dangling references, and sorts the result by id. The directory listing
 * and the file reads are inputs: each vendor file comes with its parsed
 * contents, or the error that reading or parsing it raised.
 */
module ModelChecks {
  import opened Wrappers
  import opened Json
  import opened Types
  import Seqs
  import Sorting
  import Text
  import JsNumbers

  /** The validation messages, as values. `model` is the id the message
      shows; `name` is the display or system name. */
  datatype VError =
    | MissingField(model: Value, file: string, field: string)
    | MissingPricing(model: Value, file: string)
    | MissingPricingField(model: Value, file: string, field: string)
    | MismatchedModelId(model: Value, file: string, pricingModelId: Value)
    | NonNumericPrice(model: Value, file: string, field: string, value: Value)
    | NegativePrice(model: Value, file: string, field: string, price: real)
    | SuspiciouslyLow(name: Value, field: string, price: real)
    | UnusuallyHigh(name: Value, field: string, price: real)
    | GoogleVerification(name: Value)
    | DuplicateModelId(id: Value, file: string)
    | DuplicatePricingId(id: Value, file: string)
    | UnknownCategory(model: Value, file: string, categoryId: Value)
    | UnknownVendor(model: Value, file: string, vendorId: Value)
    | FileFailed(file: string, error: JsError)

  const RequiredPricingFields: seq<string> := ["id", "modelId", "inputText", "outputText"]

  /** The price fields whose type and sign are checked. */
  const PriceFields: seq<string> := ["inputText", "outputText", "finetuningInput", "finetuningOutput", "trainingCost"]

  /** `model.id || "unknown"`. */
  function Label(model: Value): Value {
    Or(Field(model, "id"), Str("unknown"))
  }

  // --------------------------------------------------- shared model checks

  /** One missing-field error per field of `fields` the model leaves
      undefined, in list order. */
  function MissingFieldErrors(fields: seq<string>, model: Value, file: string): (r: seq<VError>)
    ensures forall f :: MissingField(Label(model), file, f) in r <==> f in fields && Field(model, f).Undefined?
    ensures forall i :: 0 <= i < |r| ==> r[i].MissingField? && r[i].model == Label(model) && r[i].file == file
    ensures Seqs.NoDuplicates(fields) ==> Seqs.NoDuplicates(r)
    ensures |r| <= |fields|
  {
    if fields == [] then []
    else
      var init, f := fields[..|fields| - 1], fields[|fields| - 1];
      assert forall g :: g in fields <==> g in init || g == f;
      MissingFieldErrors(init, model, file)
      + (if Field(model, f).Undefined? then [MissingField(Label(model), file, f)] else [])
  }

  /** One error per required pricing field the pricing object leaves
      undefined, in list order. */
  function MissingPricingFieldErrors(fields: seq<string>, model: Value, pricing: Value, file: string): (r: seq<VError>)
    ensures forall f :: MissingPricingField(Field(model, "id"), file, f) in r <==> f in fields && Field(pricing, f).Undefined?
    ensures forall i :: 0 <= i < |r| ==> r[i].MissingPricingField?
    ensures |r| <= |fields|
  {
    if fields == [] then []
    else
      var init, f := fields[..|fields| - 1], fields[|fields| - 1];
      assert forall g :: g in fields <==> g in init || g == f;
      MissingPricingFieldErrors(init, model, pricing, file)
      + (if Field(pricing, f).Undefined? then [MissingPricingField(Field(model, "id"), file, f)] else [])
  }

  /** `pricing.modelId !== model.id`: two values read from the document are
      equal only as the same primitive. */
  function MismatchErrors(model: Value, pricing: Value, file: string): (r: seq<VError>)
    ensures r == [] <==> StrictEquals(Field(pricing, "modelId"), Field(model, "id"))
    ensures r != [] ==> r == [MismatchedModelId(Field(model, "id"), file, Field(pricing, "modelId"))]
  {
    if !StrictEquals(Field(pricing, "modelId"), Field(model, "id"))
    then [MismatchedModelId(Field(model, "id"), file, Field(pricing, "modelId"))]
    else []
  }

  /** A defined price must be a number, and not a negative one. */
  function TypeSignErrors(field: string, value: Value, model: Value, file: string): (r: seq<VError>)
    ensures value.Undefined? ==> r == []
    ensures !value.Undefined? && !value.Num? ==> r == [NonNumericPrice(Field(model, "id"), file, field, value)]
    ensures value.Num? && value.n < 0.0 ==> r == [NegativePrice(Field(model, "id"), file, field, value.n)]
    ensures value.Num? && value.n >= 0.0 ==> r == []
  {
    if value.Undefined? then []
    else if !value.Num? then [NonNumericPrice(Field(model, "id"), file, field, value)]
    else if value.n < 0.0 then [NegativePrice(Field(model, "id"), file, field, value.n)]
    else []
  }

  /** The loop over the required fields, pushing one error per undefined one. */
  method CheckRequiredFields(fields: seq<string>, model: Value, file: string) returns (errors: seq<VError>)
    ensures errors == MissingFieldErrors(fields, model, file)
  {
    errors := [];
    for i := 0 to |fields|
      invariant errors == MissingFieldErrors(fields[..i], model, file)
    {
      assert fields[..i + 1][..i] == fields[..i];
      if Field(model, fields[i]).Undefined? {
        errors := errors + [MissingField(Label(model), file, fields[i])];
      }
    }
    assert fields[..|fields|] == fields;
  }

  /** The loop over the required pricing fields. */
  method CheckPricingFields(fields: seq<string>, model: Value, pricing: Value, file: string) returns (errors: seq<VError>)
    ensures errors == MissingPricingFieldErrors(fields, model, pricing, file)
  {
    errors := [];
    for i := 0 to |fields|
      invariant errors == MissingPricingFieldErrors(fields[..i], model, pricing, file)
    {
      assert fields[..i + 1][..i] == fields[..i];
      if Field(pricing, fields[i]).Undefined? {
        errors := errors + [MissingPricingField(Field(model, "id"), file, fields[i])];
      }
    }
    assert fields[..|fields|] == fields;
  }

  lemma RequiredPricingFieldsDistinct()
    ensures Seqs.NoDuplicates(RequiredPricingFields)
  {
  }

  // ------------------------------------------------------- the merge loop

  /** A `validateModel`: the errors of one model, or the exception it raises. */
  type Validator = (Value, string) -> Result<seq<VError>>

  /** What differs between the two merge loops: the validator, and whether
      hidden models are skipped before validation. The category and vendor
      lists are the parsed `categories.json` and `vendors.json`. */
  datatype Config = Config(
    validate: Validator,
    skipHidden: bool,
    categories: seq<Category>,
    vendors: seq<Vendor>)

  /** A directory entry with the outcome of reading and parsing it. */
  datatype SourceFile = SourceFile(name: string, contents: Result<Value>)

  predicate EndsWith(s: string, suffix: string) {
    |suffix| <= |s| && s[|s| - |suffix|..] == suffix
  }

  function IsJsonFile(f: SourceFile): bool {
    EndsWith(f.name, ".json")
  }

  /** `readdir(...).filter(file => file.endsWith(".json"))`. */
  function JsonFiles(files: seq<SourceFile>): (r: seq<SourceFile>)
    ensures forall f :: f in r <==> f in files && EndsWith(f.name, ".json")
    ensures Seqs.IsSubsequence(r, files)
  {
    Seqs.FilterMembers(files, IsJsonFile);
    Seqs.FilterIsSubsequence(files, IsJsonFile);
    Seqs.Filter(files, IsJsonFile)
  }

  /** `for (const model of vendorModels)`: an array yields its elements, a
      string its characters, and anything else is not iterable. A file
      that could not be read or parsed raises its error here. */
  function Iterate(contents: Result<Value>): (r: Result<seq<Value>>)
    ensures contents.Thrown? ==> r == Thrown(contents.error)
    ensures contents.Ok? && contents.value.Arr? ==> r == Ok(contents.value.items)
    ensures contents.Ok? && !contents.value.Arr? && !contents.value.Str? ==> r == Thrown(TypeError)
    ensures contents.Ok? && contents.value.Str? ==> r.Ok? && |r.value| == |contents.value.s|
  {
    match contents
    case Thrown(e) => Thrown(e)
    case Ok(v) =>
      match v
      case Arr(items) => Ok(items)
      case Str(s) => Ok(seq(|s|, i requires 0 <= i < |s| => Str([s[i]])))
      case _ => Thrown(TypeError)
  }

  /** The loop's state: `allModels`, `validationErrors`, `modelIds`, `pricingIds`. */
  datatype MergeState = MergeState(
    models: seq<Value>,
    errors: seq<VError>,
    modelIds: set<Value>,
    pricingIds: set<Value>)

  const Start := MergeState([], [], {}, {})

  /** `ids.has(v)` for a `Set` filled with values read from the document:
      an object or array read from another place is never in it. */
  predicate Seen(ids: set<Value>, v: Value) {
    IsPrimitive(v) && v in ids
  }

  /** `categories.some(c => c.id === v)`. */
  predicate KnownCategory(categories: seq<Category>, v: Value) {
    exists i :: 0 <= i < |categories| && v == Num(categories[i].id as real)
  }

  /** `vendors.some(v => v.id === id)`. */
  predicate KnownVendor(vendors: seq<Vendor>, v: Value) {
    exists i :: 0 <= i < |vendors| && v == Num(vendors[i].id as real)
  }

  function PricingId(model: Value): Value {
    Field(Field(model, "pricing"), "id")
  }

  function DuplicateIdError(st: MergeState, model: Value, file: string): seq<VError> {
    if Seen(st.modelIds, Field(model, "id")) then [DuplicateModelId(Field(model, "id"), file)] else []
  }

  function DuplicatePricingError(st: MergeState, model: Value, file: string): seq<VError> {
    if Truthy(Field(model, "pricing")) && Seen(st.pricingIds, PricingId(model))
    then [DuplicatePricingId(PricingId(model), file)] else []
  }

  function CategoryError(model: Value, file: string, categories: seq<Category>): seq<VError> {
    if !KnownCategory(categories, Field(model, "categoryId"))
    then [UnknownCategory(Field(model, "id"), file, Field(model, "categoryId"))] else []
  }

  function VendorError(model: Value, file: string, vendors: seq<Vendor>): seq<VError> {
    if !KnownVendor(vendors, Field(model, "vendorId"))
    then [UnknownVendor(Field(model, "id"), file, Field(model, "vendorId"))] else []
  }

  /** The checks after validation, in the order they push: a repeated model
      id, a repeated pricing id, an unknown category, an unknown vendor. */
  function CrossErrors(st: MergeState, model: Value, file: string, categories: seq<Category>, vendors: seq<Vendor>): (r: seq<VError>)
    ensures DuplicateModelId(Field(model, "id"), file) in r <==> Seen(st.modelIds, Field(model, "id"))
    ensures DuplicatePricingId(PricingId(model), file) in r <==> Truthy(Field(model, "pricing")) && Seen(st.pricingIds, PricingId(model))
    ensures UnknownCategory(Field(model, "id"), file, Field(model, "categoryId")) in r <==> !KnownCategory(categories, Field(model, "categoryId"))
    ensures UnknownVendor(Field(model, "id"), file, Field(model, "vendorId")) in r <==> !KnownVendor(vendors, Field(model, "vendorId"))
    ensures |r| <= 4
  {
    var d, p := DuplicateIdError(st, model, file), DuplicatePricingError(st, model, file);
    var c, v := CategoryError(model, file, categories), VendorError(model, file, vendors);
    assert |d| <= 1 && |p| <= 1 && |c| <= 1 && |v| <= 1;
    d + p + c + v
  }

  /** A validated model is recorded: its errors and the cross checks are
      added, its ids are remembered, and the model is kept whatever its
      errors. */
  function Recorded(st: MergeState, model: Value, file: string, cfg: Config, modelErrors: seq<VError>): (r: MergeState)
    ensures r.models == st.models + [model]
    ensures r.errors == st.errors + modelErrors + CrossErrors(st, model, file, cfg.categories, cfg.vendors)
    ensures Field(model, "id") in r.modelIds && st.modelIds <= r.modelIds
    ensures Truthy(Field(model, "pricing")) ==> PricingId(model) in r.pricingIds
    ensures st.pricingIds <= r.pricingIds
  {
    MergeState(
      st.models + [model],
      st.errors + modelErrors + CrossErrors(st, model, file, cfg.categories, cfg.vendors),
      st.modelIds + {Field(model, "id")},
      if Truthy(Field(model, "pricing")) then st.pricingIds + {PricingId(model)} else st.pricingIds)
  }

  /** Whether the loop looks at a model at all. */
  predicate Kept(cfg: Config, model: Value) {
    !(cfg.skipHidden && Truthy(Field(model, "isHidden")))
  }

  /** One pass of the inner loop's body. Reading `isHidden` of a null model
      throws; so does the validator of that model. */
  function Step(cfg: Config, st: MergeState, model: Value, file: string): (r: Result<MergeState>)
    ensures !Kept(cfg, model) && !IsNullish(model) ==> r == Ok(st)
  {
    if cfg.skipHidden && IsNullish(model) then Thrown(TypeError)
    else if !Kept(cfg, model) then Ok(st)
    else
      match cfg.validate(model, file)
      case Thrown(e) => Thrown(e)
      case Ok(es) => Ok(Recorded(st, model, file, cfg, es))
  }

  /** The inner loop inside its `try`: the first exception ends the file,
      adding one error, and later models of that file are not looked at. */
  function ProcessModels(cfg: Config, st: MergeState, items: seq<Value>, file: string): MergeState
    decreases |items|
  {
    if items == [] then st
    else
      match Step(cfg, st, items[0], file)
      case Thrown(e) => st.(errors := st.errors + [FileFailed(file, e)])
      case Ok(next) => ProcessModels(cfg, next, items[1..], file)
  }

  function ProcessFile(cfg: Config, st: MergeState, f: SourceFile): MergeState {
    match Iterate(f.contents)
    case Thrown(e) => st.(errors := st.errors + [FileFailed(f.name, e)])
    case Ok(items) => ProcessModels(cfg, st, items, f.name)
  }

  /** The outer loop over the vendor files. */
  function ProcessFiles(cfg: Config, st: MergeState, files: seq<SourceFile>): MergeState
    decreases |files|
  {
    if files == [] then st else ProcessFiles(cfg, ProcessFile(cfg, st, files[0]), files[1..])
  }

  // ----------------------------------------------------- across the files

  /** The models a file yields: its elements, or none when it raises
      before the loop. */
  function FileItems(f: SourceFile): seq<Value> {
    match Iterate(f.contents)
    case Thrown(_) => []
    case Ok(items) => items
  }

  /** A file that raises before the loop, or whose loop raises nothing. */
  predicate FileClean(cfg: Config, f: SourceFile) {
    Iterate(f.contents).Ok? ==> Clean(cfg, Iterate(f.contents).value, f.name)
  }

  predicate FilesClean(cfg: Config, files: seq<SourceFile>) {
    forall k :: 0 <= k < |files| ==> FileClean(cfg, files[k])
  }

  /** The models the loops keep from each file in turn. */
  function KeptModels(cfg: Config, files: seq<SourceFile>): seq<Value>
    decreases |files|
  {
    if files == [] then [] else Seqs.Filter(FileItems(files[0]), KeptOf(cfg)) + KeptModels(cfg, files[1..])
  }

  /** A model looked at, with the file it came from. */
  datatype Visit = Visit(model: Value, file: string)

  function Tagged(items: seq<Value>, file: string): (r: seq<Visit>)
    ensures |r| == |items|
    ensures forall k :: 0 <= k < |items| ==> r[k] == Visit(items[k], file)
  {
    seq(|items|, k requires 0 <= k < |items| => Visit(items[k], file))
  }

  /** Every model of every file, in the order the loops meet them. */
  function Visits(files: seq<SourceFile>): seq<Visit>
    decreases |files|
  {
    if files == [] then [] else Tagged(FileItems(files[0]), files[0].name) + Visits(files[1..])
  }

  /** A file that cannot be read, parsed or iterated adds one error naming
      it, and nothing else changes. */
  lemma UnreadableFileReported(cfg: Config, st: MergeState, f: SourceFile)
    requires Iterate(f.contents).Thrown?
    ensures ProcessFile(cfg, st, f) == st.(errors := st.errors + [FileFailed(f.name, Iterate(f.contents).error)])
  {
  }

  /** The outer loop only adds errors and remembered ids. */
  lemma {:induction false} FilesOnlyGrow(cfg: Config, st: MergeState, files: seq<SourceFile>)
    ensures st.errors <= ProcessFiles(cfg, st, files).errors
    ensures st.modelIds <= ProcessFiles(cfg, st, files).modelIds
    ensures st.pricingIds <= ProcessFiles(cfg, st, files).pricingIds
    decreases |files|
  {
    if files != [] {
      var f, rest := files[0], files[1..];
      match Iterate(f.contents) {
        case Thrown(_) =>
        case Ok(items) => OnlyGrows(cfg, st, items, f.name);
      }
      FilesOnlyGrow(cfg, ProcessFile(cfg, st, f), rest);
    }
  }

  /** The first file of a clean list is processed like one clean file. */
  lemma CleanFirstFile(cfg: Config, files: seq<SourceFile>)
    requires files != [] && FilesClean(cfg, files)
    ensures FileClean(cfg, files[0]) && FilesClean(cfg, files[1..])
  {
    assert FileClean(cfg, files[0]);
    forall k | 0 <= k < |files[1..]|
      ensures FileClean(cfg, files[1..][k])
    {
      assert files[1..][k] == files[k + 1];
    }
  }

  /** Without an exception, the merged list is every kept model of every
      file, file after file, each file in its own order. */
  lemma {:induction false} KeepsEveryModelAcrossFiles(cfg: Config, st: MergeState, files: seq<SourceFile>)
    requires FilesClean(cfg, files)
    ensures ProcessFiles(cfg, st, files).models == st.models + KeptModels(cfg, files)
    decreases |files|
  {
    if files != [] {
      CleanFirstFile(cfg, files);
      var f, rest := files[0], files[1..];
      var next := ProcessFile(cfg, st, f);
      var kept := Seqs.Filter(FileItems(f), KeptOf(cfg));
      match Iterate(f.contents) {
        case Thrown(_) =>
          assert next.models == st.models;
          assert kept == [];
        case Ok(items) =>
          KeepsEveryModel(cfg, st, items, f.name);
      }
      assert next.models == st.models + kept;
      KeepsEveryModelAcrossFiles(cfg, next, rest);
      Seqs.ConcatAssoc(st.models, kept, KeptModels(cfg, rest));
    }
  }

  /** Two models the loops both look at repeat each other's tracked id. */
  predicate Repeats(cfg: Config, t: Tracker, a: Visit, b: Visit) {
    && Kept(cfg, a.model) && Kept(cfg, b.model)
    && Tracks(t, a.model) && Tracks(t, b.model)
    && IsPrimitive(TrackedId(t, a.model)) && TrackedId(t, a.model) == TrackedId(t, b.model)
  }

  /** A kept model whose primitive tracked id is remembered before the
      files are processed gets a duplicate error, in whichever file. */
  lemma {:induction false} SeenAcrossFiles(t: Tracker, cfg: Config, st: MergeState, files: seq<SourceFile>, j: nat, id: Value)
    requires FilesClean(cfg, files)
    requires j < |Visits(files)|
    requires Kept(cfg, Visits(files)[j].model) && Tracks(t, Visits(files)[j].model)
    requires TrackedId(t, Visits(files)[j].model) == id
    requires IsPrimitive(id) && id in Ids(t, st)
    ensures Duplicate(t, id, Visits(files)[j].file) in ProcessFiles(cfg, st, files).errors
    decreases |files|
  {
    CleanFirstFile(cfg, files);
    var f, rest := files[0], files[1..];
    var items := FileItems(f);
    var next := ProcessFile(cfg, st, f);
    var v := Visits(files);
    assert v == Tagged(items, f.name) + Visits(rest);
    if j < |items| {
      assert v[j] == Visit(items[j], f.name);
      SeenIdReported(t, cfg, st, items, f.name, j, id);
      FilesOnlyGrow(cfg, next, rest);
    } else {
      var k := j - |items|;
      assert v[j] == Visits(rest)[k];
      match Iterate(f.contents) {
        case Thrown(_) =>
        case Ok(_) => OnlyGrows(cfg, st, items, f.name);
      }
      assert Ids(t, st) <= Ids(t, next);
      SeenAcrossFiles(t, cfg, next, rest, k, id);
    }
  }

  /** A visit among the first file's models is that model, in that file. */
  lemma FirstVisit(files: seq<SourceFile>, k: nat)
    requires files != [] && k < |FileItems(files[0])|
    ensures k < |Visits(files)| && Visits(files)[k] == Visit(FileItems(files[0])[k], files[0].name)
  {
    var tagged, later := Tagged(FileItems(files[0]), files[0].name), Visits(files[1..]);
    assert Visits(files) == tagged + later;
  }

  /** A visit after the first file's models is a visit of the later files. */
  lemma LaterVisit(files: seq<SourceFile>, k: nat)
    requires files != [] && |FileItems(files[0])| <= k < |Visits(files)|
    ensures |Visits(files)| == |FileItems(files[0])| + |Visits(files[1..])|
    ensures Visits(files)[k] == Visits(files[1..])[k - |FileItems(files[0])|]
  {
    var tagged, later := Tagged(FileItems(files[0]), files[0].name), Visits(files[1..]);
    assert Visits(files) == tagged + later;
    Seqs.ConcatIndex(tagged, later, k);
  }

  /** A kept model whose primitive tracked id appeared on an earlier kept
      model, in the same file or an earlier one, gets a duplicate error
      naming its own file. */
  lemma {:induction false} RepeatAcrossFilesReported(t: Tracker, cfg: Config, st: MergeState, files: seq<SourceFile>, i: nat, j: nat)
    requires FilesClean(cfg, files)
    requires i < j < |Visits(files)|
    requires Repeats(cfg, t, Visits(files)[i], Visits(files)[j])
    ensures Duplicate(t, TrackedId(t, Visits(files)[j].model), Visits(files)[j].file) in ProcessFiles(cfg, st, files).errors
    decreases |files|, 1
  {
    assert files != [];
    CleanFirstFile(cfg, files);
    var n := |FileItems(files[0])|;
    if j < n {
      FirstVisit(files, i);
      FirstVisit(files, j);
      RepeatInFirstFile(t, cfg, st, files, i, j);
    } else if i < n {
      FirstVisit(files, i);
      LaterVisit(files, j);
      RepeatInLaterFile(t, cfg, st, files, i, j - n);
    } else {
      RepeatInRestFiles(t, cfg, st, files, i, j);
    }
  }

  /** Both models after the first file: the rest of the files, processed
      from the state the first file leaves, report the repeat. */
  lemma {:induction false} RepeatInRestFiles(t: Tracker, cfg: Config, st: MergeState, files: seq<SourceFile>, i: nat, j: nat)
    requires files != [] && FilesClean(cfg, files)
    requires |FileItems(files[0])| <= i < j < |Visits(files)|
    requires Repeats(cfg, t, Visits(files)[i], Visits(files)[j])
    ensures Duplicate(t, TrackedId(t, Visits(files)[j].model), Visits(files)[j].file) in ProcessFiles(cfg, st, files).errors
    decreases |files|, 0
  {
    var vi, vj := Visits(files)[i], Visits(files)[j];
    CleanFirstFile(cfg, files);
    var rest := files[1..];
    var n := |FileItems(files[0])|;
    var next := ProcessFile(cfg, st, files[0]);
    LaterVisit(files, i);
    LaterVisit(files, j);
    var a, b := i - n, j - n;
    assert a < b < |Visits(rest)|;
    assert Visits(rest)[a] == vi && Visits(rest)[b] == vj;
    assert Repeats(cfg, t, Visits(rest)[a], Visits(rest)[b]);
    RepeatAcrossFilesReported(t, cfg, next, rest, a, b);
    assert ProcessFiles(cfg, st, files) == ProcessFiles(cfg, next, rest);
  }

  /** Both models in the first file: the inner loop reports the repeat. */
  lemma RepeatInFirstFile(t: Tracker, cfg: Config, st: MergeState, files: seq<SourceFile>, i: nat, j: nat)
    requires files != [] && FilesClean(cfg, files)
    requires i < j < |FileItems(files[0])|
    requires var items := FileItems(files[0]);
             && Kept(cfg, items[i]) && Kept(cfg, items[j]) && Tracks(t, items[i]) && Tracks(t, items[j])
             && IsPrimitive(TrackedId(t, items[i])) && TrackedId(t, items[i]) == TrackedId(t, items[j])
    ensures Duplicate(t, TrackedId(t, FileItems(files[0])[j]), files[0].name) in ProcessFiles(cfg, st, files).errors
  {
    CleanFirstFile(cfg, files);
    var f, rest := files[0], files[1..];
    var items := FileItems(f);
    assert Iterate(f.contents).Ok?;
    RepeatedIdReported(t, cfg, st, items, f.name, i, j);
    var next := ProcessFile(cfg, st, f);
    assert next == ProcessModels(cfg, st, items, f.name);
    FilesOnlyGrow(cfg, next, rest);
  }

  /** The first model in the first file, the repeat in a later one: the
      first file remembers the id and the later loop reports it. */
  lemma RepeatInLaterFile(t: Tracker, cfg: Config, st: MergeState, files: seq<SourceFile>, i: nat, k: nat)
    requires files != [] && FilesClean(cfg, files)
    requires i < |FileItems(files[0])| && k < |Visits(files[1..])|
    requires var m, w := FileItems(files[0])[i], Visits(files[1..])[k];
             && Kept(cfg, m) && Kept(cfg, w.model) && Tracks(t, m) && Tracks(t, w.model)
             && IsPrimitive(TrackedId(t, m)) && TrackedId(t, m) == TrackedId(t, w.model)
    ensures var w := Visits(files[1..])[k];
            Duplicate(t, TrackedId(t, w.model), w.file) in ProcessFiles(cfg, st, files).errors
  {
    CleanFirstFile(cfg, files);
    var f, rest := files[0], files[1..];
    var items := FileItems(f);
    assert Iterate(f.contents).Ok?;
    Remembered(t, cfg, st, items, f.name, i);
    var next := ProcessFile(cfg, st, f);
    assert next == ProcessModels(cfg, st, items, f.name);
    SeenAcrossFiles(t, cfg, next, rest, k, TrackedId(t, items[i]));
  }

  /** A cross-check error a kept model raises whatever came before it is in
      the final list. */
  lemma {:induction false} RaisedAcrossFiles(cfg: Config, st: MergeState, files: seq<SourceFile>, j: nat, e: VError)
    requires FilesClean(cfg, files)
    requires j < |Visits(files)|
    requires Kept(cfg, Visits(files)[j].model)
    requires AlwaysRaised(cfg, Visits(files)[j].model, Visits(files)[j].file, e)
    ensures e in ProcessFiles(cfg, st, files).errors
    decreases |files|, 1
  {
    assert files != [];
    CleanFirstFile(cfg, files);
    var f := files[0];
    var items := FileItems(f);
    if j < |items| {
      FirstVisit(files, j);
      LaterErrorReported(cfg, st, items, f.name, j, e);
      var next := ProcessFile(cfg, st, f);
      assert next == ProcessModels(cfg, st, items, f.name);
      FilesOnlyGrow(cfg, next, files[1..]);
    } else {
      RaisedInRestFiles(cfg, st, files, j, e);
    }
  }

  /** The model after the first file: the rest of the files, processed from
      the state the first file leaves, keep the error. */
  lemma {:induction false} RaisedInRestFiles(cfg: Config, st: MergeState, files: seq<SourceFile>, j: nat, e: VError)
    requires files != [] && FilesClean(cfg, files)
    requires |FileItems(files[0])| <= j < |Visits(files)|
    requires Kept(cfg, Visits(files)[j].model)
    requires AlwaysRaised(cfg, Visits(files)[j].model, Visits(files)[j].file, e)
    ensures e in ProcessFiles(cfg, st, files).errors
    decreases |files|, 0
  {
    var vj := Visits(files)[j];
    CleanFirstFile(cfg, files);
    var rest := files[1..];
    var next := ProcessFile(cfg, st, files[0]);
    LaterVisit(files, j);
    var k := j - |FileItems(files[0])|;
    assert k < |Visits(rest)|;
    assert Visits(rest)[k] == vj;
    RaisedAcrossFiles(cfg, next, rest, k, e);
    assert ProcessFiles(cfg, st, files) == ProcessFiles(cfg, next, rest);
  }

  /** Every repeat of a tracked id, in any file, is reported, and so is
      every dangling category or vendor reference. */
  ghost predicate ReportsProblems(cfg: Config, files: seq<SourceFile>, errors: seq<VError>) {
    var v := Visits(files);
    && (forall t, i, j :: 0 <= i < j < |v| && Repeats(cfg, t, v[i], v[j]) ==>
          Duplicate(t, TrackedId(t, v[j].model), v[j].file) in errors)
    && (forall j :: 0 <= j < |v| && Kept(cfg, v[j].model) ==> ReferencesChecked(cfg, v[j], errors))
  }

  predicate ReferencesChecked(cfg: Config, w: Visit, errors: seq<VError>) {
    var m := w.model;
    && (!KnownCategory(cfg.categories, Field(m, "categoryId")) ==> UnknownCategory(Field(m, "id"), w.file, Field(m, "categoryId")) in errors)
    && (!KnownVendor(cfg.vendors, Field(m, "vendorId")) ==> UnknownVendor(Field(m, "id"), w.file, Field(m, "vendorId")) in errors)
  }

  /** Over clean files the final error list reports every problem. */
  lemma ProblemsReported(cfg: Config, files: seq<SourceFile>)
    requires FilesClean(cfg, files)
    ensures ReportsProblems(cfg, files, ProcessFiles(cfg, Start, files).errors)
  {
    var v, errors := Visits(files), ProcessFiles(cfg, Start, files).errors;
    forall t, i, j | 0 <= i < j < |v| && Repeats(cfg, t, v[i], v[j])
      ensures Duplicate(t, TrackedId(t, v[j].model), v[j].file) in errors
    {
      RepeatAcrossFilesReported(t, cfg, Start, files, i, j);
    }
    forall j | 0 <= j < |v| && Kept(cfg, v[j].model)
      ensures ReferencesChecked(cfg, v[j], errors)
    {
      var m := v[j].model;
      if !KnownCategory(cfg.categories, Field(m, "categoryId")) {
        RaisedAcrossFiles(cfg, Start, files, j, UnknownCategory(Field(m, "id"), v[j].file, Field(m, "categoryId")));
      }
      if !KnownVendor(cfg.vendors, Field(m, "vendorId")) {
        RaisedAcrossFiles(cfg, Start, files, j, UnknownVendor(Field(m, "id"), v[j].file, Field(m, "vendorId")));
      }
    }
  }

  /** The number a model's id becomes in `a.id - b.id`. */
  function IdNumber(m: Value): JsNumbers.JsNumber {
    JsNumbers.ValueToNumber(Field(m, "id"))
  }

  /** `a.id - b.id` as `sort` reads it: both ids go through `Number(...)`
      (a numeric string, `null`, a boolean or a one-element array give a
      number too), and a `NaN` difference counts as 0, as if the two models
      were equal. */
  function IdDifference(a: Value, b: Value): (r: int)
    ensures r < 0 <==> JsNumbers.Below(IdNumber(a), IdNumber(b))
    ensures r > 0 <==> JsNumbers.Below(IdNumber(b), IdNumber(a))
    ensures IdNumber(a).NaN? || IdNumber(b).NaN? ==> r == 0
  {
    JsNumbers.SubSign(IdNumber(a), IdNumber(b));
    JsNumbers.Sign(JsNumbers.Sub(IdNumber(a), IdNumber(b)))
  }

  function ById(): (Value, Value) -> int {
    (a: Value, b: Value) => IdDifference(a, b)
  }

  /** `mergeAndValidateData` after the three loads. */
  method MergeAndValidate(files: seq<SourceFile>, cfg: Config) returns (models: seq<Value>, errors: seq<VError>)
    ensures var st := ProcessFiles(cfg, Start, JsonFiles(files));
            models == Sorting.SortSeq(st.models, ById()) && errors == st.errors
    ensures MergePromises(cfg, JsonFiles(files), models, errors)
  {
    var vendorFiles := JsonFiles(files);
    var allModels: seq<Value> := [];
    var validationErrors: seq<VError> := [];
    var modelIds: set<Value> := {};
    var pricingIds: set<Value> := {};
    for k := 0 to |vendorFiles|
      invariant ProcessFiles(cfg, MergeState(allModels, validationErrors, modelIds, pricingIds), vendorFiles[k..])
                == ProcessFiles(cfg, Start, vendorFiles)
    {
      var file := vendorFiles[k];
      FilesStep(cfg, MergeState(allModels, validationErrors, modelIds, pricingIds), vendorFiles, k);
      var items := Iterate(file.contents);
      if items.Thrown? {
        validationErrors := validationErrors + [FileFailed(file.name, items.error)];
      } else {
        allModels, validationErrors, modelIds, pricingIds :=
          ProcessItems(cfg, MergeState(allModels, validationErrors, modelIds, pricingIds), items.value, file.name);
      }
    }
    var a := new Value[|allModels|](i requires 0 <= i < |allModels| => allModels[i]);
    assert a[..] == allModels;
    Sorting.SortInPlace(a, ById());
    models := a[..];
    errors := validationErrors;
    MergeMeaning(cfg, JsonFiles(files));
  }

  /** What the merge promises: over files that raise nothing it returns every
      kept model, sorted by id, and reports every repeated id and dangling
      reference; when no id converts to `NaN` the list is ascending by id. */
  ghost predicate MergePromises(cfg: Config, files: seq<SourceFile>, models: seq<Value>, errors: seq<VError>) {
    && (FilesClean(cfg, files) ==> models == Sorting.SortSeq(KeptModels(cfg, files), ById()))
    && (FilesClean(cfg, files) ==> ReportsProblems(cfg, files, errors))
    && ((forall m :: m in models ==> !IdNumber(m).NaN?) ==> AscendingById(models))
  }

  lemma MergeMeaning(cfg: Config, files: seq<SourceFile>)
    ensures var st := ProcessFiles(cfg, Start, files);
            MergePromises(cfg, files, Sorting.SortSeq(st.models, ById()), st.errors)
  {
    var st := ProcessFiles(cfg, Start, files);
    var models := Sorting.SortSeq(st.models, ById());
    if FilesClean(cfg, files) {
      KeepsEveryModelAcrossFiles(cfg, Start, files);
      assert st.models == KeptModels(cfg, files);
      ProblemsReported(cfg, files);
    }
    if forall m :: m in models ==> !IdNumber(m).NaN? {
      Sorting.SortSeqPermutes(st.models, ById());
      NumericIds(models, st.models);
      SortedById(st.models);
    }
  }

  /** The outer loop peels off one file. */
  lemma FilesStep(cfg: Config, st: MergeState, files: seq<SourceFile>, k: nat)
    requires k < |files|
    ensures ProcessFiles(cfg, st, files[k..]) == ProcessFiles(cfg, ProcessFile(cfg, st, files[k]), files[k + 1..])
  {
    var rest := files[k..];
    assert rest[0] == files[k] && rest[1..] == files[k + 1..];
  }

  /** The inner loop over one file's models. */
  method ProcessItems(cfg: Config, st: MergeState, items: seq<Value>, file: string)
    returns (models: seq<Value>, errors: seq<VError>, modelIds: set<Value>, pricingIds: set<Value>)
    ensures MergeState(models, errors, modelIds, pricingIds) == ProcessModels(cfg, st, items, file)
  {
    models, errors, modelIds, pricingIds := st.models, st.errors, st.modelIds, st.pricingIds;
    var i := 0;
    var failed := false;
    while i < |items| && !failed
      invariant 0 <= i <= |items|
      invariant !failed ==> ProcessModels(cfg, MergeState(models, errors, modelIds, pricingIds), items[i..], file)
                            == ProcessModels(cfg, st, items, file)
      invariant failed ==> MergeState(models, errors, modelIds, pricingIds) == ProcessModels(cfg, st, items, file)
    {
      var model := items[i];
      assert items[i..][0] == model && items[i..][1..] == items[i + 1..];
      if cfg.skipHidden && IsNullish(model) {
        errors := errors + [FileFailed(file, TypeError)];
        failed := true;
      } else if cfg.skipHidden && Truthy(Field(model, "isHidden")) {
        // `continue`
      } else {
        var modelErrors := cfg.validate(model, file);
        if modelErrors.Thrown? {
          errors := errors + [FileFailed(file, modelErrors.error)];
          failed := true;
        } else {
          models, errors, modelIds, pricingIds :=
            RecordModel(cfg, MergeState(models, errors, modelIds, pricingIds), model, file, modelErrors.value);
        }
      }
      i := i + 1;
    }
  }

  /** The body after `validateModel` returned. */
  method RecordModel(cfg: Config, st: MergeState, model: Value, file: string, modelErrors: seq<VError>)
    returns (models: seq<Value>, errors: seq<VError>, modelIds: set<Value>, pricingIds: set<Value>)
    ensures MergeState(models, errors, modelIds, pricingIds) == Recorded(st, model, file, cfg, modelErrors)
  {
    models, errors, modelIds, pricingIds := st.models, st.errors, st.modelIds, st.pricingIds;
    errors := errors + modelErrors;
    ghost var validated := errors;
    ghost var d1, d2 := DuplicateIdError(st, model, file), DuplicatePricingError(st, model, file);
    ghost var c1, c2 := CategoryError(model, file, cfg.categories), VendorError(model, file, cfg.vendors);
    var id := Field(model, "id");
    if Seen(modelIds, id) {
      errors := errors + [DuplicateModelId(id, file)];
    } else {
      modelIds := modelIds + {id};
    }
    assert errors == validated + d1;
    var pricing := Field(model, "pricing");
    if Truthy(pricing) && Seen(pricingIds, Field(pricing, "id")) {
      errors := errors + [DuplicatePricingId(Field(pricing, "id"), file)];
    } else if Truthy(pricing) {
      pricingIds := pricingIds + {Field(pricing, "id")};
    }
    assert errors == validated + d1 + d2;
    if !KnownCategory(cfg.categories, Field(model, "categoryId")) {
      errors := errors + [UnknownCategory(id, file, Field(model, "categoryId"))];
    }
    assert errors == validated + d1 + d2 + c1;
    if !KnownVendor(cfg.vendors, Field(model, "vendorId")) {
      errors := errors + [UnknownVendor(id, file, Field(model, "vendorId"))];
    }
    assert errors == validated + d1 + d2 + c1 + c2;
    assert validated + d1 + d2 + c1 + c2 == validated + (d1 + d2 + c1 + c2) by {
      Seqs.ConcatAssoc(validated, d1, d2);
      Seqs.ConcatAssoc(validated, d1 + d2, c1);
      Seqs.ConcatAssoc(validated, d1 + d2 + c1, c2);
    }
    models := models + [model];
  }

  // --------------------------------------------------------------- results

  /** `writeModelsJson` after a merge: the file is written, and success
      reported, exactly when the merge found no error. A failing write is
      not modelled. */
  datatype WriteOutcome = WriteOutcome(success: bool, errors: seq<VError>, written: Option<seq<Value>>)

  function WriteModelsJson(models: seq<Value>, validationErrors: seq<VError>): (r: WriteOutcome)
    ensures r.success <==> validationErrors == []
    ensures r.success ==> r.errors == [] && r.written == Some(models)
    ensures !r.success ==> r.errors == validationErrors && r.written.None?
  {
    if |validationErrors| > 0 then WriteOutcome(false, validationErrors, None)
    else WriteOutcome(true, [], Some(models))
  }

  /** `validateModelsOnly`: valid exactly when there is no error. */
  function ValidateModelsOnly(validationErrors: seq<VError>): (r: (bool, seq<VError>))
    ensures r.0 <==> validationErrors == []
    ensures r.1 == validationErrors
  {
    (|validationErrors| == 0, validationErrors)
  }

  // ------------------------------------------------------------ properties

  /** No model of the file raises: nothing throws while reading `isHidden`
      and every model looked at validates. */
  predicate Clean(cfg: Config, items: seq<Value>, file: string) {
    forall m :: m in items ==> CleanModel(cfg, m, file)
  }

  predicate CleanModel(cfg: Config, m: Value, file: string) {
    !(cfg.skipHidden && IsNullish(m)) && (Kept(cfg, m) ==> cfg.validate(m, file).Ok?)
  }

  function KeptOf(cfg: Config): Value -> bool {
    m => Kept(cfg, m)
  }

  /** Without an exception every model looked at is kept, valid or not, in
      file order; with the skip, exactly the hidden ones are left out. */
  lemma {:induction false} KeepsEveryModel(cfg: Config, st: MergeState, items: seq<Value>, file: string)
    requires Clean(cfg, items, file)
    ensures ProcessModels(cfg, st, items, file).models == st.models + Seqs.Filter(items, KeptOf(cfg))
    decreases |items|
  {
    if items != [] {
      CleanHead(cfg, st, items, file);
      var m, tail := items[0], items[1..];
      assert Seqs.Filter(items, KeptOf(cfg)) == (if Kept(cfg, m) then [m] else []) + Seqs.Filter(tail, KeptOf(cfg));
      var next := Step(cfg, st, m, file).value;
      KeepsEveryModel(cfg, next, tail, file);
      if Kept(cfg, m) {
        assert next.models == st.models + [m];
        Seqs.ConcatAssoc(st.models, [m], Seqs.Filter(tail, KeptOf(cfg)));
      } else {
        assert next == st;
      }
    }
  }

  /** The loop only adds errors and ids. */
  lemma {:induction false} OnlyGrows(cfg: Config, st: MergeState, items: seq<Value>, file: string)
    ensures st.errors <= ProcessModels(cfg, st, items, file).errors
    ensures st.modelIds <= ProcessModels(cfg, st, items, file).modelIds
    ensures st.pricingIds <= ProcessModels(cfg, st, items, file).pricingIds
    decreases |items|
  {
    if items != [] {
      match Step(cfg, st, items[0], file)
      case Thrown(e) =>
      case Ok(next) =>
        var tail := items[1..];
        OnlyGrows(cfg, next, tail, file);
    }
  }

  /** The first model of a clean file is processed without an exception. */
  lemma CleanHead(cfg: Config, st: MergeState, items: seq<Value>, file: string)
    requires items != [] && Clean(cfg, items, file)
    ensures Step(cfg, st, items[0], file).Ok?
    ensures Kept(cfg, items[0]) ==>
              Step(cfg, st, items[0], file).value == Recorded(st, items[0], file, cfg, cfg.validate(items[0], file).value)
    ensures ProcessModels(cfg, st, items, file) == ProcessModels(cfg, Step(cfg, st, items[0], file).value, items[1..], file)
    ensures Clean(cfg, items[1..], file)
  {
    assert items[0] in items;
    assert forall x :: x in items[1..] ==> x in items;
  }

  /** An error already pushed stays in the list. */
  lemma ErrorStays(cfg: Config, st: MergeState, items: seq<Value>, file: string, e: VError)
    requires e in st.errors
    ensures e in ProcessModels(cfg, st, items, file).errors
  {
    OnlyGrows(cfg, st, items, file);
  }

  /** A cross-check error of a kept model lands in the state after its step. */
  lemma CrossErrorRecorded(cfg: Config, st: MergeState, m: Value, file: string, next: MergeState, e: VError)
    requires cfg.validate(m, file).Ok?
    requires next == Recorded(st, m, file, cfg, cfg.validate(m, file).value)
    requires e in CrossErrors(st, m, file, cfg.categories, cfg.vendors) || AlwaysRaised(cfg, m, file, e)
    ensures e in next.errors
  {
  }

  /** The two id sets the loop keeps: model ids, and the pricing ids of the
      models that have a truthy `pricing`. */
  datatype Tracker = ModelIds | PricingIds

  predicate Tracks(t: Tracker, m: Value) {
    t.ModelIds? || Truthy(Field(m, "pricing"))
  }

  function TrackedId(t: Tracker, m: Value): Value {
    if t.ModelIds? then Field(m, "id") else PricingId(m)
  }

  function Ids(t: Tracker, st: MergeState): set<Value> {
    if t.ModelIds? then st.modelIds else st.pricingIds
  }

  function Duplicate(t: Tracker, id: Value, file: string): VError {
    if t.ModelIds? then DuplicateModelId(id, file) else DuplicatePricingId(id, file)
  }

  /** A kept model's tracked id is remembered once the file is done. */
  lemma {:induction false} Remembered(t: Tracker, cfg: Config, st: MergeState, items: seq<Value>, file: string, i: nat)
    requires i < |items|
    requires Clean(cfg, items, file)
    requires Kept(cfg, items[i]) && Tracks(t, items[i])
    ensures TrackedId(t, items[i]) in Ids(t, ProcessModels(cfg, st, items, file))
    decreases |items|
  {
    CleanHead(cfg, st, items, file);
    var next := Step(cfg, st, items[0], file).value;
    var tail := items[1..];
    if i == 0 {
      OnlyGrows(cfg, next, tail, file);
    } else {
      var k := i - 1;
      assert tail[k] == items[i];
      Remembered(t, cfg, next, tail, file, k);
    }
  }

  /** A kept model looked at after another with the same primitive tracked
      id gets a duplicate error: the first one's id is remembered. */
  lemma {:induction false} RepeatedIdReported(t: Tracker, cfg: Config, st: MergeState, items: seq<Value>, file: string, i: nat, j: nat)
    requires i < j < |items|
    requires Clean(cfg, items, file)
    requires Kept(cfg, items[i]) && Kept(cfg, items[j]) && Tracks(t, items[i]) && Tracks(t, items[j])
    requires IsPrimitive(TrackedId(t, items[i])) && TrackedId(t, items[i]) == TrackedId(t, items[j])
    ensures Duplicate(t, TrackedId(t, items[j]), file) in ProcessModels(cfg, st, items, file).errors
    decreases |items|
  {
    if i == 0 {
      RepeatsFirstReported(t, cfg, st, items, file, j);
    } else {
      CleanHead(cfg, st, items, file);
      var next := Step(cfg, st, items[0], file).value;
      var tail, k := items[1..], j - 1;
      assert tail[k] == items[j] && tail[i - 1] == items[i];
      RepeatedIdReported(t, cfg, next, tail, file, i - 1, k);
    }
  }

  lemma RepeatsFirstReported(t: Tracker, cfg: Config, st: MergeState, items: seq<Value>, file: string, j: nat)
    requires 0 < j < |items|
    requires Clean(cfg, items, file)
    requires Kept(cfg, items[0]) && Kept(cfg, items[j]) && Tracks(t, items[0]) && Tracks(t, items[j])
    requires IsPrimitive(TrackedId(t, items[0])) && TrackedId(t, items[0]) == TrackedId(t, items[j])
    ensures Duplicate(t, TrackedId(t, items[j]), file) in ProcessModels(cfg, st, items, file).errors
  {
    CleanHead(cfg, st, items, file);
    var next := Step(cfg, st, items[0], file).value;
    var tail, k := items[1..], j - 1;
    assert tail[k] == items[j];
    assert TrackedId(t, items[0]) in Ids(t, next);
    SeenIdReported(t, cfg, next, tail, file, k, TrackedId(t, items[0]));
  }

  /** A kept model whose primitive tracked id is already remembered gets a
      duplicate error. */
  lemma {:induction false} SeenIdReported(t: Tracker, cfg: Config, st: MergeState, items: seq<Value>, file: string, j: nat, id: Value)
    requires j < |items|
    requires Clean(cfg, items, file)
    requires Kept(cfg, items[j]) && Tracks(t, items[j]) && TrackedId(t, items[j]) == id
    requires IsPrimitive(id) && id in Ids(t, st)
    ensures Duplicate(t, id, file) in ProcessModels(cfg, st, items, file).errors
    decreases |items|
  {
    if j == 0 {
      FirstSeenReported(t, cfg, st, items, file, id);
    } else {
      CleanHead(cfg, st, items, file);
      var next := Step(cfg, st, items[0], file).value;
      var tail, k := items[1..], j - 1;
      assert tail[k] == items[j];
      assert Ids(t, st) <= Ids(t, next);
      SeenIdReported(t, cfg, next, tail, file, k, id);
    }
  }

  /** `e` is among the cross-check errors of `m` whatever came before. */
  ghost predicate AlwaysRaised(cfg: Config, m: Value, file: string, e: VError) {
    forall s :: e in CrossErrors(s, m, file, cfg.categories, cfg.vendors)
  }

  /** A cross-check error that a model raises whatever came before it is
      in the final list once that model is looked at. */
  lemma {:induction false} LaterErrorReported(cfg: Config, st: MergeState, items: seq<Value>, file: string, j: nat, e: VError)
    requires j < |items|
    requires Clean(cfg, items, file)
    requires Kept(cfg, items[j])
    requires AlwaysRaised(cfg, items[j], file, e)
    ensures e in ProcessModels(cfg, st, items, file).errors
    decreases |items|
  {
    if j == 0 {
      FirstErrorReported(cfg, st, items, file, e);
    } else {
      CleanHead(cfg, st, items, file);
      var next := Step(cfg, st, items[0], file).value;
      var tail, k := items[1..], j - 1;
      assert tail[k] == items[j];
      LaterErrorReported(cfg, next, tail, file, k, e);
    }
  }

  lemma FirstErrorReported(cfg: Config, st: MergeState, items: seq<Value>, file: string, e: VError)
    requires items != []
    requires Clean(cfg, items, file)
    requires Kept(cfg, items[0])
    requires AlwaysRaised(cfg, items[0], file, e)
    ensures e in ProcessModels(cfg, st, items, file).errors
  {
    CleanHead(cfg, st, items, file);
    var next := Step(cfg, st, items[0], file).value;
    CrossErrorRecorded(cfg, st, items[0], file, next, e);
    var tail := items[1..];
    ErrorStays(cfg, next, tail, file, e);
  }

  lemma FirstSeenReported(t: Tracker, cfg: Config, st: MergeState, items: seq<Value>, file: string, id: Value)
    requires items != []
    requires Clean(cfg, items, file)
    requires Kept(cfg, items[0]) && Tracks(t, items[0]) && TrackedId(t, items[0]) == id
    requires IsPrimitive(id) && id in Ids(t, st)
    ensures Duplicate(t, id, file) in ProcessModels(cfg, st, items, file).errors
  {
    CleanHead(cfg, st, items, file);
    var next := Step(cfg, st, items[0], file).value;
    CrossErrorRecorded(cfg, st, items[0], file, next, Duplicate(t, id, file));
    var tail := items[1..];
    ErrorStays(cfg, next, tail, file, Duplicate(t, id, file));
  }

  /** A model looked at whose category id is in no loaded category gets a
      reference error; likewise for its vendor id. */
  lemma DanglingReferenceReported(cfg: Config, st: MergeState, items: seq<Value>, file: string, j: nat)
    requires j < |items|
    requires Clean(cfg, items, file)
    requires Kept(cfg, items[j])
    ensures var m, errors := items[j], ProcessModels(cfg, st, items, file).errors;
            && (!KnownCategory(cfg.categories, Field(m, "categoryId")) ==> UnknownCategory(Field(m, "id"), file, Field(m, "categoryId")) in errors)
            && (!KnownVendor(cfg.vendors, Field(m, "vendorId")) ==> UnknownVendor(Field(m, "id"), file, Field(m, "vendorId")) in errors)
  {
    var m := items[j];
    if !KnownCategory(cfg.categories, Field(m, "categoryId")) {
      LaterErrorReported(cfg, st, items, file, j, UnknownCategory(Field(m, "id"), file, Field(m, "categoryId")));
    }
    if !KnownVendor(cfg.vendors, Field(m, "vendorId")) {
      LaterErrorReported(cfg, st, items, file, j, UnknownVendor(Field(m, "id"), file, Field(m, "vendorId")));
    }
  }

  /** When no id converts to `NaN` the comparator is a consistent order and
      the merged list comes out ascending by the ids' numbers, holding the
      same models. */
  lemma SortedById(s: seq<Value>)
    requires forall m :: m in s ==> !IdNumber(m).NaN?
    ensures var r := Sorting.SortSeq(s, ById());
            multiset(r) == multiset(s) && AscendingById(r)
  {
    var cmp := ById();
    ByIdConsistent(s);
    Sorting.SortSeqPermutes(s, cmp);
    Sorting.SortSeqSorts(s, cmp);
    var r := Sorting.SortSeq(s, cmp);
    NumericIds(s, r);
    AscendingIds(r);
  }

  lemma ByIdConsistent(s: seq<Value>)
    requires forall m :: m in s ==> !IdNumber(m).NaN?
    ensures Sorting.ConsistentOn(ById(), s)
  {
    forall x, y, z | x in s && y in s && z in s && ById()(x, y) <= 0 && ById()(y, z) <= 0
      ensures ById()(x, z) <= 0
    {
      JsNumbers.BelowTransitive(IdNumber(x), IdNumber(y), IdNumber(z));
    }
  }

  lemma NumericIds(s: seq<Value>, r: seq<Value>)
    requires forall m :: m in s ==> !IdNumber(m).NaN?
    requires multiset(r) == multiset(s)
    ensures forall m :: m in r ==> !IdNumber(m).NaN?
  {
    forall m | m in r
      ensures !IdNumber(m).NaN?
    {
      assert m in multiset(r);
    }
  }

  /** No later model has a smaller id. */
  ghost predicate AscendingById(r: seq<Value>) {
    forall i, j :: 0 <= i < j < |r| ==> !JsNumbers.Below(IdNumber(r[j]), IdNumber(r[i]))
  }

  lemma AscendingIds(r: seq<Value>)
    requires Sorting.SortedBy(r, ById())
    ensures AscendingById(r)
  {
    forall i, j | 0 <= i < j < |r|
      ensures !JsNumbers.Below(IdNumber(r[j]), IdNumber(r[i]))
    {
      assert ById()(r[i], r[j]) <= 0;
    }
  }

  /** An id that is the string of one decimal digit reads as that digit. */
  lemma DigitIdNumber(m: Value, n: nat)
    requires n < 10 && Field(m, "id") == Str([Text.DigitChar(n)])
    ensures IdNumber(m) == JsNumbers.Finite(n as real)
  {
    assert Text.NatToString(n) == [Text.DigitChar(n)];
    JsNumbers.NatRoundTrip(n);
  }

  /** String ids are compared as numbers: `"2"` and `"1"` trade places. */
  lemma StringIdsSorted()
    ensures var two, one := Obj(map["id" := Str("2")]), Obj(map["id" := Str("1")]);
            Sorting.SortSeq([two, one], ById()) == [one, two]
  {
    var two, one := Obj(map["id" := Str("2")]), Obj(map["id" := Str("1")]);
    assert Field(two, "id") == Str([Text.DigitChar(2)]) by { assert Text.DigitChar(2) == '2'; }
    assert Field(one, "id") == Str([Text.DigitChar(1)]) by { assert Text.DigitChar(1) == '1'; }
    DigitIdNumber(two, 2);
    DigitIdNumber(one, 1);
    assert IdDifference(two, one) > 0;
    var cmp := ById();
    assert [two, one][..1] == [two] && [two][..0] == [];
    assert Sorting.SortSeq([two], cmp) == [two];
    assert Sorting.Insert([two], one, cmp) == Sorting.Insert([], one, cmp) + [two];
  }
}
