/**
 * The database export script (`scripts/export-to-json.ts` and its twin
 * `scripts/export-to-json.js`): database rows are mapped to export records,
 * every record is checked for the required fields, any missing field aborts
 * the export, and otherwise the records are grouped by vendor into one file
 * per known vendor, named by a slug of the vendor's name.
 *
 * A database row is a `Json.Value` object, since the check looks at which
 * properties are `undefined`. A date column holds its ISO-8601 text.
 */
module ExportJson {
  import opened Wrappers
  import opened Json
  import Types
  import Text
  import Seqs

  // ---------------------------------------------------------------- mapping

  /** A pricing row as the database returns it. */
  datatype DbPricing = DbPricing(
    id: Value, modelId: Value, inputText: Value, outputText: Value,
    finetuningInput: Value, finetuningOutput: Value, trainingCost: Value)

  /** A model row with its pricing included (`None` where it has none). A
      column the row lacks reads as `Undefined`. */
  datatype DbModel = DbModel(
    id: Value, systemName: Value, displayName: Value, categoryId: Value,
    parametersB: Value, vendorId: Value, host: Value,
    precision: Value, description: Value, contextWindow: Value, tokenLimit: Value,
    releaseDate: Value, isOpenSource: Value, isHidden: Value,
    pricing: Option<DbPricing>)

  datatype ExportedPricing = ExportedPricing(
    id: Value, modelId: Value, inputText: Value, outputText: Value,
    finetuningInput: Value, finetuningOutput: Value, trainingCost: Value)

  /** An exported record; `pricing` is `None` where the record has none. */
  datatype ExportedModel = ExportedModel(
    id: Value, systemName: Value, displayName: Value, categoryId: Value,
    parametersB: Value, vendorId: Value, host: Value,
    precision: Value, description: Value, contextWindow: Value, tokenLimit: Value,
    releaseDate: Value, isOpenSource: Value, isHidden: Value,
    pricing: Option<ExportedPricing>)

  /** `date ? date.toISOString().split('T')[0] : undefined`. */
  function DatePart(date: Value): (r: Value)
    ensures !Truthy(date) ==> r == Undefined
    ensures date.Str? && date.s != "" ==> r == Str(Text.BeforeFirst(date.s, 'T'))
  {
    if Truthy(date) && date.Str? then Str(Text.BeforeFirst(date.s, 'T')) else Undefined
  }

  /** The pricing object of an exported record: the four required columns
      copied, the optional ones with falsy values dropped. */
  function FormatPricing(p: Option<DbPricing>): (r: Option<ExportedPricing>)
    ensures r.None? <==> p.None?
    ensures p.Some? ==> r.value.id == p.value.id && r.value.modelId == p.value.modelId
                        && r.value.inputText == p.value.inputText && r.value.outputText == p.value.outputText
    ensures p.Some? ==> r.value.trainingCost == (if Truthy(p.value.trainingCost) then p.value.trainingCost else Undefined)
  {
    match p
    case None => None
    case Some(q) => Some(ExportedPricing(
      q.id, q.modelId, q.inputText, q.outputText,
      OrUndefined(q.finetuningInput), OrUndefined(q.finetuningOutput), OrUndefined(q.trainingCost)))
  }

  /** The mapping of one row (`allModels.map(model => ({ ... }))`). */
  function FormatModel(db: DbModel): (r: ExportedModel)
    ensures r.id == db.id && r.systemName == db.systemName && r.displayName == db.displayName
            && r.categoryId == db.categoryId && r.parametersB == db.parametersB
            && r.vendorId == db.vendorId && r.host == db.host
    ensures Truthy(r.isHidden) || r.isHidden == Bool(false)
    ensures Truthy(r.isOpenSource) || r.isOpenSource == Bool(false)
    ensures r.pricing.None? <==> db.pricing.None?
  {
    ExportedModel(
      db.id, db.systemName, db.displayName, db.categoryId, db.parametersB, db.vendorId, db.host,
      OrUndefined(db.precision), OrUndefined(db.description),
      OrUndefined(db.contextWindow), OrUndefined(db.tokenLimit),
      DatePart(db.releaseDate),
      Or(db.isOpenSource, Bool(false)), Or(db.isHidden, Bool(false)),
      FormatPricing(db.pricing))
  }

  /** The optional columns: a falsy value (0, '', false, null) is exported as
      `undefined`, any other as it is. */
  lemma OptionalFieldsDropFalsy(db: DbModel)
    ensures var r := FormatModel(db);
            && (Truthy(db.precision) ==> r.precision == db.precision)
            && (!Truthy(db.precision) ==> r.precision == Undefined)
            && (Truthy(db.description) ==> r.description == db.description)
            && (!Truthy(db.description) ==> r.description == Undefined)
            && (Truthy(db.contextWindow) ==> r.contextWindow == db.contextWindow)
            && (!Truthy(db.contextWindow) ==> r.contextWindow == Undefined)
            && (Truthy(db.tokenLimit) ==> r.tokenLimit == db.tokenLimit)
            && (!Truthy(db.tokenLimit) ==> r.tokenLimit == Undefined)
  {
  }

  /** For boolean or empty columns the two flags come out as booleans, true
      exactly when the column holds `true`. */
  lemma FlagsAreBooleans(db: DbModel)
    requires db.isHidden.Bool? || IsNullish(db.isHidden)
    requires db.isOpenSource.Bool? || IsNullish(db.isOpenSource)
    ensures FormatModel(db).isHidden.Bool? && FormatModel(db).isOpenSource.Bool?
    ensures FormatModel(db).isHidden.b <==> db.isHidden == Bool(true)
    ensures FormatModel(db).isOpenSource.b <==> db.isOpenSource == Bool(true)
  {
  }

  function FormatModels(rows: seq<DbModel>): (r: seq<ExportedModel>)
    ensures |r| == |rows|
    ensures forall i :: 0 <= i < |rows| ==> r[i] == FormatModel(rows[i])
  {
    if rows == [] then [] else [FormatModel(rows[0])] + FormatModels(rows[1..])
  }

  // ------------------------------------------------------------- validation

  /** The required columns. */
  datatype Column = Id | SystemName | DisplayName | CategoryId | ParametersB | VendorId | Host | IsHidden

  const RequiredModelFields: seq<Column> :=
    [Id, SystemName, DisplayName, CategoryId, ParametersB, VendorId, Host, IsHidden]

  /** `jsonModel[field]` for a required field. */
  function RequiredField(e: ExportedModel, c: Column): Value {
    match c
    case Id => e.id
    case SystemName => e.systemName
    case DisplayName => e.displayName
    case CategoryId => e.categoryId
    case ParametersB => e.parametersB
    case VendorId => e.vendorId
    case Host => e.host
    case IsHidden => e.isHidden
  }

  /** The same column of a database row. */
  function DbColumn(db: DbModel, c: Column): Value {
    match c
    case Id => db.id
    case SystemName => db.systemName
    case DisplayName => db.displayName
    case CategoryId => db.categoryId
    case ParametersB => db.parametersB
    case VendorId => db.vendorId
    case Host => db.host
    case IsHidden => db.isHidden
  }

  /** The listed fields that are `undefined` in the record, in list order. */
  function MissingAmong(fields: seq<Column>, e: ExportedModel): (r: seq<Column>)
    ensures |r| <= |fields|
  {
    if fields == [] then []
    else
      var last := fields[|fields| - 1];
      MissingAmong(fields[..|fields| - 1], e) + (if RequiredField(e, last).Undefined? then [last] else [])
  }

  /** A field is reported exactly when it is listed and `undefined`. */
  lemma {:induction false} MissingAmongMembers(fields: seq<Column>, e: ExportedModel)
    ensures forall c :: c in MissingAmong(fields, e) <==> c in fields && RequiredField(e, c).Undefined?
  {
    if fields != [] {
      var init := fields[..|fields| - 1];
      MissingAmongMembers(init, e);
      assert fields == init + [fields[|fields| - 1]];
    }
  }

  /** Nothing is missing when every listed field is defined. */
  lemma {:induction false} NoneMissing(fields: seq<Column>, e: ExportedModel)
    requires forall c :: c in fields ==> !RequiredField(e, c).Undefined?
    ensures MissingAmong(fields, e) == []
  {
    if fields != [] {
      NoneMissing(fields[..|fields| - 1], e);
    }
  }

  /** The required fields that are `undefined` in the record, in list order,
      then 'isHidden' once more when the row defines it and the record lacks it. */
  function MissingFields(db: DbModel, e: ExportedModel): seq<Column> {
    MissingAmong(RequiredModelFields, e)
    + (if !db.isHidden.Undefined? && e.isHidden.Undefined? then [IsHidden] else [])
  }

  /** `validateModelExport`: the loop over the required fields and the extra
      'isHidden' check. */
  method ValidateModelExport(db: DbModel, e: ExportedModel) returns (missing: seq<Column>)
    ensures missing == MissingFields(db, e)
  {
    missing := [];
    for i := 0 to |RequiredModelFields|
      invariant missing == MissingAmong(RequiredModelFields[..i], e)
    {
      assert RequiredModelFields[..i + 1][..i] == RequiredModelFields[..i];
      if RequiredField(e, RequiredModelFields[i]) == Undefined {
        missing := missing + [RequiredModelFields[i]];
      }
    }
    assert RequiredModelFields[..|RequiredModelFields|] == RequiredModelFields;
    if db.isHidden != Undefined && e.isHidden == Undefined {
      missing := missing + [IsHidden];
    }
  }

  /** 'isHidden' can be reported twice: once from the list, once from the
      extra check. */
  lemma IsHiddenReportedTwice(db: DbModel, e: ExportedModel)
    requires !db.isHidden.Undefined? && e.isHidden.Undefined?
    requires forall c :: c != IsHidden ==> !RequiredField(e, c).Undefined?
    ensures MissingFields(db, e) == [IsHidden, IsHidden]
  {
    var first := RequiredModelFields[..7];
    assert MissingAmong(first, e) == [] by {
      assert IsHidden !in first;
      NoneMissing(first, e);
    }
    assert MissingAmong(RequiredModelFields, e) == [IsHidden] by {
      assert RequiredModelFields[..|RequiredModelFields| - 1] == first;
      assert RequiredModelFields[|RequiredModelFields| - 1] == IsHidden;
    }
  }

  /** Checking the script's own mapping: exactly the required columns the row
      lacks are reported, and 'isHidden' never is, because the mapping
      always sets it. */
  lemma MissingAfterFormat(db: DbModel)
    ensures IsHidden !in MissingFields(db, FormatModel(db))
    ensures forall c :: c in MissingFields(db, FormatModel(db)) <==>
              c != IsHidden && DbColumn(db, c).Undefined?
  {
    var e := FormatModel(db);
    MissingAmongMembers(RequiredModelFields, e);
    forall c | c != IsHidden && DbColumn(db, c).Undefined?
      ensures c in MissingFields(db, e)
    {
      EveryColumnRequired(c);
    }
  }

  lemma EveryColumnRequired(c: Column)
    ensures c in RequiredModelFields
  {
    match c
    case Id => assert RequiredModelFields[0] == c;
    case SystemName => assert RequiredModelFields[1] == c;
    case DisplayName => assert RequiredModelFields[2] == c;
    case CategoryId => assert RequiredModelFields[3] == c;
    case ParametersB => assert RequiredModelFields[4] == c;
    case VendorId => assert RequiredModelFields[5] == c;
    case Host => assert RequiredModelFields[6] == c;
    case IsHidden => assert RequiredModelFields[7] == c;
  }

  // ------------------------------------------------------------------ abort

  datatype ValidationError = ValidationError(modelName: Value, missingFields: seq<Column>)

  /** The validation errors for the first `n` rows. */
  function ValidationErrors(rows: seq<DbModel>, formatted: seq<ExportedModel>, n: nat): (r: seq<ValidationError>)
    requires n <= |rows| == |formatted|
    ensures forall k :: 0 <= k < |r| ==> r[k].missingFields != []
  {
    if n == 0 then []
    else
      var missing := MissingFields(rows[n - 1], formatted[n - 1]);
      ValidationErrors(rows, formatted, n - 1)
      + (if missing != [] then [ValidationError(rows[n - 1].systemName, missing)] else [])
  }

  lemma ValidationErrorsEmpty(rows: seq<DbModel>, formatted: seq<ExportedModel>, n: nat)
    requires n <= |rows| == |formatted|
    ensures ValidationErrors(rows, formatted, n) == [] <==>
              forall i :: 0 <= i < n ==> MissingFields(rows[i], formatted[i]) == []
  {
    ErrorsOfValidation(rows, formatted, n);
    ErrorsOfEmpty(rows, formatted, n, MissingFields, NameOf);
  }

  function NameOf(db: DbModel): Value { db.systemName }

  /** `ValidationErrors` over any rows, any check and any name. */
  function ErrorsOf<R, E>(rows: seq<R>, formatted: seq<E>, n: nat, miss: (R, E) -> seq<Column>, name: R -> Value): seq<ValidationError>
    requires n <= |rows| == |formatted|
  {
    if n == 0 then []
    else
      var missing := miss(rows[n - 1], formatted[n - 1]);
      ErrorsOf(rows, formatted, n - 1, miss, name)
      + (if missing != [] then [ValidationError(name(rows[n - 1]), missing)] else [])
  }

  lemma {:induction false} ErrorsOfValidation(rows: seq<DbModel>, formatted: seq<ExportedModel>, n: nat)
    requires n <= |rows| == |formatted|
    ensures ValidationErrors(rows, formatted, n) == ErrorsOf(rows, formatted, n, MissingFields, NameOf)
  {
    if n > 0 {
      ErrorsOfValidation(rows, formatted, n - 1);
    }
  }

  lemma {:induction false} ErrorsOfEmpty<R, E>(rows: seq<R>, formatted: seq<E>, n: nat, miss: (R, E) -> seq<Column>, name: R -> Value)
    requires n <= |rows| == |formatted|
    ensures ErrorsOf(rows, formatted, n, miss, name) == [] <==>
              forall i :: 0 <= i < n ==> miss(rows[i], formatted[i]) == []
  {
    if n > 0 {
      ErrorsOfEmpty(rows, formatted, n - 1, miss, name);
    }
  }

  /** The checking loop over all rows. */
  method CollectValidationErrors(rows: seq<DbModel>, formatted: seq<ExportedModel>) returns (errors: seq<ValidationError>)
    requires |rows| == |formatted|
    ensures errors == ValidationErrors(rows, formatted, |rows|)
  {
    errors := [];
    for i := 0 to |rows|
      invariant errors == ValidationErrors(rows, formatted, i)
    {
      var missing := ValidateModelExport(rows[i], formatted[i]);
      if |missing| > 0 {
        errors := errors + [ValidationError(rows[i].systemName, missing)];
      }
    }
  }

  // --------------------------------------------------------------- grouping

  function VendorIdOf(e: ExportedModel): Value { e.vendorId }

  /** A vendor exported as a file. */
  datatype VendorFile = VendorFile(filename: string, models: seq<ExportedModel>)

  /** `vendors.find(v => v.id === vendorId)`. */
  function VendorWithId(vendors: seq<Types.Vendor>, id: Value): (r: Option<Types.Vendor>)
    ensures r.Some? ==> r.value in vendors && id == Num(r.value.id as real)
    ensures r.None? ==> forall v :: v in vendors ==> id != Num(v.id as real)
  {
    if vendors == [] then None
    else if id == Num(vendors[0].id as real) then Some(vendors[0])
    else VendorWithId(vendors[1..], id)
  }

  /** The file loop: one file per group whose vendor is known, in key order. */
  function VendorFiles(order: seq<Value>, groups: map<Value, seq<ExportedModel>>, vendors: seq<Types.Vendor>): (r: seq<VendorFile>)
    requires forall k :: k in order ==> k in groups
    ensures |r| <= |order|
  {
    if order == [] then []
    else
      var rest := VendorFiles(order[1..], groups, vendors);
      match VendorWithId(vendors, order[0])
      case None => rest
      case Some(v) => [VendorFile(Slug(v.name), groups[order[0]])] + rest
  }

  /** Every key with a known vendor gets the file named by the vendor's
      slug, holding that key's group. */
  lemma {:induction false} VendorFileOfKey(order: seq<Value>, groups: map<Value, seq<ExportedModel>>,
                                          vendors: seq<Types.Vendor>, k: Value)
    requires forall k :: k in order ==> k in groups
    requires k in order && VendorWithId(vendors, k).Some?
    ensures VendorFile(Slug(VendorWithId(vendors, k).value.name), groups[k]) in VendorFiles(order, groups, vendors)
  {
    if order[0] != k {
      VendorFileOfKey(order[1..], groups, vendors, k);
    }
  }

  /** Every file belongs to a key with a known vendor. */
  lemma {:induction false} VendorFilesKnown(order: seq<Value>, groups: map<Value, seq<ExportedModel>>,
                                           vendors: seq<Types.Vendor>, f: VendorFile)
    requires forall k :: k in order ==> k in groups
    requires f in VendorFiles(order, groups, vendors)
    ensures exists k :: k in order && VendorWithId(vendors, k).Some?
                        && f == VendorFile(Slug(VendorWithId(vendors, k).value.name), groups[k])
  {
    if f !in VendorFiles(order[1..], groups, vendors) {
      assert order[0] in order;
    } else {
      VendorFilesKnown(order[1..], groups, vendors, f);
      var k :| k in order[1..] && VendorWithId(vendors, k).Some?
               && f == VendorFile(Slug(VendorWithId(vendors, k).value.name), groups[k]);
      assert k in order;
    }
  }

  /** An exported record whose vendor is known is in its vendor's file, and
      that file holds exactly the records with the record's vendor id. */
  lemma RecordInVendorFile(models: seq<ExportedModel>, vendors: seq<Types.Vendor>, e: ExportedModel)
    requires e in models && VendorWithId(vendors, e.vendorId).Some?
    ensures var groups := Seqs.Group(models, VendorIdOf);
            var f := VendorFile(Slug(VendorWithId(vendors, e.vendorId).value.name), groups[e.vendorId]);
            && f in VendorFiles(Seqs.Keys(models, VendorIdOf), groups, vendors)
            && e in f.models
            && f.models == Seqs.Filter(models, Seqs.HasKey(VendorIdOf, e.vendorId))
  {
    var k := e.vendorId;
    var groups := Seqs.Group(models, VendorIdOf);
    var i :| 0 <= i < |models| && models[i] == e;
    assert VendorIdOf(models[i]) == k;
    Seqs.GroupContents(models, VendorIdOf, k);
    Seqs.FilterMembers(models, Seqs.HasKey(VendorIdOf, k));
    VendorFileOfKey(Seqs.Keys(models, VendorIdOf), groups, vendors, k);
  }

  // -------------------------------------------------------------------- slug

  predicate IsSlugChar(c: char) { Text.IsLower(c) || Text.IsDigit(c) || c == '-' }

  /** `.replace(/[^a-z0-9-]/g, '')`. */
  function KeepSlugChars(s: string): (r: string)
    ensures forall i :: 0 <= i < |r| ==> IsSlugChar(r[i])
    ensures (forall i :: 0 <= i < |s| ==> IsSlugChar(s[i])) ==> r == s
  {
    if s == [] then []
    else (if IsSlugChar(s[0]) then [s[0]] else []) + KeepSlugChars(s[1..])
  }

  /** The file name of a vendor: lower case, runs of white space as one '-',
      anything outside [a-z0-9-] removed. */
  function Slug(name: string): (r: string)
    ensures forall i :: 0 <= i < |r| ==> IsSlugChar(r[i])
  {
    KeepSlugChars(Text.ReplaceSpaceRuns(Text.Lower(name), '-'))
  }

  /** A slug is its own slug. */
  lemma SlugIdempotent(name: string)
    ensures Slug(Slug(name)) == Slug(name)
  {
    var s := Slug(name);
    assert Text.Lower(s) == s;
    Text.ReplaceSpaceRunsNoSpace(s, '-');
  }

  /** Two lower-case words of letters, digits and '-' separated by one
      space give the words joined by '-' ("together ai" gives "together-ai"). */
  lemma SlugOfTwoWords(a: string, b: string)
    requires AllSlugChars(a) && AllSlugChars(b)
    ensures Slug(a + " " + b) == a + "-" + b
  {
    assert Text.Lower(a) == a && Text.Lower(b) == b;
    assert Text.ReplaceSpaceRuns(Text.Lower(a + " " + b), '-') == a + "-" + b by {
      Text.LowerAroundSpace(a, b);
      Text.ReplaceSingleSpace(a, b, '-');
    }
    assert AllSlugChars(a + "-" + b) by {
      AllSlugCharsConcat(a, "-");
      AllSlugCharsConcat(a + "-", b);
    }
  }

  /** Case does not matter: a name and its lower-case form ("Together AI"
      and "together ai") have the same slug. */
  lemma SlugIgnoresCase(name: string)
    ensures Slug(Text.Lower(name)) == Slug(name)
  {
    Text.LowerIdempotent(name);
  }

  predicate AllSlugChars(s: string) {
    forall i :: 0 <= i < |s| ==> IsSlugChar(s[i])
  }

  lemma AllSlugCharsConcat(a: string, b: string)
    requires AllSlugChars(a) && AllSlugChars(b)
    ensures AllSlugChars(a + b)
  {
    assert forall i :: |a| <= i < |a + b| ==> (a + b)[i] == b[i - |a|];
  }

  // ------------------------------------------------------------------ export

  datatype ExportResult =
    | ExportFailed(errors: seq<ValidationError>)
    | Exported(vendorFiles: seq<VendorFile>, models: seq<ExportedModel>)

  /** Map, check, and either abort or group and name the files. */
  method ExportModels(rows: seq<DbModel>, vendors: seq<Types.Vendor>) returns (r: ExportResult)
    ensures r.ExportFailed? <==> exists i :: 0 <= i < |rows| && MissingFields(rows[i], FormatModel(rows[i])) != []
    ensures r.ExportFailed? ==> r.errors == ValidationErrors(rows, FormatModels(rows), |rows|)
    ensures r.Exported? ==> (r.models == FormatModels(rows)
              && r.vendorFiles == VendorFiles(Seqs.Keys(r.models, VendorIdOf), Seqs.Group(r.models, VendorIdOf), vendors))
  {
    var formatted := FormatModels(rows);
    var errors := CollectValidationErrors(rows, formatted);
    ValidationErrorsEmpty(rows, formatted, |rows|);
    if |errors| > 0 {
      return ExportFailed(errors);
    }
    var order, groups := Seqs.GroupBy(formatted, VendorIdOf);
    r := Exported(VendorFiles(order, groups, vendors), formatted);
  }

  /** The export aborts exactly when some row lacks one of the seven columns
      the mapping copies. */
  lemma AbortsIffColumnMissing(rows: seq<DbModel>)
    ensures (exists i :: 0 <= i < |rows| && MissingFields(rows[i], FormatModel(rows[i])) != [])
            <==> exists i, c :: 0 <= i < |rows| && c != IsHidden && DbColumn(rows[i], c).Undefined?
  {
    forall i | 0 <= i < |rows|
      ensures MissingFields(rows[i], FormatModel(rows[i])) != [] <==>
              exists c :: c != IsHidden && DbColumn(rows[i], c).Undefined?
    {
      MissingAfterFormat(rows[i]);
      var m := MissingFields(rows[i], FormatModel(rows[i]));
      if m != [] {
        assert m[0] in m;
      }
    }
  }

  // --------------------------------------------------- the JavaScript twin

  /** The JavaScript script's query keeps the rows whose `isHidden` is
      `false`; the rest of its pipeline is the same as the TypeScript one. */
  function VisibleRow(row: DbModel): bool { row.isHidden == Bool(false) }

  method ExportVisibleModels(rows: seq<DbModel>, vendors: seq<Types.Vendor>) returns (r: ExportResult)
    ensures var visible := Seqs.Filter(rows, VisibleRow);
            && (r.ExportFailed? <==> exists i :: 0 <= i < |visible| && MissingFields(visible[i], FormatModel(visible[i])) != [])
            && (r.Exported? ==> r.models == FormatModels(visible) && forall k :: 0 <= k < |r.models| ==> r.models[k].isHidden == Bool(false))
  {
    var visible := Seqs.Filter(rows, VisibleRow);
    r := ExportModels(visible, vendors);
  }
}
