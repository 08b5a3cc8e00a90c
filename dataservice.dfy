/**
 * The mapping layer of the data service (`src/lib/dataService.ts`): it
 * recognises the shape of a response from the silv.app API and either links
 * an already structured catalogue (`handleStructuredData`) or normalises a
 * list of upstream records (`transformOpenRouterData`, module OpenRouter).
 *
 * Objects are values here: linking a model to its category returns a new
 * model, and the back-lists live in the `Catalogue` beside the records.
 */
module DataService {
  import opened Wrappers
  import opened Types
  import opened Upstream
  import Text
  import Seqs
  import OpenRouter

  // --------------------------------------------------------- structured data

  /** `!model.isHidden`: only a flag that is set to true hides a model. */
  predicate IsVisible(m: AIModel) {
    m.isHidden != Some(true)
  }

  /** The category filter: the category with id 6 and those named
      "inactive" or "hidden", in any letter case, are dropped. */
  predicate IsActiveCategory(c: Category) {
    c.id != 6 && Text.Lower(c.name) != "inactive" && Text.Lower(c.name) != "hidden"
  }

  /** The category filter sees only the lower case of the name. */
  lemma ActiveCategoryIgnoresCase(c: Category, name: string)
    requires Text.Lower(name) == Text.Lower(c.name)
    ensures IsActiveCategory(c.(name := name)) == IsActiveCategory(c)
  {
  }

  /** "Inactive" and "HIDDEN" are dropped like "inactive" and "hidden". */
  lemma OtherSpellingsDropped(c: Category)
    ensures !IsActiveCategory(c.(name := "Inactive")) && !IsActiveCategory(c.(name := "HIDDEN"))
  {
    LowerInactive();
    LowerHidden();
  }

  lemma LowerInactive()
    ensures Text.Lower("Inactive") == "inactive"
  {
    var s := "Inactive";
    assert Text.LowerChar(s[0]) == 'i';
    assert forall i :: 1 <= i < |s| ==> !Text.IsUpper(s[i]);
  }

  lemma LowerHidden()
    ensures Text.Lower("HIDDEN") == "hidden"
  {
    var s := "HIDDEN";
    assert forall i :: 0 <= i < |s| ==> Text.IsUpper(s[i]) && Text.LowerChar(s[i]) == (s[i] as int + 32) as char;
  }

  /** One model after `model.category = categories.find(...)` and
      `model.vendor = vendors.find(...)`: the first entry with the model's
      id, or nothing when there is none; no other property changes. */
  function LinkModel(m: AIModel, categories: seq<Category>, vendors: seq<Vendor>): (r: AIModel)
    ensures r.(category := m.category, vendor := m.vendor) == m
    ensures r.category.Some? <==> exists k :: 0 <= k < |categories| && categories[k].id == m.categoryId
    ensures r.category.Some? ==>
              exists k :: && 0 <= k < |categories| && categories[k] == r.category.value && categories[k].id == m.categoryId
                          && forall j :: 0 <= j < k ==> categories[j].id != m.categoryId
    ensures r.vendor.Some? <==> exists k :: 0 <= k < |vendors| && vendors[k].id == m.vendorId
    ensures r.vendor.Some? ==>
              exists k :: && 0 <= k < |vendors| && vendors[k] == r.vendor.value && vendors[k].id == m.vendorId
                          && forall j :: 0 <= j < k ==> vendors[j].id != m.vendorId
  {
    m.(category := FindCategory(categories, m.categoryId), vendor := FindVendor(vendors, m.vendorId))
  }

  /** Every model of the response, linked. */
  function LinkAll(models: seq<AIModel>, categories: seq<Category>, vendors: seq<Vendor>): seq<AIModel> {
    seq(|models|, i requires 0 <= i < |models| => LinkModel(models[i], categories, vendors))
  }

  /** What `handleStructuredData` returns: the visible linked models, the
      active categories, every vendor, and back-lists drawn from the visible
      models for the active categories and for every vendor. */
  ghost predicate Handled(models: seq<AIModel>, categories: seq<Category>, vendors: seq<Vendor>, out: Catalogue) {
    && out.models == Seqs.Filter(LinkAll(models, categories, vendors), IsVisible)
    && out.categories == Seqs.Filter(categories, IsActiveCategory)
    && out.vendors == vendors
    && OpenRouter.BackListed(out)
  }

  /** `handleStructuredData`. The links are looked up in the unfiltered
      lists, before hidden models and inactive categories are dropped. */
  method HandleStructuredData(models: seq<AIModel>, categories: seq<Category>, vendors: seq<Vendor>)
    returns (out: Catalogue)
    ensures Handled(models, categories, vendors, out)
  {
    var linked := LinkRelationships(models, categories, vendors);
    var visibleModels := Seqs.Filter(linked, IsVisible);
    var visibleCategories := Seqs.Filter(categories, IsActiveCategory);
    var categoryModels := OpenRouter.FillCategoryLists(visibleModels, visibleCategories);
    var vendorModels := OpenRouter.FillVendorLists(visibleModels, vendors);
    out := Catalogue(visibleModels, visibleCategories, categoryModels, vendors, vendorModels);
  }

  /** The `for (const model of models)` loop that attaches each model's
      category and vendor. */
  method LinkRelationships(models: seq<AIModel>, categories: seq<Category>, vendors: seq<Vendor>)
    returns (linked: seq<AIModel>)
    ensures linked == LinkAll(models, categories, vendors)
  {
    linked := [];
    for i := 0 to |models|
      invariant |linked| == i
      invariant forall j :: 0 <= j < i ==> linked[j] == LinkModel(models[j], categories, vendors)
    {
      var model := models[i];
      var category := FindCategory(categories, model.categoryId);
      var vendor := FindVendor(vendors, model.vendorId);
      linked := linked + [model.(category := category, vendor := vendor)];
    }
  }

  /** A model is returned exactly when the response holds it and it is not
      hidden; it comes back linked, and the returned models keep their order. */
  lemma HandledModels(models: seq<AIModel>, categories: seq<Category>, vendors: seq<Vendor>, out: Catalogue)
    requires Handled(models, categories, vendors, out)
    ensures forall i :: 0 <= i < |models| && IsVisible(models[i]) ==>
              LinkModel(models[i], categories, vendors) in out.models
    ensures forall m :: m in out.models ==>
              IsVisible(m) && exists i :: 0 <= i < |models| && m == LinkModel(models[i], categories, vendors)
    ensures Seqs.IsSubsequence(out.models, LinkAll(models, categories, vendors))
  {
    var linked := LinkAll(models, categories, vendors);
    Seqs.FilterMembers(linked, IsVisible);
    Seqs.FilterIsSubsequence(linked, IsVisible);
    forall i | 0 <= i < |models| && IsVisible(models[i])
      ensures LinkModel(models[i], categories, vendors) in out.models
    {
      assert linked[i] == LinkModel(models[i], categories, vendors);
    }
  }

  /** A category is returned exactly when the response holds it and it is
      active, whatever the case of its name. */
  lemma HandledCategories(models: seq<AIModel>, categories: seq<Category>, vendors: seq<Vendor>, out: Catalogue)
    requires Handled(models, categories, vendors, out)
    ensures forall c :: c in out.categories <==>
              c in categories && c.id != 6 && Text.Lower(c.name) != "inactive" && Text.Lower(c.name) != "hidden"
    ensures Seqs.IsSubsequence(out.categories, categories)
  {
    Seqs.FilterMembers(categories, IsActiveCategory);
    Seqs.FilterIsSubsequence(categories, IsActiveCategory);
  }

  /** The back-lists hold only returned, hence visible, models: a hidden
      model is in no category's and no vendor's list. */
  lemma HandledBackLists(models: seq<AIModel>, categories: seq<Category>, vendors: seq<Vendor>, out: Catalogue, m: AIModel)
    requires Handled(models, categories, vendors, out)
    ensures forall k :: 0 <= k < |out.categories| ==>
              (m in out.categoryModels[k] <==> m in out.models && m.categoryId == out.categories[k].id)
    ensures forall k :: 0 <= k < |out.vendors| ==>
              (m in out.vendorModels[k] <==> m in out.models && m.vendorId == out.vendors[k].id)
    ensures !IsVisible(m) ==>
              (forall k :: 0 <= k < |out.categories| ==> m !in out.categoryModels[k])
              && (forall k :: 0 <= k < |out.vendors| ==> m !in out.vendorModels[k])
  {
    OpenRouter.BackListMembers(out, m);
    HandledModels(models, categories, vendors, out);
  }

  /** A returned model keeps its link to a category the filter dropped: the
      lookup runs over the unfiltered list. */
  lemma LinkOutlivesFilter(models: seq<AIModel>, categories: seq<Category>, vendors: seq<Vendor>, out: Catalogue, i: nat)
    requires Handled(models, categories, vendors, out)
    requires i < |models| && IsVisible(models[i])
    requires FindCategory(categories, models[i].categoryId).Some?
    requires !IsActiveCategory(FindCategory(categories, models[i].categoryId).value)
    ensures exists m :: m in out.models && m.category.Some? && m.category.value !in out.categories
  {
    HandledModels(models, categories, vendors, out);
    HandledCategories(models, categories, vendors, out);
    var m := LinkModel(models[i], categories, vendors);
    assert m in out.models;
    assert m.category.value !in out.categories;
  }

  // ------------------------------------------------------- response shapes

  /** One element of the response's `models` array. The source casts the
      same object to the catalogue's model type when the response is already
      structured and to the upstream record type otherwise, so an element is
      given here through both readings. */
  datatype Entry = Entry(asModel: AIModel, asRecord: ApiModel)

  /** A response object (`ApiResponse`). Each property is what
      `Array.isArray` sees: `Some` of the elements when it holds an array,
      `None` when it is missing or holds anything else. The three nested
      ones are `data?.models`, `response?.models` and `results?.models`. */
  datatype Response = Response(
    models: Option<seq<Entry>>,
    categories: Option<seq<Category>>,
    vendors: Option<seq<Vendor>>,
    dataModels: Option<seq<ApiModel>>,
    responseModels: Option<seq<ApiModel>>,
    resultsModels: Option<seq<ApiModel>>,
    items: Option<seq<ApiModel>>,
    list: Option<seq<ApiModel>>)

  /** The decoded body of the API's reply: a bare array of records, an
      object, or a value the `in` operator rejects (`null`, a primitive). */
  datatype Payload = RecordArray(records: seq<ApiModel>) | Object(response: Response) | NotObject

  function Models(entries: seq<Entry>): seq<AIModel> {
    seq(|entries|, i requires 0 <= i < |entries| => entries[i].asModel)
  }

  function Records(entries: seq<Entry>): seq<ApiModel> {
    seq(|entries|, i requires 0 <= i < |entries| => entries[i].asRecord)
  }

  /** `possibleModelArrays`, in the order they are tried. */
  function Alternatives(resp: Response): seq<Option<seq<ApiModel>>> {
    [resp.dataModels, resp.responseModels, resp.resultsModels, resp.items, resp.list]
  }

  /** The first candidate that is an array. */
  function FirstArray(candidates: seq<Option<seq<ApiModel>>>): (r: Option<seq<ApiModel>>)
    ensures r.None? <==> forall i :: 0 <= i < |candidates| ==> candidates[i].None?
    ensures r.Some? ==> exists i :: 0 <= i < |candidates| && candidates[i] == r
                                   && forall j :: 0 <= j < i ==> candidates[j].None?
  {
    if candidates == [] then None
    else if candidates[0].Some? then candidates[0]
    else
      var r := FirstArray(candidates[1..]);
      assert forall j :: 0 <= j < |candidates[1..]| ==> candidates[1..][j] == candidates[j + 1];
      r
  }

  /** How `silvDataMapping` treats a payload. */
  datatype Route =
    | AsRecords(records: seq<ApiModel>)
    | AsStructured(models: seq<AIModel>, categories: seq<Category>, vendors: seq<Vendor>)
    | Unrecognised
    | Rejected

  /** The shape tests of `silvDataMapping`, in their order: a bare array; an
      object with all three of `models`, `categories` and `vendors` arrays; an
      object with a `models` array; the first array among the alternatives. */
  function RouteOf(raw: Payload): (r: Route)
    ensures raw.RecordArray? ==> r == AsRecords(raw.records)
    ensures r.Rejected? <==> raw.NotObject?
    ensures r.AsStructured? <==>
              raw.Object? && raw.response.models.Some? && raw.response.categories.Some? && raw.response.vendors.Some?
    ensures r.AsStructured? ==> r.models == Models(raw.response.models.value)
    ensures raw.Object? && raw.response.models.Some? && !r.AsStructured? ==>
              r == AsRecords(Records(raw.response.models.value))
    ensures raw.Object? && raw.response.models.None? && FirstArray(Alternatives(raw.response)).Some? ==>
              r == AsRecords(FirstArray(Alternatives(raw.response)).value)
    ensures r.Unrecognised? <==>
              raw.Object? && raw.response.models.None?
              && forall i :: 0 <= i < 5 ==> Alternatives(raw.response)[i].None?
  {
    match raw
    case RecordArray(records) => AsRecords(records)
    case NotObject => Rejected
    case Object(resp) =>
      if resp.models.Some? && resp.categories.Some? && resp.vendors.Some? then
        AsStructured(Models(resp.models.value), resp.categories.value, resp.vendors.value)
      else if resp.models.Some? then
        AsRecords(Records(resp.models.value))
      else
        match FirstArray(Alternatives(resp))
        case Some(records) => AsRecords(records)
        case None => Unrecognised
  }

  /** `silvDataMapping`. Every failure inside is caught and rethrown as a
      new error; the error here keeps the kind of its cause. */
  method SilvDataMapping(p: Parsers, time: string -> Option<real>, raw: Payload) returns (r: Result<Catalogue>)
    ensures match RouteOf(raw)
            case AsRecords(records) => r.Ok? && OpenRouter.Transformed(p, time, records, r.value)
            case AsStructured(models, categories, vendors) => r.Ok? && Handled(models, categories, vendors, r.value)
            case Unrecognised => r == Thrown(FormatError)
            case Rejected => r == Thrown(TypeError)
  {
    if raw.RecordArray? {
      var out := OpenRouter.TransformOpenRouterData(p, time, raw.records);
      return Ok(out);
    }
    if raw.NotObject? {
      return Thrown(TypeError);
    }
    var resp := raw.response;
    if resp.models.Some? && resp.categories.Some? && resp.vendors.Some? {
      var out := HandleStructuredData(Models(resp.models.value), resp.categories.value, resp.vendors.value);
      return Ok(out);
    }
    if resp.models.Some? {
      var out := OpenRouter.TransformOpenRouterData(p, time, Records(resp.models.value));
      return Ok(out);
    }
    var possibleModelArrays := Alternatives(resp);
    for i := 0 to |possibleModelArrays|
      invariant forall j :: 0 <= j < i ==> possibleModelArrays[j].None?
    {
      if possibleModelArrays[i].Some? {
        FirstArrayAt(possibleModelArrays, i);
        var out := OpenRouter.TransformOpenRouterData(p, time, possibleModelArrays[i].value);
        return Ok(out);
      }
    }
    return Thrown(FormatError);
  }

  /** The first array is the one at the first position that holds one. */
  lemma FirstArrayAt(candidates: seq<Option<seq<ApiModel>>>, i: nat)
    requires i < |candidates| && candidates[i].Some?
    requires forall j :: 0 <= j < i ==> candidates[j].None?
    ensures FirstArray(candidates) == candidates[i]
  {
    var r := FirstArray(candidates);
    var k :| 0 <= k < |candidates| && candidates[k] == r && forall j :: 0 <= j < k ==> candidates[j].None?;
    assert k == i;
  }
}
