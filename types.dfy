/**
 * The records of the pricing catalogue (`src/lib/types.ts`): a model, its
 * pricing, its category and its vendor. Optional properties are `Option`s.
 * The back-lists `Category.models` and `Vendor.models` are not part of these
 * values; the modules that build them keep them beside the records.
 */
module Types {
  import opened Wrappers

  /** Prices are in dollars per million tokens. */
  datatype Pricing = Pricing(
    id: int,
    modelId: int,
    inputText: real,
    outputText: real,
    finetuningInput: Option<real>,
    finetuningOutput: Option<real>,
    trainingCost: Option<real>)

  datatype Category = Category(
    id: int,
    name: string,
    description: Option<string>,
    useCase: Option<string>)

  datatype Vendor = Vendor(
    id: int,
    name: string,
    pricingUrl: string,
    modelsListUrl: string)

  /** `parametersB` is declared a number but the upstream mapping can leave it
      `null`, so it is optional here. `category` and `vendor` are the records
      the relationship linking attaches. */
  datatype AIModel = AIModel(
    id: int,
    systemName: string,
    displayName: string,
    categoryId: int,
    parametersB: Option<real>,
    vendorId: int,
    host: string,
    precision: Option<string>,
    description: Option<string>,
    contextWindow: Option<int>,
    tokenLimit: Option<int>,
    releaseDate: Option<string>,
    isOpenSource: Option<bool>,
    isHidden: Option<bool>,
    modality: Option<string>,
    capabilityTier: Option<string>,
    pricing: Option<Pricing>,
    category: Option<Category>,
    vendor: Option<Vendor>)

  /** What the two normalisers return: the models, the categories and the
      vendors, each category and each vendor with its back-list (`models`)
      at the same position of `categoryModels` and `vendorModels`. */
  datatype Catalogue = Catalogue(
    models: seq<AIModel>,
    categories: seq<Category>,
    categoryModels: seq<seq<AIModel>>,
    vendors: seq<Vendor>,
    vendorModels: seq<seq<AIModel>>)

  /** `list.find(x => x.id === id)` for categories. */
  function FindCategory(categories: seq<Category>, id: int): (r: Option<Category>)
    ensures r.Some? ==> r.value in categories && r.value.id == id
    ensures r.None? <==> forall i :: 0 <= i < |categories| ==> categories[i].id != id
    ensures r.Some? ==> exists i :: 0 <= i < |categories| && categories[i] == r.value
                                   && forall j :: 0 <= j < i ==> categories[j].id != id
  {
    if categories == [] then None
    else if categories[0].id == id then Some(categories[0])
    else
      var r := FindCategory(categories[1..], id);
      assert forall j :: 0 <= j < |categories[1..]| ==> categories[1..][j] == categories[j + 1];
      r
  }

  /** `list.find(x => x.id === id)` for vendors. */
  function FindVendor(vendors: seq<Vendor>, id: int): (r: Option<Vendor>)
    ensures r.Some? ==> r.value in vendors && r.value.id == id
    ensures r.None? <==> forall i :: 0 <= i < |vendors| ==> vendors[i].id != id
    ensures r.Some? ==> exists i :: 0 <= i < |vendors| && vendors[i] == r.value
                                   && forall j :: 0 <= j < i ==> vendors[j].id != id
  {
    if vendors == [] then None
    else if vendors[0].id == id then Some(vendors[0])
    else
      var r := FindVendor(vendors[1..], id);
      assert forall j :: 0 <= j < |vendors[1..]| ==> vendors[1..][j] == vendors[j + 1];
      r
  }
}
