/**
 * Relationship linking after the catalogue files are parsed
 * (`src/lib/dataLoader.ts`): every model gets its category and vendor, and
 * every category and vendor gets the list of its models. The parsed objects
 * are updated in place, so they are classes here; the records they were
 * parsed from are their constant `record` fields.
 */
module DataLoader {
  import opened Wrappers
  import opened Types
  import Seqs

  class ModelNode {
    const record: AIModel
    var category: CategoryNode?
    var vendor: VendorNode?

    constructor (record: AIModel)
      ensures this.record == record && category == null && vendor == null
    {
      this.record := record;
      category := null;
      vendor := null;
    }
  }

  class CategoryNode {
    const record: Category
    var models: seq<ModelNode>

    constructor (record: Category)
      ensures this.record == record && models == []
    {
      this.record := record;
      models := [];
    }
  }

  class VendorNode {
    const record: Vendor
    var models: seq<ModelNode>

    constructor (record: Vendor)
      ensures this.record == record && models == []
    {
      this.record := record;
      models := [];
    }
  }

  /** `categories.find(c => c.id === id)`. */
  function FindCategoryNode(categories: seq<CategoryNode>, id: int): (r: CategoryNode?)
    ensures r != null ==> r in categories && r.record.id == id
    ensures r == null <==> forall i :: 0 <= i < |categories| ==> categories[i].record.id != id
    ensures r != null ==> exists i :: 0 <= i < |categories| && categories[i] == r
                                   && forall j :: 0 <= j < i ==> categories[j].record.id != id
  {
    if categories == [] then null
    else if categories[0].record.id == id then categories[0]
    else
      var r := FindCategoryNode(categories[1..], id);
      assert forall j :: 0 <= j < |categories[1..]| ==> categories[1..][j] == categories[j + 1];
      r
  }

  /** `vendors.find(v => v.id === id)`. */
  function FindVendorNode(vendors: seq<VendorNode>, id: int): (r: VendorNode?)
    ensures r != null ==> r in vendors && r.record.id == id
    ensures r == null <==> forall i :: 0 <= i < |vendors| ==> vendors[i].record.id != id
    ensures r != null ==> exists i :: 0 <= i < |vendors| && vendors[i] == r
                                   && forall j :: 0 <= j < i ==> vendors[j].record.id != id
  {
    if vendors == [] then null
    else if vendors[0].record.id == id then vendors[0]
    else
      var r := FindVendorNode(vendors[1..], id);
      assert forall j :: 0 <= j < |vendors[1..]| ==> vendors[1..][j] == vendors[j + 1];
      r
  }

  function InCategory(id: int): ModelNode -> bool {
    (m: ModelNode) => m.record.categoryId == id
  }

  function OfVendor(id: int): ModelNode -> bool {
    (m: ModelNode) => m.record.vendorId == id
  }

  /** The three linking loops. The lists themselves are not changed: no
      model, category or vendor is added, dropped or reordered. */
  method LinkRelationships(models: seq<ModelNode>, categories: seq<CategoryNode>, vendors: seq<VendorNode>)
    modifies models, categories, vendors
    ensures forall i :: 0 <= i < |models| ==>
              models[i].category == FindCategoryNode(categories, models[i].record.categoryId)
              && models[i].vendor == FindVendorNode(vendors, models[i].record.vendorId)
    ensures forall i :: 0 <= i < |categories| ==>
              categories[i].models == Seqs.Filter(models, InCategory(categories[i].record.id))
    ensures forall i :: 0 <= i < |vendors| ==>
              vendors[i].models == Seqs.Filter(models, OfVendor(vendors[i].record.id))
  {
    AttachRecords(models, categories, vendors);
    FillCategoryLists(models, categories);
    FillVendorLists(models, vendors);
  }

  /** The first loop: `model.category` and `model.vendor`. */
  method AttachRecords(models: seq<ModelNode>, categories: seq<CategoryNode>, vendors: seq<VendorNode>)
    modifies models
    ensures forall i :: 0 <= i < |models| ==>
              models[i].category == FindCategoryNode(categories, models[i].record.categoryId)
              && models[i].vendor == FindVendorNode(vendors, models[i].record.vendorId)
  {
    for i := 0 to |models|
      invariant forall k :: 0 <= k < i ==>
                  models[k].category == FindCategoryNode(categories, models[k].record.categoryId)
                  && models[k].vendor == FindVendorNode(vendors, models[k].record.vendorId)
    {
      models[i].category := FindCategoryNode(categories, models[i].record.categoryId);
      models[i].vendor := FindVendorNode(vendors, models[i].record.vendorId);
    }
  }

  /** The second loop: `category.models`. */
  method FillCategoryLists(models: seq<ModelNode>, categories: seq<CategoryNode>)
    modifies categories
    ensures forall i :: 0 <= i < |categories| ==>
              categories[i].models == Seqs.Filter(models, InCategory(categories[i].record.id))
  {
    for i := 0 to |categories|
      invariant forall k :: 0 <= k < i ==>
                  categories[k].models == Seqs.Filter(models, InCategory(categories[k].record.id))
    {
      categories[i].models := Seqs.Filter(models, InCategory(categories[i].record.id));
    }
  }

  /** The third loop: `vendor.models`. */
  method FillVendorLists(models: seq<ModelNode>, vendors: seq<VendorNode>)
    modifies vendors
    ensures forall i :: 0 <= i < |vendors| ==>
              vendors[i].models == Seqs.Filter(models, OfVendor(vendors[i].record.id))
  {
    for i := 0 to |vendors|
      invariant forall k :: 0 <= k < i ==>
                  vendors[k].models == Seqs.Filter(models, OfVendor(vendors[k].record.id))
    {
      vendors[i].models := Seqs.Filter(models, OfVendor(vendors[i].record.id));
    }
  }

  /** A category's back-list holds exactly the listed models with its id, in
      list order. */
  lemma CategoryMembers(models: seq<ModelNode>, c: CategoryNode, m: ModelNode)
    ensures m in Seqs.Filter(models, InCategory(c.record.id)) <==> m in models && m.record.categoryId == c.record.id
    ensures Seqs.IsSubsequence(Seqs.Filter(models, InCategory(c.record.id)), models)
  {
    Seqs.FilterIsSubsequence(models, InCategory(c.record.id));
    if m in models && m.record.categoryId == c.record.id {
      var i :| 0 <= i < |models| && models[i] == m;
    }
  }

  /** A vendor's back-list holds exactly the listed models with its id, in
      list order. */
  lemma VendorMembers(models: seq<ModelNode>, v: VendorNode, m: ModelNode)
    ensures m in Seqs.Filter(models, OfVendor(v.record.id)) <==> m in models && m.record.vendorId == v.record.id
    ensures Seqs.IsSubsequence(Seqs.Filter(models, OfVendor(v.record.id)), models)
  {
    Seqs.FilterIsSubsequence(models, OfVendor(v.record.id));
    if m in models && m.record.vendorId == v.record.id {
      var i :| 0 <= i < |models| && models[i] == m;
    }
  }

  /** The two directions of a link agree: a model linked to a category is in
      that category's back-list. */
  lemma LinksAgree(models: seq<ModelNode>, categories: seq<CategoryNode>, i: nat)
    requires i < |models|
    ensures var c := FindCategoryNode(categories, models[i].record.categoryId);
            c != null ==> models[i] in Seqs.Filter(models, InCategory(c.record.id))
  {
    var c := FindCategoryNode(categories, models[i].record.categoryId);
    if c != null {
      CategoryMembers(models, c, models[i]);
    }
  }

  function CategoryRecords(categories: seq<CategoryNode>): (r: seq<Category>)
    ensures |r| == |categories|
    ensures forall i :: 0 <= i < |r| ==> r[i] == categories[i].record
  {
    if categories == [] then [] else [categories[0].record] + CategoryRecords(categories[1..])
  }

  function VendorRecords(vendors: seq<VendorNode>): (r: seq<Vendor>)
    ensures |r| == |vendors|
    ensures forall i :: 0 <= i < |r| ==> r[i] == vendors[i].record
  {
    if vendors == [] then [] else [vendors[0].record] + VendorRecords(vendors[1..])
  }

  /** Looking up a node finds the node of the record the value lookup finds. */
  lemma {:induction false} CategoryLookupAgrees(categories: seq<CategoryNode>, id: int)
    ensures var n := FindCategoryNode(categories, id);
            FindCategory(CategoryRecords(categories), id) == if n == null then None else Some(n.record)
  {
    if categories != [] {
      CategoryLookupAgrees(categories[1..], id);
      assert CategoryRecords(categories)[1..] == CategoryRecords(categories[1..]);
    }
  }

  lemma {:induction false} VendorLookupAgrees(vendors: seq<VendorNode>, id: int)
    ensures var n := FindVendorNode(vendors, id);
            FindVendor(VendorRecords(vendors), id) == if n == null then None else Some(n.record)
  {
    if vendors != [] {
      VendorLookupAgrees(vendors[1..], id);
      assert VendorRecords(vendors)[1..] == VendorRecords(vendors[1..]);
    }
  }

  /** The record a linked model presents to the table helpers. */
  function LinkedModel(m: ModelNode): (r: AIModel)
    reads m
    ensures r.category == (if m.category == null then None else Some(m.category.record))
    ensures r.vendor == (if m.vendor == null then None else Some(m.vendor.record))
    ensures r.(category := m.record.category, vendor := m.record.vendor) == m.record
  {
    m.record.(category := if m.category == null then None else Some(m.category.record),
              vendor := if m.vendor == null then None else Some(m.vendor.record))
  }
}
