/**
 * The seller's products page (admin-seller/products/page.tsx): the local list
 * `data` and the handlers that append, merge by id, filter by id and change
 * the availability optimistically. Server answers are parameters: `None` or
 * `false` stands for a request that failed.
 */
module ProductsAdmin {
  import opened Wrappers
  import opened ListOps
  import opened ProductRow

  /**
   * The fields the server returns for an update; those present override the row's
   * (`{ ...product, ...updated }`). For a nullable field, `None` is a key the answer
   * leaves out, `Some(None)` an explicit null and `Some(Some(v))` a value.
   */
  datatype ProductPatch = ProductPatch(
    id: Option<string>,
    name: Option<Option<string>>,
    price: Option<Option<int>>,
    available: Option<Option<bool>>,
    active: Option<Option<bool>>,
    sponsored: Option<Option<bool>>,
    classification: Option<Option<string>>)

  const EmptyPatch := ProductPatch(None, None, None, None, None, None, None)

  function Override<T>(field: Option<T>, current: T): T {
    if field.Some? then field.value else current
  }

  function OverrideOptional<T>(field: Option<Option<T>>, current: Option<T>): Option<T> {
    if field.Some? then field.value else current
  }

  /** One row with the returned fields spread over it. */
  function Merge(p: Product, patch: ProductPatch): Product {
    Product(
      Override(patch.id, p.id),
      OverrideOptional(patch.name, p.name),
      OverrideOptional(patch.price, p.price),
      OverrideOptional(patch.available, p.available),
      OverrideOptional(patch.active, p.active),
      OverrideOptional(patch.sponsored, p.sponsored),
      OverrideOptional(patch.classification, p.classification))
  }

  /** A field the patch carries takes the patch's value; a field it leaves out keeps the row's. */
  lemma {:induction false} MergeFields(p: Product, patch: ProductPatch)
    ensures patch.id.Some? ==> Merge(p, patch).id == patch.id.value
    ensures patch.id.None? ==> Merge(p, patch).id == p.id
    ensures patch.name.Some? ==> Merge(p, patch).name == patch.name.value
    ensures patch.name.None? ==> Merge(p, patch).name == p.name
    ensures patch.price.Some? ==> Merge(p, patch).price == patch.price.value
    ensures patch.price.None? ==> Merge(p, patch).price == p.price
    ensures patch.available.Some? ==> Merge(p, patch).available == patch.available.value
    ensures patch.available.None? ==> Merge(p, patch).available == p.available
    ensures patch.active.Some? ==> Merge(p, patch).active == patch.active.value
    ensures patch.active.None? ==> Merge(p, patch).active == p.active
    ensures patch.sponsored.Some? ==> Merge(p, patch).sponsored == patch.sponsored.value
    ensures patch.sponsored.None? ==> Merge(p, patch).sponsored == p.sponsored
    ensures patch.classification.Some? ==> Merge(p, patch).classification == patch.classification.value
    ensures patch.classification.None? ==> Merge(p, patch).classification == p.classification
    ensures patch.price == Some(None) ==> Merge(p, patch).price == None
  {
  }

  /** Spreading the same fields twice is spreading them once; an empty answer changes nothing. */
  lemma {:induction false} MergeIdempotent(p: Product, patch: ProductPatch)
    ensures Merge(Merge(p, patch), patch) == Merge(p, patch)
    ensures Merge(p, EmptyPatch) == p
  {
  }

  /** `prev.map(product => product.id === id ? { ...product, ...updated } : product)` */
  function MergeRows(rows: seq<Product>, id: string, patch: ProductPatch): (r: seq<Product>)
    ensures |r| == |rows|
    ensures forall k :: 0 <= k < |rows| && rows[k].id == id ==> r[k] == Merge(rows[k], patch)
    ensures forall k :: 0 <= k < |rows| && rows[k].id != id ==> r[k] == rows[k]
  {
    seq(|rows|, k requires 0 <= k < |rows| => if rows[k].id == id then Merge(rows[k], patch) else rows[k])
  }

  /** `prev.map(product => product.id === id ? { ...product, available: value } : product)` */
  function WithAvailable(rows: seq<Product>, id: string, value: bool): (r: seq<Product>)
    ensures |r| == |rows|
    ensures forall k :: 0 <= k < |rows| && rows[k].id == id ==> r[k] == rows[k].(available := Some(value))
    ensures forall k :: 0 <= k < |rows| && rows[k].id != id ==> r[k] == rows[k]
  {
    seq(|rows|, k requires 0 <= k < |rows| => if rows[k].id == id then rows[k].(available := Some(value)) else rows[k])
  }

  function ProductId(p: Product): string {
    p.id
  }

  /** The value handleStatusChange writes and sends: true exactly for "active". */
  function AvailableFor(newStatus: string): (r: bool)
    ensures r <==> newStatus == "active"
  {
    newStatus == "active"
  }

  /** An availability change is the merge of a patch that carries only `available`. */
  lemma {:induction false} WithAvailableIsMerge(rows: seq<Product>, id: string, value: bool)
    ensures WithAvailable(rows, id, value) == MergeRows(rows, id, EmptyPatch.(available := Some(Some(value))))
  {
  }

  /** A later availability change on the same id overrides an earlier one. */
  lemma {:induction false} WithAvailableLastWins(rows: seq<Product>, id: string, a: bool, b: bool)
    ensures WithAvailable(WithAvailable(rows, id, a), id, b) == WithAvailable(rows, id, b)
  {
  }

  /** As written, the status change writes `available` while the status column reads `active`: no row's label moves. */
  lemma {:induction false} StatusChangeLeavesLabels(rows: seq<Product>, id: string, newStatus: string)
    ensures forall k :: 0 <= k < |rows| ==>
      StatusLabel(WithAvailable(rows, id, AvailableFor(newStatus))[k].active) == StatusLabel(rows[k].active)
  {
  }

  /** The status change writing the field the column reads. */
  function WithActive(rows: seq<Product>, id: string, value: bool): (r: seq<Product>)
    ensures |r| == |rows|
    ensures forall k :: 0 <= k < |rows| && rows[k].id == id ==> r[k] == rows[k].(active := Some(value))
    ensures forall k :: 0 <= k < |rows| && rows[k].id != id ==> r[k] == rows[k]
  {
    seq(|rows|, k requires 0 <= k < |rows| => if rows[k].id == id then rows[k].(active := Some(value)) else rows[k])
  }

  /** Writing `active`, the label of every matching row shows the chosen status and the others keep theirs. */
  lemma {:induction false} CorrectedStatusChangeShowsStatus(rows: seq<Product>, id: string, newStatus: string)
    requires newStatus in {"active", "pending"}
    ensures forall k :: 0 <= k < |rows| && rows[k].id == id ==>
      StatusLabel(WithActive(rows, id, AvailableFor(newStatus))[k].active) == newStatus
    ensures forall k :: 0 <= k < |rows| && rows[k].id != id ==>
      StatusLabel(WithActive(rows, id, AvailableFor(newStatus))[k].active) == StatusLabel(rows[k].active)
  {
  }

  class ProductsPage {
    var data: seq<Product>
    var openCreate: bool
    var openEdit: bool
    var selectedProduct: Option<Product>

    /** The page starts with an empty local list and closed dialogs. */
    constructor ()
      ensures data == [] && !openCreate && !openEdit && selectedProduct == None
    {
      data := [];
      openCreate := false;
      openEdit := false;
      selectedProduct := None;
    }

    /** handleCreate: the created product is appended and the dialog closes; a failure changes nothing. */
    method HandleCreate(created: Option<Product>)
      modifies this`data, this`openCreate
      ensures created.Some? ==> data == old(data) + [created.value] && !openCreate
      ensures created.None? ==> data == old(data) && openCreate == old(openCreate)
    {
      if created.Some? {
        data := data + [created.value];
        openCreate := false;
      }
    }

    /** handleUpdate: the returned fields are merged into the rows with that id, the edit dialog closes and the selection is dropped. */
    method HandleUpdate(id: string, updated: Option<ProductPatch>)
      modifies this`data, this`openEdit, this`selectedProduct
      ensures updated.Some? ==> data == MergeRows(old(data), id, updated.value) && !openEdit && selectedProduct == None
      ensures updated.None? ==> data == old(data) && openEdit == old(openEdit) && selectedProduct == old(selectedProduct)
    {
      if updated.Some? {
        data := MergeRows(data, id, updated.value);
        openEdit := false;
        selectedProduct := None;
      }
    }

    /** handleDelete: rows with that id go only once the server has deleted the product. */
    method HandleDelete(productId: string, serverAccepts: bool)
      modifies this`data
      ensures serverAccepts ==> data == Without(old(data), ProductId, productId)
      ensures !serverAccepts ==> data == old(data)
    {
      if serverAccepts {
        data := Without(data, ProductId, productId);
      }
    }

    /** handleStatusChange: the rows change at once and the same value is sent; a refusal restores the list as it was. */
    method HandleStatusChange(productId: string, newStatus: string, serverAccepts: bool) returns (sent: bool)
      modifies this`data
      ensures sent == AvailableFor(newStatus)
      ensures serverAccepts ==> data == WithAvailable(old(data), productId, sent)
      ensures !serverAccepts ==> data == old(data)
    {
      var previousData := data;
      data := WithAvailable(data, productId, AvailableFor(newStatus));
      sent := AvailableFor(newStatus);
      if !serverAccepts {
        data := previousData;
      }
    }

    /** The row menu's Edit: the product becomes the selection and the edit dialog opens. */
    method OnEdit(p: Product)
      modifies this`selectedProduct, this`openEdit
      ensures selectedProduct == Some(p) && openEdit
    {
      selectedProduct := Some(p);
      openEdit := true;
    }
  }
}
