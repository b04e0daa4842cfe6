/**
 * The catalog panel (`ProductSelector`): a table of product rows whose
 * quantities the user edits, the selection derived from it, the add-to-cart
 * request built from the selection, and the reset that follows a submitted
 * order.
 *
 * The rows are values in a sequence: the source's in-place `row.quantity = q`
 * on the row that `data.find` returns becomes an update of `data` at the first
 * index whose `id` matches.
 */
module CatalogPanel {
  import opened Common

  type ProductId = string

  /** A price is only displayed, never computed with: an opaque copied value. */
  type Price = int

  /** A product as the server returns it. */
  datatype Product = Product(productId: ProductId, name: string, unitPrice: Price)

  /** What the product wire delivers: `{data, error}`, either possibly absent. */
  datatype ProductsResult = ProductsResult(data: Option<seq<Product>>, error: Option<string>)

  /** One row of the product table. */
  datatype Row = Row(id: ProductId, productId: ProductId, name: string, unitPrice: Price, quantity: int)

  /** One draft value of the table: the new quantity of the row with key `id`. */
  datatype Edit = Edit(id: ProductId, quantity: int)

  /** A row as the table reports it in a selection event; its `productId` may be missing. */
  datatype SelectedRow = SelectedRow(id: ProductId, productId: Option<ProductId>, quantity: int)

  /** An entry of the selection, and of the add-to-cart payload: `{productId, quantity}`. */
  datatype CartLine = CartLine(productId: ProductId, quantity: int)

  /** The arguments of one `addProductsToCart` call. */
  datatype AddRequest = AddRequest(accountId: string, selectedProducts: seq<CartLine>)

  // ---------------------------------------------------------------------------
  // Loading and looking up rows
  // ---------------------------------------------------------------------------

  /** The row a loaded product becomes. */
  function RowOf(p: Product): (row: Row)
  {
    Row(p.productId, p.productId, p.name, p.unitPrice, 1)
  }

  /** The table built from the loaded products (`data.map(...)` in `wiredProducts`). */
  function RowsOf(products: seq<Product>): (rows: seq<Row>)
    ensures |rows| == |products|
    ensures forall i :: 0 <= i < |rows| ==>
      && rows[i].id == products[i].productId
      && rows[i].productId == products[i].productId
      && rows[i].name == products[i].name
      && rows[i].unitPrice == products[i].unitPrice
      && rows[i].quantity == 1
  {
    seq(|products|, i requires 0 <= i < |products| => RowOf(products[i]))
  }

  /** The index of the first row whose `id` is `id`, as `data.find(r => r.id === id)` picks it. */
  function FindIndex(data: seq<Row>, id: ProductId): (r: Option<nat>)
    ensures r.Some? ==> r.value < |data| && data[r.value].id == id
    ensures r.Some? ==> forall j :: 0 <= j < r.value ==> data[j].id != id
    ensures r.None? ==> forall j :: 0 <= j < |data| ==> data[j].id != id
  {
    if data == [] then None
    else if data[0].id == id then Some(0)
    else match FindIndex(data[1..], id)
      case None => None
      case Some(k) => Some(k + 1)
  }

  /** `b` has the rows of `a`, in the same order, differing at most in their quantities. */
  ghost predicate SameRowsButQuantity(a: seq<Row>, b: seq<Row>)
  {
    |a| == |b| && forall k :: 0 <= k < |a| ==> a[k].(quantity := b[k].quantity) == b[k]
  }

  /** Two tables whose rows differ only in quantity find the same row for every id. */
  lemma FindIndexSameRows(a: seq<Row>, b: seq<Row>, id: ProductId)
    requires SameRowsButQuantity(a, b)
    ensures FindIndex(a, id) == FindIndex(b, id)
  {
  }

  // ---------------------------------------------------------------------------
  // Quantity edits (handleCellChange)
  // ---------------------------------------------------------------------------

  /** One draft value applied: the first row with its id takes its quantity; without such a row nothing changes. */
  function ApplyEdit(data: seq<Row>, e: Edit): (r: seq<Row>)
    ensures SameRowsButQuantity(data, r)
    ensures FindIndex(data, e.id).None? ==> r == data
  {
    match FindIndex(data, e.id)
    case None => data
    case Some(k) => data[k := data[k].(quantity := e.quantity)]
  }

  /** The draft values applied one after another, in order. */
  function ApplyEdits(data: seq<Row>, edits: seq<Edit>): (r: seq<Row>)
    ensures SameRowsButQuantity(data, r)
    decreases |edits|
  {
    if edits == [] then data
    else ApplyEdit(ApplyEdits(data, edits[..|edits| - 1]), edits[|edits| - 1])
  }

  /** The quantity of the last draft value for `id`, if there is one. */
  function LastEditFor(edits: seq<Edit>, id: ProductId): (last: Option<int>)
    decreases |edits|
  {
    if edits == [] then None
    else if edits[|edits| - 1].id == id then Some(edits[|edits| - 1].quantity)
    else LastEditFor(edits[..|edits| - 1], id)
  }

  /**
   * What the edits do to row `k`: it takes the quantity of the last edit naming
   * its id when it is the first row with that id, and is otherwise unchanged.
   * So edits naming no row are ignored, rows named by no edit keep their
   * quantity, and a later edit of the same row wins.
   */
  lemma {:induction false} ApplyEditsAt(data: seq<Row>, edits: seq<Edit>, k: nat)
    requires k < |data|
    ensures ApplyEdits(data, edits)[k] ==
      var id := data[k].id;
      if FindIndex(data, id) == Some(k) && LastEditFor(edits, id).Some?
      then data[k].(quantity := LastEditFor(edits, id).value)
      else data[k]
    decreases |edits|
  {
    if edits != [] {
      var init, e := edits[..|edits| - 1], edits[|edits| - 1];
      var before := ApplyEdits(data, init);
      ApplyEditsAt(data, init, k);
      FindIndexSameRows(data, before, e.id);
      FindIndexSameRows(data, before, data[k].id);
      assert before[k].id == data[k].id by {
        assert data[k].(quantity := before[k].quantity) == before[k];
      }
    }
  }

  /** Rows that no edit names keep their quantity. */
  lemma {:induction false} UnnamedRowsKeepQuantity(data: seq<Row>, edits: seq<Edit>, k: nat)
    requires k < |data|
    requires forall i :: 0 <= i < |edits| ==> edits[i].id != data[k].id
    ensures ApplyEdits(data, edits)[k] == data[k]
  {
    ApplyEditsAt(data, edits, k);
    LastEditForNone(edits, data[k].id);
  }

  /** Without an edit naming `id` there is no last edit for it. */
  lemma {:induction false} LastEditForNone(edits: seq<Edit>, id: ProductId)
    requires forall i :: 0 <= i < |edits| ==> edits[i].id != id
    ensures LastEditFor(edits, id).None?
    decreases |edits|
  {
    if edits != [] {
      LastEditForNone(edits[..|edits| - 1], id);
    }
  }

  /** Applying the same draft values twice leaves the table as applying them once. */
  lemma ApplyEditsIdempotent(data: seq<Row>, edits: seq<Edit>)
    ensures ApplyEdits(ApplyEdits(data, edits), edits) == ApplyEdits(data, edits)
  {
    var once := ApplyEdits(data, edits);
    var twice := ApplyEdits(once, edits);
    forall k | 0 <= k < |data| ensures twice[k] == once[k] {
      ApplyEditsAt(data, edits, k);
      ApplyEditsAt(once, edits, k);
      FindIndexSameRows(data, once, data[k].id);
      assert data[k].(quantity := once[k].quantity) == once[k];
    }
  }

  // ---------------------------------------------------------------------------
  // Selection (handleRowSelection) and the add-to-cart payload (handleAddToCart)
  // ---------------------------------------------------------------------------

  /** The product id a selection entry records: `r.productId ?? r.id`. */
  function ProductIdOf(r: SelectedRow): (id: ProductId)
  {
    r.productId.GetOr(r.id)
  }

  /** A selected row with its quantity overwritten by the current quantity of its table row, if any. */
  function SyncRow(data: seq<Row>, r: SelectedRow): (synced: SelectedRow)
  {
    match FindIndex(data, r.id)
    case Some(k) => r.(quantity := data[k].quantity)
    case None => r
  }

  /**
   * The selected rows after the loop of `handleRowSelection` has synced each
   * of them: the same rows in the same order, each taking the quantity of the
   * first table row with its id, and keeping its own when no table row has it.
   */
  function SyncRows(data: seq<Row>, rows: seq<SelectedRow>): (synced: seq<SelectedRow>)
    ensures |synced| == |rows|
    ensures forall i :: 0 <= i < |rows| ==>
      synced[i] == (match FindIndex(data, rows[i].id)
                    case Some(k) => rows[i].(quantity := data[k].quantity)
                    case None => rows[i])
  {
    seq(|rows|, i requires 0 <= i < |rows| => SyncRow(data, rows[i]))
  }

  /**
   * The selection recorded for the selected `rows`: one entry per row, in
   * order, carrying the row's product id and the quantity its table row has
   * now (the row's own quantity only when no table row has its id).
   */
  function SelectionOf(data: seq<Row>, rows: seq<SelectedRow>): (sel: seq<CartLine>)
    ensures |sel| == |rows|
    ensures forall i :: 0 <= i < |rows| ==> sel[i].productId == ProductIdOf(rows[i])
    ensures forall i :: 0 <= i < |rows| ==>
      sel[i].quantity == (match FindIndex(data, rows[i].id)
                          case Some(k) => data[k].quantity
                          case None => rows[i].quantity)
  {
    var synced := SyncRows(data, rows);
    seq(|synced|, i requires 0 <= i < |synced| => CartLine(ProductIdOf(synced[i]), synced[i].quantity))
  }

  /**
   * The add-to-cart payload: one line per selection entry, in order, with the
   * entry's product id and the current quantity of the table row with that id
   * (the entry's own quantity only when no table row has it).
   */
  function Payload(data: seq<Row>, selected: seq<CartLine>): (p: seq<CartLine>)
    ensures |p| == |selected|
    ensures forall i :: 0 <= i < |selected| ==> p[i].productId == selected[i].productId
    ensures forall i :: 0 <= i < |selected| ==>
      p[i].quantity == (match FindIndex(data, selected[i].productId)
                        case Some(k) => data[k].quantity
                        case None => selected[i].quantity)
  {
    if selected == [] then []
    else
      var sel := selected[0];
      var q := match FindIndex(data, sel.productId)
        case Some(k) => data[k].quantity
        case None => sel.quantity;
      [CartLine(sel.productId, q)] + Payload(data, selected[1..])
  }

  /**
   * The payload never carries a stale quantity: when the selection was taken
   * before some further edits, the payload built afterwards is the selection
   * those rows would get if they were selected after the edits. This needs each
   * selected row's `productId` to be missing or equal to its `id`, as it is for
   * every row the table was loaded with.
   */
  lemma PayloadIsFresh(data: seq<Row>, rows: seq<SelectedRow>, edits: seq<Edit>)
    requires forall i :: 0 <= i < |rows| ==> ProductIdOf(rows[i]) == rows[i].id
    ensures Payload(ApplyEdits(data, edits), SelectionOf(data, rows)) == SelectionOf(ApplyEdits(data, edits), rows)
  {
  }

  // ---------------------------------------------------------------------------
  // Reset after a submitted order (handleCartMessage)
  // ---------------------------------------------------------------------------

  /** Every row with quantity 1 and its other fields kept (`data.map(item => ({...item, quantity: 1}))`). */
  function ResetQuantities(data: seq<Row>): (r: seq<Row>)
    ensures SameRowsButQuantity(data, r)
    ensures forall k :: 0 <= k < |r| ==> r[k].quantity == 1
  {
    seq(|data|, k requires 0 <= k < |data| => data[k].(quantity := 1))
  }

  /** The reset reaches the same table whatever edits came before it. */
  lemma ResetForgetsEdits(data: seq<Row>, edits: seq<Edit>)
    ensures ResetQuantities(ApplyEdits(data, edits)) == ResetQuantities(data)
  {
  }

  /** The quantities of the table's rows, in order. */
  function Quantities(data: seq<Row>): (q: seq<int>)
    ensures |q| == |data| && forall k :: 0 <= k < |data| ==> q[k] == data[k].quantity
  {
    seq(|data|, k requires 0 <= k < |data| => data[k].quantity)
  }

  // ---------------------------------------------------------------------------
  // The panel
  // ---------------------------------------------------------------------------

  /**
   * The catalog panel's state. Toasts, published messages and the
   * `addProductsToCart` calls made are append-only logs.
   */
  class ProductSelector {
    const recordId: string
    var data: seq<Row>
    var draftValues: seq<Edit>
    var selectedRows: seq<CartLine>
    /** Whether `subscription` holds a handle. */
    var subscribed: bool
    /** How many times `subscribe` has been called. */
    var subscribeCalls: nat
    var requests: seq<AddRequest>
    var published: seq<Notification>
    var toasts: seq<Toast>

    /** The panel subscribes at most once, and only when it holds a subscription. */
    ghost predicate Valid()
      reads this
    {
      subscribeCalls == if subscribed then 1 else 0
    }

    constructor (recordId: string)
      ensures Valid()
      ensures this.recordId == recordId && data == [] && draftValues == [] && selectedRows == []
      ensures !subscribed && requests == [] && published == [] && toasts == []
    {
      this.recordId := recordId;
      data, draftValues, selectedRows := [], [], [];
      subscribed, subscribeCalls := false, 0;
      requests, published, toasts := [], [], [];
    }

    /** Subscribes to the cart message channel unless a subscription already exists. */
    method ConnectedCallback()
      requires Valid()
      modifies this`subscribed, this`subscribeCalls
      ensures Valid() && subscribed && subscribeCalls == 1
      ensures old(subscribed) ==> subscribeCalls == old(subscribeCalls)
    {
      if !subscribed {
        subscribed := true;
        subscribeCalls := subscribeCalls + 1;
      }
    }

    /**
     * A message from the channel. A `submitted` one clears the selection and
     * resets every quantity to 1; any other message changes nothing.
     */
    method HandleCartMessage(message: Notification)
      requires Valid()
      modifies this`selectedRows, this`data
      ensures Valid()
      ensures message.status == Some(Submitted) ==> selectedRows == [] && data == ResetQuantities(old(data))
      ensures message.status != Some(Submitted) ==> selectedRows == old(selectedRows) && data == old(data)
    {
      if message.status == Some(Submitted) {
        selectedRows := [];
        data := ResetQuantities(data);
      }
    }

    /** The product wire: with data, the table is rebuilt with quantity 1; otherwise it is kept. */
    method WiredProducts(result: ProductsResult)
      requires Valid()
      modifies this`data
      ensures Valid()
      ensures result.data.Some? ==> data == RowsOf(result.data.value)
      ensures result.data.None? ==> data == old(data)
    {
      if result.data.Some? {
        data := RowsOf(result.data.value);
      }
    }

    /** Applies the table's draft values to the rows, in order, then clears the drafts. */
    method HandleCellChange(updates: seq<Edit>)
      requires Valid()
      modifies this`data, this`draftValues
      ensures Valid()
      ensures data == ApplyEdits(old(data), updates)
      ensures draftValues == []
    {
      var i := 0;
      while i < |updates|
        invariant 0 <= i <= |updates|
        invariant data == ApplyEdits(old(data), updates[..i])
      {
        var row := FindIndex(data, updates[i].id);
        if row.Some? {
          data := data[row.value := data[row.value].(quantity := updates[i].quantity)];
        }
        assert updates[..i + 1][..i] == updates[..i];
        i := i + 1;
      }
      assert updates[..i] == updates;
      draftValues := [];
    }

    /**
     * Records the selection: each incoming row first takes the current
     * quantity of its table row (the rows the event carries are returned with
     * that change), then the selection is built from them. The table is not
     * changed.
     */
    method HandleRowSelection(rows: seq<SelectedRow>) returns (synced: seq<SelectedRow>)
      requires Valid()
      modifies this`selectedRows
      ensures Valid()
      ensures synced == SyncRows(data, rows)
      ensures selectedRows == SelectionOf(data, rows)
    {
      synced := rows;
      var i := 0;
      while i < |synced|
        invariant 0 <= i <= |synced| == |rows|
        invariant forall j :: 0 <= j < i ==> synced[j] == SyncRow(data, rows[j])
        invariant forall j :: i <= j < |rows| ==> synced[j] == rows[j]
      {
        var original := FindIndex(data, synced[i].id);
        if original.Some? {
          synced := synced[i := synced[i].(quantity := data[original.value].quantity)];
        }
        i := i + 1;
      }
      selectedRows := seq(|synced|, j requires 0 <= j < |synced| => CartLine(ProductIdOf(synced[j]), synced[j].quantity));
    }

    /**
     * Sends the selection to the cart. With nothing selected it only warns.
     * Otherwise it calls `addProductsToCart` with the payload re-synced against
     * the table; on success it toasts, publishes `{accountId}` and clears the
     * selection; on failure it toasts the server's message, and when the error
     * has no body reading its message throws and no toast appears.
     */
    method HandleAddToCart(outcome: Outcome<()>)
      requires Valid()
      modifies this`selectedRows, this`requests, this`published, this`toasts
      ensures Valid()
      ensures old(selectedRows) == [] ==>
        && toasts == old(toasts) + [Toast("No products selected", Some("Please select at least one product."), Warning)]
        && requests == old(requests) && published == old(published) && selectedRows == old(selectedRows)
      ensures old(selectedRows) != [] ==> requests == old(requests) + [AddRequest(recordId, Payload(data, old(selectedRows)))]
      ensures old(selectedRows) != [] && outcome.Resolved? ==>
        && toasts == old(toasts) + [Toast("Cart Updated", Some("Products added successfully!"), Success)]
        && published == old(published) + [Notification(recordId, None)]
        && selectedRows == []
      ensures old(selectedRows) != [] && outcome.Rejected? ==>
        && published == old(published) && selectedRows == old(selectedRows)
        && toasts == old(toasts) + (if outcome.body.Some? then [Toast("Error", outcome.body.value.message, Error)] else [])
    {
      if |selectedRows| == 0 {
        toasts := toasts + [Toast("No products selected", Some("Please select at least one product."), Warning)];
        return;
      }
      var payload := Payload(data, selectedRows);
      requests := requests + [AddRequest(recordId, payload)];
      match outcome
      case Resolved(_) =>
        toasts := toasts + [Toast("Cart Updated", Some("Products added successfully!"), Success)];
        published := published + [Notification(recordId, None)];
        selectedRows := [];
      case Rejected(body) =>
        if body.Some? {
          toasts := toasts + [Toast("Error", body.value.message, Error)];
        }
    }
  }
}
