/**
 * The two panels together: the retry loop of the cart panel over virtual
 * time, and the reset of the catalog panel that a submitted order brings
 * about. Message delivery on the channel is a direct call of the receiving
 * panel's handler.
 */
module Protocol {
  import opened Common
  import opened CatalogPanel
  import opened CartPanel

  /**
   * A change is reported to a subscribed panel before the cart wire has
   * delivered: the refresh waits through any number of retry intervals, each
   * re-arming one timer and calling nothing; then the wire delivers, and the
   * next timer calls `refreshApex` exactly once, with no timer left.
   */
  method RefreshAfterRetries(accountId: string, wire: CartWire, retries: nat) returns (refreshes: nat, pending: nat)
    ensures refreshes == 1 && pending == 0
  {
    var panel := new ShoppingCart(accountId);
    panel.ConnectedCallback();
    assert panel.cartResult.None? && panel.calls == [] && panel.pendingRetries == 0;
    panel.OnMessage(Notification(accountId, None));
    assert panel.calls == [] && panel.pendingRetries == 1;
    var n := 0;
    while n < retries
      invariant fresh(panel)
      invariant panel.Valid() && panel.cartResult.None?
      invariant panel.calls == [] && panel.pendingRetries == 1
    {
      panel.Tick();
      n := n + 1;
    }
    panel.WiredCart(wire);
    assert panel.cartResult == Some(wire) && panel.calls == [] && panel.pendingRetries == 1;
    panel.Tick();
    assert panel.calls == [RefreshApex(Some(wire))];
    refreshes, pending := RefreshCount(panel.calls), panel.pendingRetries;
  }

  /**
   * Whatever the catalog panel's edits and selection, once the cart panel
   * submits the account's order and its `submitted` message reaches the
   * catalog panel, every quantity there is 1, the selection is empty and the
   * cart panel holds no cart. The channel also delivers the message to the
   * cart panel's own handler, whose account matches, so a refresh follows; it
   * leaves the cleared cart as it is.
   */
  method SubmittedOrderResetsCatalog(
    accountId: string, opportunityId: string,
    products: seq<Product>, edits: seq<Edit>, rows: seq<SelectedRow>)
    returns (quantities: seq<int>, selection: seq<CartLine>, cartCleared: bool)
    requires opportunityId != ""
    ensures |quantities| == |products| && forall i :: 0 <= i < |quantities| ==> quantities[i] == 1
    ensures selection == []
    ensures cartCleared
  {
    var catalog := new ProductSelector(accountId);
    catalog.ConnectedCallback();
    catalog.WiredProducts(ProductsResult(Some(products), None));
    catalog.HandleCellChange(edits);
    var _ := catalog.HandleRowSelection(rows);

    var cartPanel := new ShoppingCart(accountId);
    cartPanel.ConnectedCallback();
    cartPanel.WiredCart(CartWire(Some(CartSnapshot(Some(opportunityId), Some([]))), None));
    cartPanel.HandleSubmitOrder(Resolved(()));

    var message := cartPanel.published[|cartPanel.published| - 1];
    assert message == Notification(accountId, Some(Submitted));
    assert cartPanel.cart.None? && cartPanel.items == Some([]);
    catalog.HandleCartMessage(message);
    cartPanel.OnMessage(message);
    quantities, selection := Quantities(catalog.data), catalog.selectedRows;
    cartCleared := cartPanel.cart.None? && cartPanel.items == Some([]);
  }
}
