/**
 * The cart panel (`ShoppingCart`): the cached cart of one account, the
 * refresh of that cache when another panel reports a change, line-item
 * removal and order submission.
 *
 * Server calls are outcome parameters, and their `.then`/`.catch`
 * continuations run inside the same method. The 200 ms timer of `refreshCart`
 * is a count of pending retries that `Tick` fires one at a time.
 */
module CartPanel {
  import opened Common

  /** A line of the server's cart; the panel only displays it and removes it by id. */
  datatype LineItem = LineItem(lineItemId: string, productId: string, quantity: int)

  /** A cart snapshot as the server returns it; both fields may be missing. */
  datatype CartSnapshot = CartSnapshot(opportunityId: Option<string>, items: Option<seq<LineItem>>)

  /** What the cart wire delivers (`result`): `{data, error}`, either possibly absent. */
  datatype CartWire = CartWire(data: Option<CartSnapshot>, error: Option<string>)

  /** A server or platform call the panel makes. */
  datatype RemoteCall =
    | RemoveLineItem(lineItemId: string, accountId: string)
    | SubmitOrder(opportunityId: string, accountId: string)
    | RefreshApex(handle: Option<CartWire>)

  /** The items of a snapshot, or none when it has no `items` (`data.items || []`). */
  function ItemsOrEmpty(c: CartSnapshot): (items: seq<LineItem>)
    ensures c.items.Some? ==> items == c.items.value
    ensures c.items.None? ==> items == []
  {
    c.items.GetOr([])
  }

  /** The channel handler's filter: only messages about this panel's account are acted on. */
  predicate AboutAccount(message: Notification, recordId: string)
  {
    message.accountId == recordId
  }

  /**
   * The guard of `handleSubmitOrder`: there is a cart and its `opportunityId`
   * is truthy, so neither missing nor the empty string.
   */
  predicate CanSubmit(cart: Option<CartSnapshot>)
  {
    cart.Some? && cart.value.opportunityId.Some? && cart.value.opportunityId.value != ""
  }

  /**
   * The message of an error toast, `error.body?.message || 'Unknown error'`:
   * the server's message when it is a non-empty string, and 'Unknown error'
   * when the body or its message is missing or the message is empty.
   */
  function ErrorText(body: Option<ErrorBody>): (text: string)
    ensures text != ""
    ensures body.Some? && body.value.message.Some? && body.value.message.value != "" ==> text == body.value.message.value
    ensures body.None? || body.value.message.None? || body.value.message.value == "" ==> text == "Unknown error"
  {
    match body
    case Some(ErrorBody(Some(m))) => if m != "" then m else "Unknown error"
    case _ => "Unknown error"
  }

  /** How many `refreshApex` calls a call log holds. */
  function RefreshCount(calls: seq<RemoteCall>): (n: nat)
    ensures n <= |calls|
    ensures n == 0 <==> forall i :: 0 <= i < |calls| ==> !calls[i].RefreshApex?
  {
    if calls == [] then 0
    else RefreshCount(calls[..|calls| - 1]) + (if calls[|calls| - 1].RefreshApex? then 1 else 0)
  }

  /**
   * The cart panel's state. `items` is `None` where the source leaves it
   * `undefined`. Toasts, published messages and the remote calls made are
   * append-only logs.
   */
  class ShoppingCart {
    const recordId: string
    var cart: Option<CartSnapshot>
    var items: Option<seq<LineItem>>
    var cartResult: Option<CartWire>
    /** Whether `subscription` holds a handle. */
    var subscribed: bool
    /** How many times `subscribe` has been called. */
    var subscribeCalls: nat
    /** Timers set by `refreshCart` that have not fired yet. */
    var pendingRetries: nat
    var calls: seq<RemoteCall>
    var published: seq<Notification>
    var toasts: seq<Toast>

    /** The panel subscribes at most once, and only when it holds a subscription. */
    ghost predicate Valid()
      reads this
    {
      subscribeCalls == if subscribed then 1 else 0
    }

    constructor (recordId: string)
      ensures Valid()
      ensures this.recordId == recordId && cart.None? && items == Some([]) && cartResult.None?
      ensures !subscribed && pendingRetries == 0 && calls == [] && published == [] && toasts == []
    {
      this.recordId := recordId;
      cart, items, cartResult := None, Some([]), None;
      subscribed, subscribeCalls := false, 0;
      pendingRetries := 0;
      calls, published, toasts := [], [], [];
    }

    /**
     * The cart wire: the result is always kept as the refresh handle; the
     * cache is replaced only when the result carries data.
     */
    method WiredCart(result: CartWire)
      requires Valid()
      modifies this`cartResult, this`cart, this`items
      ensures Valid()
      ensures cartResult == Some(result)
      ensures result.data.Some? ==> cart == result.data && items == Some(ItemsOrEmpty(result.data.value))
      ensures result.data.None? ==> cart == old(cart) && items == old(items)
    {
      cartResult := Some(result);
      if result.data.Some? {
        cart := result.data;
        items := Some(ItemsOrEmpty(result.data.value));
      }
    }

    method ConnectedCallback()
      requires Valid()
      modifies this`subscribed, this`subscribeCalls
      ensures Valid() && subscribed && subscribeCalls == 1
      ensures old(subscribed) ==> subscribeCalls == old(subscribeCalls)
    {
      SubscribeToMessageChannel();
    }

    /** Subscribes to the cart message channel unless a subscription already exists. */
    method SubscribeToMessageChannel()
      requires Valid()
      modifies this`subscribed, this`subscribeCalls
      ensures Valid() && subscribed && subscribeCalls == 1
      ensures old(subscribed) ==> subscribeCalls == old(subscribeCalls)
    {
      if subscribed {
        return;
      }
      subscribed := true;
      subscribeCalls := subscribeCalls + 1;
    }

    /** The handler subscribed to the channel: it refreshes only for this panel's account. */
    method OnMessage(message: Notification)
      requires Valid()
      modifies this`pendingRetries, this`calls
      ensures Valid()
      ensures !AboutAccount(message, recordId) ==> pendingRetries == old(pendingRetries) && calls == old(calls)
      ensures AboutAccount(message, recordId) && cartResult.None? ==>
        pendingRetries == old(pendingRetries) + 1 && calls == old(calls)
      ensures AboutAccount(message, recordId) && cartResult.Some? ==>
        pendingRetries == old(pendingRetries) && calls == old(calls) + [RefreshApex(cartResult)]
    {
      if AboutAccount(message, recordId) {
        RefreshCart();
      }
    }

    /**
     * Without a refresh handle it sets one retry timer and calls nothing; with
     * one it calls `refreshApex` once and sets no timer. Whatever that call
     * settles to, the cache and the toasts stay as they are: its failure is
     * only logged, and its success reaches the panel as a new `WiredCart`.
     */
    method RefreshCart()
      requires Valid()
      modifies this`pendingRetries, this`calls
      ensures Valid()
      ensures cartResult.None? ==> pendingRetries == old(pendingRetries) + 1 && calls == old(calls)
      ensures cartResult.Some? ==> pendingRetries == old(pendingRetries) && calls == old(calls) + [RefreshApex(cartResult)]
    {
      if cartResult.None? {
        pendingRetries := pendingRetries + 1;
        return;
      }
      calls := calls + [RefreshApex(cartResult)];
    }

    /** One pending retry timer fires, if any is set, and runs `refreshCart` again. */
    method Tick()
      requires Valid()
      modifies this`pendingRetries, this`calls
      ensures Valid()
      ensures old(pendingRetries) == 0 ==> pendingRetries == 0 && calls == old(calls)
      ensures old(pendingRetries) > 0 && cartResult.None? ==>
        pendingRetries == old(pendingRetries) && calls == old(calls)
      ensures old(pendingRetries) > 0 && cartResult.Some? ==>
        pendingRetries == old(pendingRetries) - 1 && calls == old(calls) + [RefreshApex(cartResult)]
    {
      if pendingRetries > 0 {
        pendingRetries := pendingRetries - 1;
        RefreshCart();
      }
    }

    /**
     * Removes a line item. On success the returned snapshot replaces the cache
     * (no snapshot: no cart and no items), a success toast follows and
     * `refreshApex` is called on the handle as it is; if that refresh rejects,
     * an error toast follows but the replaced cache stays. On failure the cache
     * is kept and an error toast carries the message.
     */
    method HandleRemove(lineItemId: string, removal: Outcome<Option<CartSnapshot>>, refresh: Outcome<()>)
      requires Valid()
      modifies this`cart, this`items, this`calls, this`toasts
      ensures Valid()
      ensures removal.Resolved? ==>
        && cart == removal.value
        && items == (if removal.value.Some? then removal.value.value.items else Some([]))
        && calls == old(calls) + [RemoveLineItem(lineItemId, recordId), RefreshApex(cartResult)]
        && toasts == old(toasts) + [Toast("Removed", Some("Item removed from cart"), Success)]
                                 + (if refresh.Rejected? then [Toast("Error", Some(ErrorText(refresh.body)), Error)] else [])
      ensures removal.Rejected? ==>
        && cart == old(cart) && items == old(items)
        && calls == old(calls) + [RemoveLineItem(lineItemId, recordId)]
        && toasts == old(toasts) + [Toast("Error", Some(ErrorText(removal.body)), Error)]
    {
      calls := calls + [RemoveLineItem(lineItemId, recordId)];
      match removal
      case Resolved(result) =>
        cart := result;
        items := if result.Some? then result.value.items else Some([]);
        toasts := toasts + [Toast("Removed", Some("Item removed from cart"), Success)];
        calls := calls + [RefreshApex(cartResult)];
        if refresh.Rejected? {
          toasts := toasts + [Toast("Error", Some(ErrorText(refresh.body)), Error)];
        }
      case Rejected(body) =>
        toasts := toasts + [Toast("Error", Some(ErrorText(body)), Error)];
    }

    /**
     * Submits the cached cart. Without a cart or an opportunity it only shows
     * an error. Otherwise it calls `submitOrder`; on success it toasts,
     * publishes `{accountId, status: 'submitted'}` and clears the cache; on
     * failure the cache is kept and an error toast carries the message.
     */
    method HandleSubmitOrder(outcome: Outcome<()>)
      requires Valid()
      modifies this`cart, this`items, this`calls, this`published, this`toasts
      ensures Valid()
      ensures !CanSubmit(old(cart)) ==>
        && toasts == old(toasts) + [Toast("Error", Some("No active cart found."), Error)]
        && calls == old(calls) && published == old(published)
        && cart == old(cart) && items == old(items)
      ensures CanSubmit(old(cart)) ==>
        calls == old(calls) + [SubmitOrder(old(cart).value.opportunityId.value, recordId)]
      ensures CanSubmit(old(cart)) && outcome.Resolved? ==>
        && toasts == old(toasts) + [Toast("Order Submitted", Some("Cart submitted successfully"), Success)]
        && published == old(published) + [Notification(recordId, Some(Submitted))]
        && cart.None? && items == Some([])
      ensures CanSubmit(old(cart)) && outcome.Rejected? ==>
        && toasts == old(toasts) + [Toast("Error", Some(ErrorText(outcome.body)), Error)]
        && published == old(published)
        && cart == old(cart) && items == old(items)
    {
      if !CanSubmit(cart) {
        toasts := toasts + [Toast("Error", Some("No active cart found."), Error)];
        return;
      }
      calls := calls + [SubmitOrder(cart.value.opportunityId.value, recordId)];
      match outcome
      case Resolved(_) =>
        toasts := toasts + [Toast("Order Submitted", Some("Cart submitted successfully"), Success)];
        published := published + [Notification(recordId, Some(Submitted))];
        cart := None;
        items := Some([]);
      case Rejected(body) =>
        toasts := toasts + [Toast("Error", Some(ErrorText(body)), Error)];
    }
  }
}
