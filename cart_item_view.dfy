/** One line of the cart page: the quantity stepper with its bounds guard,
    the busy flag around an update, and the confirmed removal. Failures are
    reported with a blocking alert. */
module CartItemView {
  import opened Common
  import opened Api
  import CartContext

  /** The guard of `handleQuantityChange`: only quantities from 1 up to the
      line's stock are sent. */
  predicate QuantityAllowed(newQuantity: int, stock: int): (ok: bool)
    ensures ok <==> 1 <= newQuantity <= stock
  {
    !(newQuantity < 1 || newQuantity > stock)
  }

  function DecrementTarget(line: CartLine): int { line.quantity - 1 }

  function IncrementTarget(line: CartLine): int { line.quantity + 1 }

  /** "-" is enabled exactly when no update is in flight and one less is
      still a positive quantity. */
  predicate DecrementDisabled(line: CartLine, isUpdating: bool): (disabled: bool)
    ensures !disabled <==> !isUpdating && DecrementTarget(line) >= 1
  {
    isUpdating || line.quantity <= 1
  }

  /** "+" is enabled exactly when no update is in flight and one more
      stays within the stock. */
  predicate IncrementDisabled(line: CartLine, isUpdating: bool): (disabled: bool)
    ensures !disabled <==> !isUpdating && IncrementTarget(line) <= line.stock
  {
    isUpdating || line.quantity >= line.stock
  }

  /** An enabled "+" always produces an allowed quantity, as long as the
      line's quantity is not negative. */
  lemma EnabledIncrementIsAllowed(line: CartLine)
    requires !IncrementDisabled(line, false) && line.quantity >= 0
    ensures QuantityAllowed(IncrementTarget(line), line.stock)
  {
  }

  /** An enabled "-" produces an allowed quantity exactly when the line does
      not exceed its stock by more than one; past that (stock lowered on the
      server) the button stays enabled but the guard drops the click. */
  lemma EnabledDecrementAllowedIff(line: CartLine)
    requires !DecrementDisabled(line, false)
    ensures QuantityAllowed(DecrementTarget(line), line.stock) <==> line.quantity <= line.stock + 1
  {
  }

  /** Neither button is enabled while an update is in flight. */
  lemma BusyDisablesBoth(line: CartLine)
    ensures DecrementDisabled(line, true) && IncrementDisabled(line, true)
  {
  }

  /** `alert(result.error)` when the operation failed, nothing otherwise. */
  function AlertsFor(result: OpResult): seq<string> {
    if result.Failed? then [result.error] else []
  }

  class CartLineView {
    const line: CartLine
    const cart: CartContext.CartStore
    var isUpdating: bool
    /** Messages shown with `alert`, oldest first. */
    var alerts: seq<string>

    constructor (line: CartLine, cart: CartContext.CartStore)
      ensures this.line == line && this.cart == cart
      ensures !isUpdating && alerts == []
    {
      this.line := line;
      this.cart := cart;
      isUpdating := false;
      alerts := [];
    }

    method HandleQuantityChange(newQuantity: int, response: Response<()>, refetch: Response<CartSnapshot>)
      requires cart.Valid()
      modifies this, cart, cart.api, cart.api.storage
      ensures cart.Valid()
      ensures !QuantityAllowed(newQuantity, line.stock) ==>
                unchanged(this) && unchanged(cart) && unchanged(cart.api) && unchanged(cart.api.storage)
      ensures QuantityAllowed(newQuantity, line.stock) ==>
                !isUpdating
                && alerts == old(alerts) + AlertsFor(CartContext.MutationResult(response, CartContext.UpdateFallback))
                && (response.Err? ==>
                      cart.state == old(cart.state) && cart.dispatched == old(cart.dispatched)
                      && cart.api.sent == old(cart.api.sent) + [Outgoing(CartUpdate(line.cart_id, newQuantity), old(cart.api.storage.entries))]
                      && cart.api.storage.entries == AfterCall(old(cart.api.storage.entries), response)
                      && cart.api.location == LocationAfter(old(cart.api.location), response))
                && (response.Ok? ==>
                      cart.dispatched == old(cart.dispatched)
                                           + CartContext.FetchActions(cart.auth.state.isAuthenticated, refetch)
                      && cart.state == CartContext.ReduceAll(old(cart.state),
                                         CartContext.FetchActions(cart.auth.state.isAuthenticated, refetch))
                      && cart.api.sent == old(cart.api.sent) + [Outgoing(CartUpdate(line.cart_id, newQuantity), old(cart.api.storage.entries))]
                                          + CartContext.FetchRequests(cart.auth.state.isAuthenticated,
                                                                      old(cart.api.storage.entries))
                      && (cart.auth.state.isAuthenticated ==>
                            cart.api.storage.entries == AfterCall(old(cart.api.storage.entries), refetch)
                            && cart.api.location == LocationAfter(old(cart.api.location), refetch))
                      && (!cart.auth.state.isAuthenticated ==>
                            cart.api.storage.entries == old(cart.api.storage.entries)
                            && cart.api.location == old(cart.api.location)))
    {
      if newQuantity < 1 || newQuantity > line.stock {
        return;
      }
      isUpdating := true;
      var result := cart.UpdateCartItem(line.cart_id, newQuantity, response, refetch);
      if !result.Succeeded? {
        alerts := alerts + [result.error];
      }
      isUpdating := false;
    }

    /** Removal happens only after the user confirms. */
    method HandleRemove(confirmed: bool, response: Response<()>, refetch: Response<CartSnapshot>)
      requires cart.Valid()
      modifies this, cart, cart.api, cart.api.storage
      ensures cart.Valid()
      ensures isUpdating == old(isUpdating)
      ensures !confirmed ==>
                unchanged(this) && unchanged(cart) && unchanged(cart.api) && unchanged(cart.api.storage)
      ensures confirmed ==>
                alerts == old(alerts) + AlertsFor(CartContext.MutationResult(response, CartContext.RemoveFallback))
                && (response.Err? ==>
                      cart.state == old(cart.state) && cart.dispatched == old(cart.dispatched)
                      && cart.api.sent == old(cart.api.sent) + [Outgoing(CartRemove(line.cart_id), old(cart.api.storage.entries))]
                      && cart.api.storage.entries == AfterCall(old(cart.api.storage.entries), response)
                      && cart.api.location == LocationAfter(old(cart.api.location), response))
                && (response.Ok? ==>
                      cart.dispatched == old(cart.dispatched)
                                           + CartContext.FetchActions(cart.auth.state.isAuthenticated, refetch)
                      && cart.state == CartContext.ReduceAll(old(cart.state),
                                         CartContext.FetchActions(cart.auth.state.isAuthenticated, refetch))
                      && cart.api.sent == old(cart.api.sent) + [Outgoing(CartRemove(line.cart_id), old(cart.api.storage.entries))]
                                          + CartContext.FetchRequests(cart.auth.state.isAuthenticated,
                                                                      old(cart.api.storage.entries))
                      && (cart.auth.state.isAuthenticated ==>
                            cart.api.storage.entries == AfterCall(old(cart.api.storage.entries), refetch)
                            && cart.api.location == LocationAfter(old(cart.api.location), refetch))
                      && (!cart.auth.state.isAuthenticated ==>
                            cart.api.storage.entries == old(cart.api.storage.entries)
                            && cart.api.location == old(cart.api.location)))
    {
      if confirmed {
        var result := cart.RemoveFromCart(line.cart_id, response, refetch);
        if !result.Succeeded? {
          alerts := alerts + [result.error];
        }
      }
    }
  }
}
