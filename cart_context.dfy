/** The cart store: a read-through cache of the server's cart. Its state
    changes only through a reducer over four action kinds. Every mutation is
    sent to the server first; on success the whole cart is fetched again
    (clearing resets locally instead), on failure local state is left alone.
    The client never computes an amount or a count itself. */
module CartContext {
  import opened Common
  import opened Api
  import AuthContext

  datatype CartState = CartState(
    items: seq<CartLine>,
    total_amount: real,
    total_items: int,
    loading: bool,
    error: Option<string>)

  /** The empty cart: both the initial state and what `CLEAR_CART` yields. */
  const EmptyCart := CartState([], 0.0, 0, false, None)

  datatype CartAction =
    | SetLoading(flag: bool)
    | SetCart(snapshot: CartSnapshot)
    | SetError(message: string)
    | ClearCart
    | Unrecognised(tag: string)

  /** A field of the snapshot overrides the current value when present. */
  function Overlay<T>(field: Option<T>, current: T): T {
    if field.Some? then field.value else current
  }

  /** Items and totals agree. */
  predicate SameContents(a: CartState, b: CartState) {
    a.items == b.items && a.total_amount == b.total_amount && a.total_items == b.total_items
  }

  function Reduce(s: CartState, a: CartAction): (r: CartState)
    ensures a.SetLoading? ==> r.loading == a.flag && SameContents(r, s) && r.error == s.error
    ensures a.SetCart? ==>
              !r.loading && r.error == s.error
              && (a.snapshot.items.Some? ==> r.items == a.snapshot.items.value)
              && (a.snapshot.items.None? ==> r.items == s.items)
              && (a.snapshot.total_amount.Some? ==> r.total_amount == a.snapshot.total_amount.value)
              && (a.snapshot.total_amount.None? ==> r.total_amount == s.total_amount)
              && (a.snapshot.total_items.Some? ==> r.total_items == a.snapshot.total_items.value)
              && (a.snapshot.total_items.None? ==> r.total_items == s.total_items)
    ensures a.SetError? ==> !r.loading && r.error == Some(a.message) && SameContents(r, s)
    ensures a.ClearCart? ==> r == EmptyCart
    ensures a.Unrecognised? ==> r == s
  {
    match a
    case SetLoading(flag) => s.(loading := flag)
    case SetCart(p) =>
      s.(items := Overlay(p.items, s.items),
         total_amount := Overlay(p.total_amount, s.total_amount),
         total_items := Overlay(p.total_items, s.total_items),
         loading := false)
    case SetError(m) => s.(error := Some(m), loading := false)
    case ClearCart => EmptyCart
    case Unrecognised(_) => s
  }

  /** Clearing forgets everything, so clearing twice is clearing once. */
  lemma ClearCartIdempotent(s: CartState)
    ensures Reduce(Reduce(s, ClearCart), ClearCart) == Reduce(s, ClearCart) == EmptyCart
  {
  }

  function ReduceAll(s: CartState, acts: seq<CartAction>): CartState
    decreases |acts|
  {
    if acts == [] then s else Reduce(ReduceAll(s, acts[..|acts| - 1]), acts[|acts| - 1])
  }

  lemma ReduceAllSnoc(s: CartState, acts: seq<CartAction>, a: CartAction)
    ensures ReduceAll(s, acts + [a]) == Reduce(ReduceAll(s, acts), a)
  {
    assert (acts + [a])[..|acts|] == acts;
  }

  lemma ReduceAllPair(s: CartState, a: CartAction, b: CartAction)
    ensures ReduceAll(s, [a]) == Reduce(s, a)
    ensures ReduceAll(s, [a, b]) == Reduce(Reduce(s, a), b)
  {
    ReduceAllSnoc(s, [], a);
    ReduceAllSnoc(s, [a], b);
    assert [] + [a] == [a];
    assert [a] + [b] == [a, b];
  }

  /** The items and totals held after any sequence of dispatches are either
      the empty cart's or were delivered verbatim by some `SET_CART`: the
      client never computes them. */
  lemma {:induction false} ContentsComeFromServer(acts: seq<CartAction>)
    ensures var s := ReduceAll(EmptyCart, acts);
      && (s.items == [] ||
          exists i :: 0 <= i < |acts| && acts[i].SetCart? && acts[i].snapshot.items == Some(s.items))
      && (s.total_amount == 0.0 ||
          exists i :: 0 <= i < |acts| && acts[i].SetCart? && acts[i].snapshot.total_amount == Some(s.total_amount))
      && (s.total_items == 0 ||
          exists i :: 0 <= i < |acts| && acts[i].SetCart? && acts[i].snapshot.total_items == Some(s.total_items))
    decreases |acts|
  {
    if acts != [] {
      var n := |acts| - 1;
      var prefix := acts[..n];
      ContentsComeFromServer(prefix);
      var p := ReduceAll(EmptyCart, prefix);
      var s := ReduceAll(EmptyCart, acts);
      assert s == Reduce(p, acts[n]);
      if !acts[n].ClearCart? {
        if s.items != [] && !(acts[n].SetCart? && acts[n].snapshot.items.Some?) {
          assert s.items == p.items;
          var i :| 0 <= i < |prefix| && prefix[i].SetCart? && prefix[i].snapshot.items == Some(p.items);
          assert acts[i] == prefix[i];
        }
        if s.total_amount != 0.0 && !(acts[n].SetCart? && acts[n].snapshot.total_amount.Some?) {
          assert s.total_amount == p.total_amount;
          var i :| 0 <= i < |prefix| && prefix[i].SetCart? && prefix[i].snapshot.total_amount == Some(p.total_amount);
          assert acts[i] == prefix[i];
        }
        if s.total_items != 0 && !(acts[n].SetCart? && acts[n].snapshot.total_items.Some?) {
          assert s.total_items == p.total_items;
          var i :| 0 <= i < |prefix| && prefix[i].SetCart? && prefix[i].snapshot.total_items == Some(p.total_items);
          assert acts[i] == prefix[i];
        }
      }
    }
  }

  // ---------------------------------------------------------------------
  // The server's invariant: totals are sums over the lines

  function SumQuantities(items: seq<CartLine>): int
    decreases |items|
  {
    if items == [] then 0 else SumQuantities(items[..|items| - 1]) + items[|items| - 1].quantity
  }

  function SumLineTotals(items: seq<CartLine>): real
    decreases |items|
  {
    if items == [] then 0.0 else SumLineTotals(items[..|items| - 1]) + items[|items| - 1].total_price
  }

  /** `total_items` is the sum of line quantities and `total_amount` the
      sum of line totals. */
  predicate Coherent(s: CartState) {
    s.total_items == SumQuantities(s.items) && s.total_amount == SumLineTotals(s.items)
  }

  /** A snapshot carrying all three fields, with totals that agree with its
      lines, as the server computes them. */
  predicate CompleteSnapshot(p: CartSnapshot) {
    p.items.Some? && p.total_amount.Some? && p.total_items.Some?
    && p.total_items.value == SumQuantities(p.items.value)
    && p.total_amount.value == SumLineTotals(p.items.value)
  }

  /** As long as the server only sends complete, coherent snapshots, every
      state the store reaches is coherent: the client never breaks the
      server's totals. */
  lemma {:induction false} CoherentWhileServerIs(acts: seq<CartAction>)
    requires forall i :: 0 <= i < |acts| && acts[i].SetCart? ==> CompleteSnapshot(acts[i].snapshot)
    ensures Coherent(ReduceAll(EmptyCart, acts))
    decreases |acts|
  {
    if acts != [] {
      var prefix := acts[..|acts| - 1];
      assert forall i :: 0 <= i < |prefix| ==> prefix[i] == acts[i];
      CoherentWhileServerIs(prefix);
    }
  }

  // ---------------------------------------------------------------------
  // What one fetch dispatches

  const FetchFallback := "Failed to fetch cart"

  /** The dispatches of `fetchCart`: signed out, the cart is reset without
      a call; signed in, loading is raised and then the snapshot or the
      error message is installed. */
  function FetchActions(authenticated: bool, response: Response<CartSnapshot>): seq<CartAction> {
    if !authenticated then [ClearCart]
    else if response.Ok? then [SetLoading(true), SetCart(response.data)]
    else [SetLoading(true), SetError(FailureMessage(response, FetchFallback))]
  }

  /** The requests of `fetchCart`: none when signed out. */
  function FetchRequests(authenticated: bool, st: map<string, string>): seq<Request> {
    if authenticated then [Outgoing(CartGet, st)] else []
  }

  /** What a fetch leaves behind: the empty cart when signed out; the
      snapshot's fields over the old ones on success; on failure the old
      items and totals with the server's message (or the fallback). In
      every case loading ends lowered. */
  lemma FetchOutcome(s: CartState, authenticated: bool, response: Response<CartSnapshot>)
    ensures var r := ReduceAll(s, FetchActions(authenticated, response));
      && !r.loading
      && (!authenticated ==> r == EmptyCart)
      && (authenticated && response.Ok? ==> r == Reduce(s, SetCart(response.data)))
      && (authenticated && response.Err? ==>
            SameContents(r, s) && r.error == Some(FailureMessage(response, FetchFallback)))
  {
    var acts := FetchActions(authenticated, response);
    ReduceAllPair(s, acts[0], if authenticated then acts[1] else acts[0]);
  }

  /** `{ success: true }` or the server's message, else the fallback. */
  function MutationResult(response: Response<()>, fallback: string): OpResult {
    if response.Ok? then Succeeded else Failed(FailureMessage(response, fallback))
  }

  const AddFallback := "Failed to add item to cart"
  const UpdateFallback := "Failed to update cart item"
  const RemoveFallback := "Failed to remove item from cart"
  const ClearFallback := "Failed to clear cart"

  // ---------------------------------------------------------------------
  // The provider

  class CartStore {
    /** The session store whose `isAuthenticated` gates every fetch. */
    const auth: AuthContext.AuthProvider
    const api: ApiClient
    var state: CartState
    /** Every action dispatched so far, oldest first. */
    ghost var dispatched: seq<CartAction>

    /** The state is the fold of the log, and both stores talk through the
        one shared client, so they see the same storage and location. */
    ghost predicate Valid()
      reads this
    {
      state == ReduceAll(EmptyCart, dispatched) && auth.api == api
    }

    constructor (auth: AuthContext.AuthProvider, api: ApiClient)
      requires auth.api == api
      ensures this.auth == auth && this.api == api && Valid()
      ensures state == EmptyCart && dispatched == []
    {
      this.auth := auth;
      this.api := api;
      state := EmptyCart;
      dispatched := [];
    }

    method Dispatch(a: CartAction)
      requires Valid()
      modifies this
      ensures Valid()
      ensures state == Reduce(old(state), a) && dispatched == old(dispatched) + [a]
    {
      ReduceAllSnoc(EmptyCart, dispatched, a);
      state := Reduce(state, a);
      dispatched := dispatched + [a];
    }

    method FetchCart(response: Response<CartSnapshot>)
      requires Valid()
      modifies this, api, api.storage
      ensures Valid()
      ensures dispatched == old(dispatched) + FetchActions(auth.state.isAuthenticated, response)
      ensures state == ReduceAll(old(state), FetchActions(auth.state.isAuthenticated, response))
      ensures api.sent == old(api.sent) + FetchRequests(auth.state.isAuthenticated, old(api.storage.entries))
      ensures auth.state.isAuthenticated ==>
                api.storage.entries == AfterCall(old(api.storage.entries), response)
                && api.location == LocationAfter(old(api.location), response)
      ensures !auth.state.isAuthenticated ==>
                api.storage.entries == old(api.storage.entries) && api.location == old(api.location)
    {
      if !auth.state.isAuthenticated {
        Dispatch(CartAction.ClearCart);
        ReduceAllPair(old(state), CartAction.ClearCart, CartAction.ClearCart);
        return;
      }
      Dispatch(SetLoading(true));
      var r := api.Send(CartGet, response);
      if r.Ok? {
        Dispatch(SetCart(r.data));
      } else {
        Dispatch(SetError(FailureMessage(r, FetchFallback)));
      }
      ghost var acts := FetchActions(true, response);
      ReduceAllPair(old(state), acts[0], acts[1]);
    }

    /** The shared shape of add, update and remove: the remote call, then
        on success one refetch (whose own failure is absorbed by
        `fetchCart`). */
    method Mutate(e: Endpoint, fallback: string, response: Response<()>, refetch: Response<CartSnapshot>)
      returns (result: OpResult)
      requires Valid()
      modifies this, api, api.storage
      ensures Valid()
      ensures result == MutationResult(response, fallback)
      ensures response.Err? ==>
                state == old(state) && dispatched == old(dispatched)
                && api.sent == old(api.sent) + [Outgoing(e, old(api.storage.entries))]
                && api.storage.entries == AfterCall(old(api.storage.entries), response)
                && api.location == LocationAfter(old(api.location), response)
      ensures response.Ok? ==>
                dispatched == old(dispatched) + FetchActions(auth.state.isAuthenticated, refetch)
                && state == ReduceAll(old(state), FetchActions(auth.state.isAuthenticated, refetch))
                && api.sent == old(api.sent) + [Outgoing(e, old(api.storage.entries))]
                                + FetchRequests(auth.state.isAuthenticated, old(api.storage.entries))
                && (auth.state.isAuthenticated ==>
                      api.storage.entries == AfterCall(old(api.storage.entries), refetch)
                      && api.location == LocationAfter(old(api.location), refetch))
                && (!auth.state.isAuthenticated ==>
                      api.storage.entries == old(api.storage.entries) && api.location == old(api.location))
    {
      var r := api.Send(e, response);
      if r.Ok? {
        FetchCart(refetch);
        result := Succeeded;
      } else {
        result := Failed(FailureMessage(r, fallback));
      }
    }

    /** `addToCart(item_id, quantity = 1)` */
    method AddToCart(item_id: nat, quantity: int := 1, response: Response<()>, refetch: Response<CartSnapshot>)
      returns (result: OpResult)
      requires Valid()
      modifies this, api, api.storage
      ensures Valid()
      ensures result == MutationResult(response, AddFallback)
      ensures response.Err? ==>
                state == old(state) && dispatched == old(dispatched)
                && api.sent == old(api.sent) + [Outgoing(CartAdd(item_id, quantity), old(api.storage.entries))]
                && api.storage.entries == AfterCall(old(api.storage.entries), response)
                && api.location == LocationAfter(old(api.location), response)
      ensures response.Ok? ==>
                dispatched == old(dispatched) + FetchActions(auth.state.isAuthenticated, refetch)
                && state == ReduceAll(old(state), FetchActions(auth.state.isAuthenticated, refetch))
                && api.sent == old(api.sent) + [Outgoing(CartAdd(item_id, quantity), old(api.storage.entries))]
                                + FetchRequests(auth.state.isAuthenticated, old(api.storage.entries))
                && (auth.state.isAuthenticated ==>
                      api.storage.entries == AfterCall(old(api.storage.entries), refetch)
                      && api.location == LocationAfter(old(api.location), refetch))
                && (!auth.state.isAuthenticated ==>
                      api.storage.entries == old(api.storage.entries) && api.location == old(api.location))
    {
      result := Mutate(CartAdd(item_id, quantity), AddFallback, response, refetch);
    }

    method UpdateCartItem(cart_id: nat, quantity: int, response: Response<()>, refetch: Response<CartSnapshot>)
      returns (result: OpResult)
      requires Valid()
      modifies this, api, api.storage
      ensures Valid()
      ensures result == MutationResult(response, UpdateFallback)
      ensures response.Err? ==>
                state == old(state) && dispatched == old(dispatched)
                && api.sent == old(api.sent) + [Outgoing(CartUpdate(cart_id, quantity), old(api.storage.entries))]
                && api.storage.entries == AfterCall(old(api.storage.entries), response)
                && api.location == LocationAfter(old(api.location), response)
      ensures response.Ok? ==>
                dispatched == old(dispatched) + FetchActions(auth.state.isAuthenticated, refetch)
                && state == ReduceAll(old(state), FetchActions(auth.state.isAuthenticated, refetch))
                && api.sent == old(api.sent) + [Outgoing(CartUpdate(cart_id, quantity), old(api.storage.entries))]
                                + FetchRequests(auth.state.isAuthenticated, old(api.storage.entries))
                && (auth.state.isAuthenticated ==>
                      api.storage.entries == AfterCall(old(api.storage.entries), refetch)
                      && api.location == LocationAfter(old(api.location), refetch))
                && (!auth.state.isAuthenticated ==>
                      api.storage.entries == old(api.storage.entries) && api.location == old(api.location))
    {
      result := Mutate(CartUpdate(cart_id, quantity), UpdateFallback, response, refetch);
    }

    method RemoveFromCart(cart_id: nat, response: Response<()>, refetch: Response<CartSnapshot>)
      returns (result: OpResult)
      requires Valid()
      modifies this, api, api.storage
      ensures Valid()
      ensures result == MutationResult(response, RemoveFallback)
      ensures response.Err? ==>
                state == old(state) && dispatched == old(dispatched)
                && api.sent == old(api.sent) + [Outgoing(CartRemove(cart_id), old(api.storage.entries))]
                && api.storage.entries == AfterCall(old(api.storage.entries), response)
                && api.location == LocationAfter(old(api.location), response)
      ensures response.Ok? ==>
                dispatched == old(dispatched) + FetchActions(auth.state.isAuthenticated, refetch)
                && state == ReduceAll(old(state), FetchActions(auth.state.isAuthenticated, refetch))
                && api.sent == old(api.sent) + [Outgoing(CartRemove(cart_id), old(api.storage.entries))]
                                + FetchRequests(auth.state.isAuthenticated, old(api.storage.entries))
                && (auth.state.isAuthenticated ==>
                      api.storage.entries == AfterCall(old(api.storage.entries), refetch)
                      && api.location == LocationAfter(old(api.location), refetch))
                && (!auth.state.isAuthenticated ==>
                      api.storage.entries == old(api.storage.entries) && api.location == old(api.location))
    {
      result := Mutate(CartRemove(cart_id), RemoveFallback, response, refetch);
    }

    /** Clears remotely, then resets locally with no refetch. */
    method ClearCart(response: Response<()>) returns (result: OpResult)
      requires Valid()
      modifies this, api, api.storage
      ensures Valid()
      ensures result == MutationResult(response, ClearFallback)
      ensures api.sent == old(api.sent) + [Outgoing(CartClear, old(api.storage.entries))]
      ensures api.storage.entries == AfterCall(old(api.storage.entries), response)
      ensures api.location == LocationAfter(old(api.location), response)
      ensures response.Ok? ==> state == EmptyCart && dispatched == old(dispatched) + [CartAction.ClearCart]
      ensures response.Err? ==> state == old(state) && dispatched == old(dispatched)
    {
      var r := api.Send(CartClear, response);
      if r.Ok? {
        Dispatch(CartAction.ClearCart);
        result := Succeeded;
      } else {
        result := Failed(FailureMessage(r, ClearFallback));
      }
    }
  }
}
