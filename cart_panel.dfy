/** The cart panel (src/components/Cart.tsx): the quantity buttons, which turn a
    quantity below 1 into a removal, and the checkout button's loading/error state. */
module CartPanel {
  import opened Common
  import opened ProductIds
  import opened CartItems
  import opened CartStore

  /** The effect of handleQuantityChange on the store's items (Cart.tsx:72-78). */
  function Dispatched(items: seq<CartItem>, id: string, n: int): seq<CartItem> {
    if n < 1 then Removed(items, id) else Updated(items, id, n)
  }

  /** Through the panel every line keeps quantity at least 1, and ids stay unique. */
  lemma DispatchedKeeps(items: seq<CartItem>, id: string, n: int)
    ensures AllPositive(items) ==> AllPositive(Dispatched(items, id, n))
    ensures UniqueIds(items) ==> UniqueIds(Dispatched(items, id, n))
  {
    RemovedKeeps(items, id);
    UpdatedKeeps(items, id, n);
  }

  /** The minus button on a line at quantity 1 removes that line, keeping the others
      in order; above 1 it lowers only that line by one. */
  lemma DecreaseSpec(items: seq<CartItem>, k: nat)
    requires UniqueIds(items) && k < |items|
    ensures items[k].quantity <= 1 ==>
      Dispatched(items, items[k].id, items[k].quantity - 1) == items[..k] + items[k + 1..]
    ensures items[k].quantity > 1 ==>
      Dispatched(items, items[k].id, items[k].quantity - 1) ==
        items[k := items[k].(quantity := items[k].quantity - 1)]
  {
    if items[k].quantity <= 1 {
      RemovedPresent(items, items[k].id, k);
    } else {
      var r := Dispatched(items, items[k].id, items[k].quantity - 1);
      assert forall j :: 0 <= j < |items| && j != k ==> items[j].id != items[k].id;
      assert r == items[k := items[k].(quantity := items[k].quantity - 1)];
    }
  }

  /** The plus button raises only that line by one, and the item total by one. */
  lemma IncreaseSpec(items: seq<CartItem>, k: nat)
    requires UniqueIds(items) && k < |items| && items[k].quantity >= 0
    ensures Dispatched(items, items[k].id, items[k].quantity + 1) ==
      items[k := items[k].(quantity := items[k].quantity + 1)]
    ensures SumQuantities(Dispatched(items, items[k].id, items[k].quantity + 1)) == SumQuantities(items) + 1
  {
    assert forall j :: 0 <= j < |items| && j != k ==> items[j].id != items[k].id;
    TotalsAfterUpdate(items, items[k].id, items[k].quantity + 1, k);
  }

  /** A quantity of 0 for a one-line cart: through the panel the cart is emptied,
      whereas updateItemQuantity alone keeps the line at quantity 0. */
  lemma ZeroQuantityExample()
    ensures Dispatched([CartItem("1", "Raptor Grip", 25000, 3, None, None, None)], "1", 0) == []
    ensures Updated([CartItem("1", "Raptor Grip", 25000, 3, None, None, None)], "1", 0) ==
      [CartItem("1", "Raptor Grip", 25000, 0, None, None, None)]
  {
    var items := [CartItem("1", "Raptor Grip", 25000, 3, None, None, None)];
    RemovedPresent(items, "1", 0);
  }

  /** The checkout request's outcome as the panel sees it (Cart.tsx:90-130). */
  datatype CheckoutReply =
    | NetworkError(message: string)
    | HttpError(status: nat, body: string)
    | Unparseable
    | Parsed(checkoutUrl: Option<string>)

  /** The message shown when checkout fails (Cart.tsx:109, 120, 129, 133). */
  function CheckoutError(reply: CheckoutReply): (m: string)
    ensures !reply.NetworkError? ==> m != ""
  {
    match reply
    case NetworkError(m) => m
    case HttpError(status, body) =>
      "Checkout failed: " + NatToString(status) + " " + (if body == "" then "Unknown error" else body)
    case Unparseable => "Could not parse checkout response"
    case Parsed(_) => "No checkout URL returned"
  }

  class Panel {
    var isLoading: bool
    var error: Option<string>

    constructor ()
      ensures !isLoading && error == None
    {
      isLoading := false;
      error := None;
    }

    /** handleQuantityChange (Cart.tsx:72-78): below 1 it calls removeItem, otherwise
        updateItemQuantity with exactly n. */
    method HandleQuantityChange(store: Store, item: CartItem, n: int) returns (request: Option<Request>)
      requires store.Valid()
      modifies store`items
      ensures store.Valid()
      ensures store.items == Dispatched(old(store.items), item.id, n)
      ensures n < 1 ==> request == MirrorOf(store.backendDisabled, item.id, p => RemoveItemRequest(p))
      ensures n >= 1 ==> request == MirrorOf(store.backendDisabled, item.id, p => UpdateItemRequest(p, n))
    {
      if n < 1 {
        request := store.RemoveItem(item.id);
      } else {
        request := store.UpdateItemQuantity(item.id, n);
      }
    }

    /** The minus button (Cart.tsx:214) on a line of the store. As the store keeps ids
        unique, at quantity 1 exactly that line goes, and above 1 only it is lowered. */
    method DecreasePressed(store: Store, item: CartItem) returns (request: Option<Request>)
      requires store.Valid()
      modifies store`items
      ensures store.Valid()
      ensures forall k :: 0 <= k < |old(store.items)| && old(store.items)[k] == item ==>
        store.items == if item.quantity <= 1 then old(store.items)[..k] + old(store.items)[k + 1..]
                       else old(store.items)[k := item.(quantity := item.quantity - 1)]
      ensures store.items == Dispatched(old(store.items), item.id, item.quantity - 1)
      ensures item.quantity <= 1 ==> request == MirrorOf(store.backendDisabled, item.id, p => RemoveItemRequest(p))
      ensures item.quantity > 1 ==>
        request == MirrorOf(store.backendDisabled, item.id, p => UpdateItemRequest(p, item.quantity - 1))
    {
      ghost var before := store.items;
      request := HandleQuantityChange(store, item, item.quantity - 1);
      forall k | 0 <= k < |before| && before[k] == item
        ensures store.items == if item.quantity <= 1 then before[..k] + before[k + 1..]
                               else before[k := item.(quantity := item.quantity - 1)]
      {
        DecreaseSpec(before, k);
      }
    }

    /** The plus button (Cart.tsx:222) on a line of the store: only that line is raised,
        and the item total grows by one. */
    method IncreasePressed(store: Store, item: CartItem) returns (request: Option<Request>)
      requires store.Valid()
      modifies store`items
      ensures store.Valid()
      ensures forall k :: 0 <= k < |old(store.items)| && old(store.items)[k] == item && item.quantity >= 0 ==>
        store.items == old(store.items)[k := item.(quantity := item.quantity + 1)] &&
        SumQuantities(store.items) == SumQuantities(old(store.items)) + 1
      ensures store.items == Dispatched(old(store.items), item.id, item.quantity + 1)
      ensures item.quantity >= 0 ==>
        request == MirrorOf(store.backendDisabled, item.id, p => UpdateItemRequest(p, item.quantity + 1))
    {
      ghost var before := store.items;
      request := HandleQuantityChange(store, item, item.quantity + 1);
      forall k | 0 <= k < |before| && before[k] == item && item.quantity >= 0
        ensures store.items == before[k := item.(quantity := item.quantity + 1)]
        ensures SumQuantities(store.items) == SumQuantities(before) + 1
      {
        IncreaseSpec(before, k);
      }
    }

    /** The start of handleCheckout (Cart.tsx:80-98): nothing happens for an empty cart;
        otherwise isLoading is raised, the error cleared and the checkout-session request
        sent. The request does not depend on the store's backend switch. */
    method BeginCheckout(items: seq<CartItem>) returns (sent: bool)
      modifies this
      ensures sent <==> items != []
      ensures items == [] ==> isLoading == old(isLoading) && error == old(error)
      ensures items != [] ==> isLoading && error == None
    {
      if |items| == 0 {
        return false;
      }
      isLoading := true;
      error := None;
      sent := true;
    }

    /** The checkout button (Cart.tsx:251-254): it is disabled while a checkout is
        loading, so a press then does nothing; otherwise it starts handleCheckout. */
    method CheckoutPressed(items: seq<CartItem>) returns (sent: bool)
      modifies this
      ensures sent <==> !old(isLoading) && items != []
      ensures !sent ==> isLoading == old(isLoading) && error == old(error)
      ensures sent ==> isLoading && error == None
    {
      if isLoading {
        return false;
      }
      sent := BeginCheckout(items);
    }

    /** The end of handleCheckout (Cart.tsx:100-136): only a parsed body with a truthy
        `checkout_url` redirects; every other outcome leaves an error message; isLoading
        is lowered on every path. */
    method FinishCheckout(reply: CheckoutReply) returns (redirect: Option<string>)
      modifies this
      ensures !isLoading
      ensures redirect.Some? <==> reply.Parsed? && Truthy(reply.checkoutUrl)
      ensures redirect.Some? ==> redirect == reply.checkoutUrl && error == old(error)
      ensures redirect.None? ==> error == Some(CheckoutError(reply))
    {
      redirect := None;
      if reply.Parsed? && Truthy(reply.checkoutUrl) {
        redirect := reply.checkoutUrl;
      } else {
        error := Some(CheckoutError(reply));
      }
      isLoading := false;
    }
  }
}
