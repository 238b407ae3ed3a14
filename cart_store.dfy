/** The client cart store (src/hooks/useCart.ts): a single state object whose operations
    apply the local update first and then, unless the backend is disabled, hand back the
    request the store would send. Responses come back through FinishMirror and FinishSync. */
module CartStore {
  import opened Common
  import opened ProductIds
  import opened CartItems

  /** A request the store issues to the cart endpoints (the body is what it would send). */
  datatype Request =
    | AddItemRequest(productId: string, quantity: int)
    | RemoveItemRequest(productId: string)
    | UpdateItemRequest(productId: string, quantity: int)
    | ClearRequest
    | FetchCartRequest

  /** How a mirrored mutation ended: a successful response (for add_item, with the
      `cart_id` of its parsed body), or a failure (non-ok status, network error,
      unparseable body), which is logged and swallowed. */
  datatype MutationReply = Succeeded(cartId: Option<string>) | Failed

  /** How `GET cart/current/` ended: a parsed body, or any failure. */
  datatype FetchOutcome =
    | Fetched(cartId: Option<string>, lines: Option<seq<BackendLine>>)
    | FetchFailed

  /** The request sent after a local update on `id`, if any: none when the backend is
      disabled, none when the id has no numeric form (the error is caught and the
      local update stands). */
  function MirrorOf(backendDisabled: bool, id: string, make: string -> Request): (r: Option<Request>)
    ensures backendDisabled ==> r == None
    ensures !backendDisabled && NormalizeId(id).Numeric? ==> r == Some(make(NormalizeId(id).id))
    ensures NormalizeId(id).InvalidFormat? ==> r == None
  {
    if backendDisabled then None
    else match NormalizeId(id)
      case Numeric(p) => Some(make(p))
      case InvalidFormat => None
  }

  /** The items a sync may install have unique ids: a parsed reply names each product
      at most once, and a fallback snapshot has unique ids. */
  predicate UniqueSources(outcome: FetchOutcome, snapshot: Option<seq<CartItem>>) {
    (outcome.Fetched? && outcome.lines.Some? ==> DistinctProducts(outcome.lines.value)) &&
    (outcome.FetchFailed? && snapshot.Some? ==> UniqueIds(snapshot.value))
  }

  class Store {
    /** DISABLE_BACKEND (useCart.ts:40), fixed for the life of the store. */
    const backendDisabled: bool
    var items: seq<CartItem>
    var isOpen: bool
    var isLoading: bool
    var cartId: Option<string>

    /** The store's invariant: no two lines carry the same id. Adding merges into the
        existing line, and the other actions never introduce an id. */
    ghost predicate Valid()
      reads this
    {
      UniqueIds(items)
    }

    /** The initial state (useCart.ts:92-95). */
    constructor (backendDisabled: bool)
      ensures this.backendDisabled == backendDisabled
      ensures Valid() && items == [] && !isOpen && !isLoading && cartId == None
    {
      this.backendDisabled := backendDisabled;
      items := [];
      isOpen := false;
      isLoading := false;
      cartId := None;
    }

    /** setCartId (useCart.ts:97-102); the cookie write is not modelled. */
    method SetCartId(id: string)
      modifies this`cartId
      ensures cartId == Some(id)
    {
      cartId := Some(id);
    }

    /** openCart, closeCart and toggleCart change only isOpen (useCart.ts:104-106). */
    method OpenCart()
      modifies this`isOpen
      ensures isOpen
    {
      isOpen := true;
    }

    method CloseCart()
      modifies this`isOpen
      ensures !isOpen
    {
      isOpen := false;
    }

    method ToggleCart()
      modifies this`isOpen
      ensures isOpen == !old(isOpen)
    {
      isOpen := !isOpen;
    }

    /** addItem (useCart.ts:182-230). */
    method AddItem(item: CartItem) returns (request: Option<Request>)
      requires Valid()
      modifies this`items
      ensures Valid()
      ensures items == Added(old(items), item)
      ensures request == MirrorOf(backendDisabled, item.id, p => AddItemRequest(p, item.quantity))
    {
      var k := FindIndex(items, item.id);
      if k.Some? {
        var updated := items;
        updated := updated[k.value := updated[k.value].(quantity := updated[k.value].quantity + item.quantity)];
        items := updated;
      } else {
        items := items + [item];
      }
      AddedKeepsUnique(old(items), item);
      if backendDisabled {
        return None;
      }
      match NormalizeId(item.id) {
        case Numeric(p) => request := Some(AddItemRequest(p, item.quantity));
        case InvalidFormat => request := None;
      }
    }

    /** removeItem (useCart.ts:258-294). */
    method RemoveItem(id: string) returns (request: Option<Request>)
      requires Valid()
      modifies this`items
      ensures Valid()
      ensures items == Removed(old(items), id)
      ensures request == MirrorOf(backendDisabled, id, p => RemoveItemRequest(p))
    {
      RemovedKeeps(items, id);
      items := Removed(items, id);
      if backendDisabled {
        return None;
      }
      match NormalizeId(id) {
        case Numeric(p) => request := Some(RemoveItemRequest(p));
        case InvalidFormat => request := None;
      }
    }

    /** updateItemQuantity (useCart.ts:307-346); the quantity is not checked here. */
    method UpdateItemQuantity(id: string, quantity: int) returns (request: Option<Request>)
      requires Valid()
      modifies this`items
      ensures Valid()
      ensures items == Updated(old(items), id, quantity)
      ensures request == MirrorOf(backendDisabled, id, p => UpdateItemRequest(p, quantity))
    {
      UpdatedKeeps(items, id, quantity);
      items := Updated(items, id, quantity);
      if backendDisabled {
        return None;
      }
      match NormalizeId(id) {
        case Numeric(p) => request := Some(UpdateItemRequest(p, quantity));
        case InvalidFormat => request := None;
      }
    }

    /** clearCart (useCart.ts:359-372): changes only items. */
    method ClearCart() returns (request: Option<Request>)
      modifies this`items
      ensures Valid()
      ensures items == []
      ensures request == if backendDisabled then None else Some(ClearRequest)
    {
      items := [];
      request := if backendDisabled then None else Some(ClearRequest);
    }

    /** The reply to a mirrored mutation (useCart.ts:232-252, 296-301, 348-353, 374-376):
        add_item records a returned cart id when the store has none; add, remove and
        update re-sync after success, clear does not; failures change nothing. */
    method FinishMirror(request: Request, reply: MutationReply) returns (resync: bool)
      modifies this`cartId
      ensures resync <==> (reply.Succeeded? &&
        (request.AddItemRequest? || request.RemoveItemRequest? || request.UpdateItemRequest?))
      ensures cartId ==
        if request.AddItemRequest? && reply.Succeeded? && Truthy(reply.cartId) && !Truthy(old(cartId))
        then reply.cartId else old(cartId)
    {
      resync := false;
      if reply.Failed? {
        return;
      }
      match request {
        case AddItemRequest(_, _) =>
          if Truthy(reply.cartId) && !Truthy(cartId) {
            cartId := reply.cartId;
          }
          resync := true;
        case RemoveItemRequest(_) =>
          resync := true;
        case UpdateItemRequest(_, _) =>
          resync := true;
        case ClearRequest =>
        case FetchCartRequest =>
      }
    }

    /** The first half of syncWithBackend (useCart.ts:108-126): returns at once when the
        backend is disabled; otherwise raises isLoading, adopts the cookie's cart id when
        the store has none, and fetches the current cart. */
    method BeginSync(cookieCartId: Option<string>) returns (request: Option<Request>)
      modifies this`isLoading, this`cartId
      ensures backendDisabled ==> request == None && isLoading == old(isLoading) && cartId == old(cartId)
      ensures !backendDisabled ==> request == Some(FetchCartRequest) && isLoading
      ensures !backendDisabled ==>
        cartId == if Truthy(cookieCartId) && !Truthy(old(cartId)) then cookieCartId else old(cartId)
    {
      if backendDisabled {
        return None;
      }
      isLoading := true;
      if Truthy(cookieCartId) && !Truthy(cartId) {
        cartId := cookieCartId;
      }
      request := Some(FetchCartRequest);
    }

    /** The second half of syncWithBackend (useCart.ts:128-179): a parsed body replaces
        the cart id (when truthy) and the items (when present) wholesale; a failure falls
        back to the items of the persisted snapshot, when there is one; isLoading is
        lowered on every path. The invariant survives whenever the new items have
        unique ids: a reply of the server, whose rows are unique per product, or a
        snapshot of an earlier state of the store. */
    method FinishSync(outcome: FetchOutcome, snapshot: Option<seq<CartItem>>)
      requires Valid()
      modifies this`items, this`cartId, this`isLoading
      ensures UniqueSources(outcome, snapshot) ==> Valid()
      ensures !isLoading
      ensures outcome.Fetched? ==>
        cartId == (if Truthy(outcome.cartId) then outcome.cartId else old(cartId)) &&
        items == (if outcome.lines.Some? then TranslateAll(outcome.lines.value) else old(items))
      ensures outcome.FetchFailed? ==>
        cartId == old(cartId) && items == (if snapshot.Some? then snapshot.value else old(items))
    {
      match outcome {
        case Fetched(id, lines) =>
          if Truthy(id) {
            cartId := id;
          }
          if lines.Some? {
            if DistinctProducts(lines.value) {
              TranslateAllUnique(lines.value);
            }
            items := TranslateAll(lines.value);
          }
        case FetchFailed =>
          if snapshot.Some? {
            items := snapshot.value;
          }
      }
      isLoading := false;
    }

    /** totalItems (useCart.ts:382-384): a function of items alone. */
    function TotalItems(): (n: int)
      reads this
      ensures AllPositive(items) ==> n >= |items|
      ensures items == [] ==> n == 0
    {
      TotalItemsAtLeastLines(items);
      SumQuantities(items)
    }

    /** totalPrice (useCart.ts:386-388): a function of items alone. */
    function TotalPrice(): (n: int)
      reads this
      ensures items == [] ==> n == 0
    {
      SumPrices(items)
    }
  }

  /** A session with the backend disabled: no request is issued and every local update
      is visible at once. Two adds of the same product merge into one line. */
  method DisabledSession() returns (totalItems: int, totalPrice: int, sent: bool)
    ensures totalItems == 3 && totalPrice == 75000 && !sent
  {
    var store := new Store(true);
    var one := CartItem("1", "Raptor Grip", 25000, 1, None, None, None);
    var two := one.(quantity := 2);
    MergedAdds(one, two);
    var r1 := store.AddItem(one);
    var r2 := store.AddItem(two);
    totalItems, totalPrice := store.TotalItems(), store.TotalPrice();
    var r3 := DisabledRemoval(store);
    sent := r1.Some? || r2.Some? || r3;
  }

  /** Two adds of one id into an empty cart: one line, holding both quantities. */
  lemma MergedAdds(one: CartItem, two: CartItem)
    requires one.id == two.id
    ensures Added(Added([], one), two) == [one.(quantity := one.quantity + two.quantity)]
    ensures SumQuantities(Added(Added([], one), two)) == one.quantity + two.quantity
    ensures SumPrices(Added(Added([], one), two)) == one.price * (one.quantity + two.quantity)
  {
    AddedNew([], one);
    assert FindIndex([one], two.id) == Some(0);
    var r := [one.(quantity := one.quantity + two.quantity)];
    assert r[..0] == [];
  }

  /** Continuing that session: setting the quantity to 0 keeps the line, removing
      it empties the cart, and a sync is not started. */
  method DisabledRemoval(store: Store) returns (sent: bool)
    requires store.backendDisabled && !store.isLoading && store.cartId == None
    requires |store.items| == 1 && store.items[0].id == "1"
    modifies store
    ensures !sent && store.items == [] && !store.isLoading && store.cartId == None
  {
    var r3 := store.UpdateItemQuantity("1", 0);
    assert |store.items| == 1 && store.items[0].quantity == 0;
    var r4 := store.RemoveItem("1");
    assert store.items == [];
    var r5 := store.BeginSync(Some("abc"));
    sent := r3.Some? || r4.Some? || r5.Some?;
  }
}
