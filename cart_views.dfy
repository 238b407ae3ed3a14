/** The cart endpoints of the server (backend/api/views.py, CartViewSet), over the
    tables of ServerModels. Every endpoint first resolves the cart from the
    `cart_id` cookie; the new cart id a request may need is a parameter. */
module CartViews {
  import opened Common
  import opened ProductIds
  import opened CartItems
  import opened ServerModels

  const HttpOk: nat := 200
  const HttpBadRequest: nat := 400
  const HttpNotFound: nat := 404
  const HttpServerError: nat := 500

  // ---------------------------------------------------------------------------
  // Rows keyed by (cart, product)

  predicate Keyed(row: CartItemRow, cart: string, product: nat) {
    row.cart == cart && row.product == product
  }

  /** `CartItem.objects.get(cart=…, product_id=…)`: the first row of the pair. */
  function FindRow(rows: seq<CartItemRow>, cart: string, product: nat): (r: Option<nat>)
    ensures r.Some? ==> r.value < |rows| && Keyed(rows[r.value], cart, product)
    ensures r.Some? ==> forall j :: 0 <= j < r.value ==> !Keyed(rows[j], cart, product)
    ensures r.None? <==> forall j :: 0 <= j < |rows| ==> !Keyed(rows[j], cart, product)
  {
    if |rows| == 0 then None
    else match FindRow(rows[..|rows| - 1], cart, product)
      case Some(k) => Some(k)
      case None => if Keyed(rows[|rows| - 1], cart, product) then Some(|rows| - 1) else None
  }

  function QuantityOf(rows: seq<CartItemRow>, cart: string, product: nat): Option<nat> {
    match FindRow(rows, cart, product)
    case Some(k) => Some(rows[k].quantity)
    case None => None
  }

  /** Saving a row with quantity `q`: the existing row of the pair is overwritten,
      otherwise a row is inserted at the end. */
  function PutRow(rows: seq<CartItemRow>, cart: string, product: nat, q: nat): seq<CartItemRow> {
    match FindRow(rows, cart, product)
    case Some(k) => rows[k := CartItemRow(cart, product, q)]
    case None => rows + [CartItemRow(cart, product, q)]
  }

  /** Deleting the row of one pair. */
  function DeleteRow(rows: seq<CartItemRow>, cart: string, product: nat): seq<CartItemRow> {
    if |rows| == 0 then []
    else
      var last := rows[|rows| - 1];
      DeleteRow(rows[..|rows| - 1], cart, product) + (if Keyed(last, cart, product) then [] else [last])
  }

  /** `CartItem.objects.filter(cart=cart).delete()`. */
  function DeleteCart(rows: seq<CartItemRow>, cart: string): seq<CartItemRow> {
    if |rows| == 0 then []
    else
      var last := rows[|rows| - 1];
      DeleteCart(rows[..|rows| - 1], cart) + (if last.cart == cart then [] else [last])
  }

  lemma QuantityOfSnoc(rows: seq<CartItemRow>, x: CartItemRow, cart: string, product: nat)
    ensures QuantityOf(rows + [x], cart, product) ==
      if QuantityOf(rows, cart, product).Some? then QuantityOf(rows, cart, product)
      else if Keyed(x, cart, product) then Some(x.quantity) else None
  {
    assert (rows + [x])[..|rows|] == rows;
  }

  lemma {:induction false} CartRowsPoint(a: seq<CartItemRow>, x: CartItemRow, b: seq<CartItemRow>, cart: string)
    ensures CartRows(a + [x] + b, cart) == CartRows(a, cart) + (if x.cart == cart then [x] else []) + CartRows(b, cart)
  {
    CartRowsAppend(a + [x], b, cart);
    assert (a + [x])[..|a|] == a;
  }

  lemma SumQuantityPoint(a: seq<CartItemRow>, x: CartItemRow, b: seq<CartItemRow>)
    ensures SumQuantity(a + [x] + b) == SumQuantity(a) + x.quantity + SumQuantity(b)
  {
    SumQuantityAppend(a + [x], b);
    assert (a + [x])[..|a|] == a;
  }

  /** The first row of a pair is the one FindRow returns. */
  lemma FindRowFirst(rows: seq<CartItemRow>, cart: string, product: nat, k: nat)
    requires k < |rows| && Keyed(rows[k], cart, product)
    requires forall j :: 0 <= j < k ==> !Keyed(rows[j], cart, product)
    ensures FindRow(rows, cart, product) == Some(k)
  {
  }

  /** Saving a row: the pair then has quantity `q`, the pairs stay unique, no other
      cart's rows change, and the cart's item count moves from the old quantity to `q`. */
  lemma PutRowSpec(rows: seq<CartItemRow>, cart: string, product: nat, q: nat)
    requires UniqueTogether(rows)
    ensures UniqueTogether(PutRow(rows, cart, product, q))
    ensures QuantityOf(PutRow(rows, cart, product, q), cart, product) == Some(q)
    ensures TotalItems(PutRow(rows, cart, product, q), cart) + QuantityOf(rows, cart, product).GetOr(0)
         == TotalItems(rows, cart) + q
    ensures forall d :: d != cart ==> CartRows(PutRow(rows, cart, product, q), d) == CartRows(rows, d)
  {
    var x := CartItemRow(cart, product, q);
    match FindRow(rows, cart, product) {
      case Some(k) =>
        assert PutRow(rows, cart, product, q) == rows[k := x];
        UpdateRow(rows, k, x);
        FindRowFirst(rows[k := x], cart, product, k);
      case None =>
        assert PutRow(rows, cart, product, q) == rows + [x];
        assert (rows + [x])[..|rows|] == rows;
    }
  }

  /** Overwriting a row with one of the same pair keeps the pairs unique and the
      other carts' rows, and swaps the row's quantity in its cart's count. */
  lemma UpdateRow(rows: seq<CartItemRow>, k: nat, x: CartItemRow)
    requires UniqueTogether(rows) && k < |rows|
    requires x.cart == rows[k].cart && x.product == rows[k].product
    ensures UniqueTogether(rows[k := x])
    ensures TotalItems(rows[k := x], x.cart) + rows[k].quantity == TotalItems(rows, x.cart) + x.quantity
    ensures forall d :: d != x.cart ==> CartRows(rows[k := x], d) == CartRows(rows, d)
  {
    var a, b := rows[..k], rows[k + 1..];
    assert rows[k := x] == a + [x] + b;
    assert rows == a + [rows[k]] + b;
    CartRowsPoint(a, x, b, x.cart);
    CartRowsPoint(a, rows[k], b, x.cart);
    SumQuantityPoint(CartRows(a, x.cart), x, CartRows(b, x.cart));
    SumQuantityPoint(CartRows(a, x.cart), rows[k], CartRows(b, x.cart));
    forall d | d != x.cart ensures CartRows(rows[k := x], d) == CartRows(rows, d) {
      CartRowsPoint(a, x, b, d);
      CartRowsPoint(a, rows[k], b, d);
    }
  }

  /** Saving a row leaves every other pair's quantity as it was. */
  lemma PutRowOther(rows: seq<CartItemRow>, cart: string, product: nat, q: nat, cart2: string, product2: nat)
    requires cart2 != cart || product2 != product
    ensures QuantityOf(PutRow(rows, cart, product, q), cart2, product2) == QuantityOf(rows, cart2, product2)
  {
    var x := CartItemRow(cart, product, q);
    match FindRow(rows, cart, product) {
      case Some(k) =>
        var r := rows[k := x];
        match FindRow(rows, cart2, product2) {
          case Some(j) =>
            FindRowFirst(r, cart2, product2, j);
          case None =>
            assert forall j :: 0 <= j < |r| ==> !Keyed(r[j], cart2, product2);
        }
      case None =>
        QuantityOfSnoc(rows, x, cart2, product2);
    }
  }

  lemma PutRowKnown(rows: seq<CartItemRow>, products: map<nat, Product>, carts: set<string>,
                    cart: string, product: nat, q: nat)
    requires ProductsKnown(rows, products) && product in products
    requires CartsKnown(rows, carts) && cart in carts
    ensures ProductsKnown(PutRow(rows, cart, product, q), products)
    ensures CartsKnown(PutRow(rows, cart, product, q), carts)
  {
  }

  /** Every row belongs to a cart that exists (the foreign key). */
  predicate CartsKnown(rows: seq<CartItemRow>, carts: set<string>) {
    forall i :: 0 <= i < |rows| ==> rows[i].cart in carts
  }

  lemma {:induction false} DeleteRowSubset(rows: seq<CartItemRow>, cart: string, product: nat)
    ensures forall x :: x in DeleteRow(rows, cart, product) ==> x in rows && !Keyed(x, cart, product)
  {
    if |rows| > 0 {
      var init := rows[..|rows| - 1];
      DeleteRowSubset(init, cart, product);
      forall x | x in DeleteRow(rows, cart, product) ensures x in rows && !Keyed(x, cart, product) {
        if x in DeleteRow(init, cart, product) {
          assert x in init;
        }
      }
    }
  }

  /** Deleting a row: the pair is gone, the pairs stay unique, no other cart's
      rows change, and the cart's item count drops by the quantity the row had. */
  lemma DeleteRowSpec(rows: seq<CartItemRow>, cart: string, product: nat)
    requires UniqueTogether(rows)
    ensures UniqueTogether(DeleteRow(rows, cart, product))
    ensures QuantityOf(DeleteRow(rows, cart, product), cart, product) == None
    ensures TotalItems(DeleteRow(rows, cart, product), cart) + QuantityOf(rows, cart, product).GetOr(0)
         == TotalItems(rows, cart)
    ensures forall d :: d != cart ==> CartRows(DeleteRow(rows, cart, product), d) == CartRows(rows, d)
  {
    var r := DeleteRow(rows, cart, product);
    DeleteRowSubset(rows, cart, product);
    forall j | 0 <= j < |r| ensures !Keyed(r[j], cart, product) {
      assert r[j] in r;
    }
    DeleteRowUnique(rows, cart, product);
    DeleteRowTotal(rows, cart, product);
    forall d | d != cart ensures CartRows(r, d) == CartRows(rows, d) {
      DeleteRowOtherCart(rows, cart, product, d);
    }
  }

  lemma {:induction false} DeleteRowUnique(rows: seq<CartItemRow>, cart: string, product: nat)
    requires UniqueTogether(rows)
    ensures UniqueTogether(DeleteRow(rows, cart, product))
  {
    if |rows| > 0 {
      var init, last := rows[..|rows| - 1], rows[|rows| - 1];
      assert UniqueTogether(init);
      DeleteRowUnique(init, cart, product);
      DeleteRowSubset(init, cart, product);
      var a := DeleteRow(init, cart, product);
      var r := DeleteRow(rows, cart, product);
      if !Keyed(last, cart, product) {
        assert r == a + [last];
        forall i, j | 0 <= i < j < |r|
          ensures !(r[i].cart == r[j].cart && r[i].product == r[j].product)
        {
          if j == |a| {
            assert r[i] == a[i] && a[i] in a && r[j] == last;
            var k :| 0 <= k < |init| && init[k] == a[i];
            assert rows[k] == a[i];
          } else {
            assert r[i] == a[i] && r[j] == a[j];
          }
        }
      }
    }
  }

  lemma {:induction false} DeleteRowTotal(rows: seq<CartItemRow>, cart: string, product: nat)
    requires UniqueTogether(rows)
    ensures TotalItems(DeleteRow(rows, cart, product), cart) + QuantityOf(rows, cart, product).GetOr(0)
         == TotalItems(rows, cart)
  {
    if |rows| > 0 {
      var init, last := rows[..|rows| - 1], rows[|rows| - 1];
      assert rows == init + [last];
      assert UniqueTogether(init);
      DeleteRowTotal(init, cart, product);
      QuantityOfSnoc(init, last, cart, product);
      TotalItemsSnoc(init, last, cart);
      if Keyed(last, cart, product) {
        assert DeleteRow(rows, cart, product) == DeleteRow(init, cart, product) + [];
        assert DeleteRow(init, cart, product) + [] == DeleteRow(init, cart, product);
        LastOfPair(rows, cart, product);
      } else {
        assert DeleteRow(rows, cart, product) == DeleteRow(init, cart, product) + [last];
        TotalItemsSnoc(DeleteRow(init, cart, product), last, cart);
      }
    }
  }

  lemma TotalItemsSnoc(rows: seq<CartItemRow>, x: CartItemRow, cart: string)
    ensures TotalItems(rows + [x], cart) == TotalItems(rows, cart) + (if x.cart == cart then x.quantity else 0)
  {
    assert (rows + [x])[..|rows|] == rows;
    if x.cart == cart {
      assert (CartRows(rows, cart) + [x])[..|CartRows(rows, cart)|] == CartRows(rows, cart);
    } else {
      assert CartRows(rows, cart) + [] == CartRows(rows, cart);
    }
  }

  /** With unique pairs, a last row of the pair is its only row. */
  lemma LastOfPair(rows: seq<CartItemRow>, cart: string, product: nat)
    requires UniqueTogether(rows) && |rows| > 0 && Keyed(rows[|rows| - 1], cart, product)
    ensures FindRow(rows[..|rows| - 1], cart, product) == None
  {
    var init := rows[..|rows| - 1];
    forall j | 0 <= j < |init| ensures !Keyed(init[j], cart, product) {
      assert !(rows[j].cart == rows[|rows| - 1].cart && rows[j].product == rows[|rows| - 1].product);
    }
  }

  lemma {:induction false} DeleteRowOtherCart(rows: seq<CartItemRow>, cart: string, product: nat, d: string)
    requires d != cart
    ensures CartRows(DeleteRow(rows, cart, product), d) == CartRows(rows, d)
  {
    if |rows| > 0 {
      var init, last := rows[..|rows| - 1], rows[|rows| - 1];
      DeleteRowOtherCart(init, cart, product, d);
      var a := DeleteRow(init, cart, product);
      var tail := if Keyed(last, cart, product) then [] else [last];
      assert DeleteRow(rows, cart, product) == a + tail;
      assert rows == init + [last];
      CartRowsAppend(a, tail, d);
      CartRowsAppend(init, [last], d);
    }
  }

  /** Deleting a row leaves every other pair's quantity as it was. */
  lemma {:induction false} DeleteRowOther(rows: seq<CartItemRow>, cart: string, product: nat, cart2: string, product2: nat)
    requires cart2 != cart || product2 != product
    ensures QuantityOf(DeleteRow(rows, cart, product), cart2, product2) == QuantityOf(rows, cart2, product2)
  {
    if |rows| > 0 {
      var init, last := rows[..|rows| - 1], rows[|rows| - 1];
      DeleteRowOther(init, cart, product, cart2, product2);
      assert rows == init + [last];
      QuantityOfSnoc(init, last, cart2, product2);
      if !Keyed(last, cart, product) {
        assert DeleteRow(rows, cart, product) == DeleteRow(init, cart, product) + [last];
        QuantityOfSnoc(DeleteRow(init, cart, product), last, cart2, product2);
      } else {
        assert DeleteRow(rows, cart, product) == DeleteRow(init, cart, product);
      }
    }
  }

  lemma {:induction false} DeleteRowKnown(rows: seq<CartItemRow>, products: map<nat, Product>, carts: set<string>,
                                          cart: string, product: nat)
    requires ProductsKnown(rows, products) && CartsKnown(rows, carts)
    ensures ProductsKnown(DeleteRow(rows, cart, product), products)
    ensures CartsKnown(DeleteRow(rows, cart, product), carts)
  {
    DeleteRowSubset(rows, cart, product);
    var r := DeleteRow(rows, cart, product);
    forall i | 0 <= i < |r| ensures r[i].product in products && r[i].cart in carts {
      assert r[i] in r;
    }
  }

  lemma {:induction false} DeleteCartSubset(rows: seq<CartItemRow>, cart: string)
    ensures forall x :: x in DeleteCart(rows, cart) ==> x in rows && x.cart != cart
  {
    if |rows| > 0 {
      var init := rows[..|rows| - 1];
      DeleteCartSubset(init, cart);
      forall x | x in DeleteCart(rows, cart) ensures x in rows && x.cart != cart {
        if x in DeleteCart(init, cart) {
          assert x in init;
        }
      }
    }
  }

  /** `clear`: the cart has no rows left and every other cart keeps exactly its rows. */
  lemma {:induction false} DeleteCartSpec(rows: seq<CartItemRow>, cart: string)
    ensures CartRows(DeleteCart(rows, cart), cart) == []
    ensures forall d :: d != cart ==> CartRows(DeleteCart(rows, cart), d) == CartRows(rows, d)
  {
    if |rows| > 0 {
      var init, last := rows[..|rows| - 1], rows[|rows| - 1];
      DeleteCartSpec(init, cart);
      var a := DeleteCart(init, cart);
      var tail := if last.cart == cart then [] else [last];
      assert rows == init + [last];
      CartRowsAppend(a, tail, cart);
      forall d | d != cart ensures CartRows(DeleteCart(rows, cart), d) == CartRows(rows, d) {
        CartRowsAppend(a, tail, d);
        CartRowsAppend(init, [last], d);
      }
    }
  }

  /** What `clear` keeps: uniqueness and the foreign keys. */
  lemma DeleteCartKeeps(rows: seq<CartItemRow>, products: map<nat, Product>, carts: set<string>, cart: string)
    requires UniqueTogether(rows) && ProductsKnown(rows, products) && CartsKnown(rows, carts)
    ensures UniqueTogether(DeleteCart(rows, cart))
    ensures ProductsKnown(DeleteCart(rows, cart), products) && CartsKnown(DeleteCart(rows, cart), carts)
  {
    DeleteCartSubset(rows, cart);
    var r := DeleteCart(rows, cart);
    forall i | 0 <= i < |r| ensures r[i].product in products && r[i].cart in carts {
      assert r[i] in r;
    }
    DeleteCartUnique(rows, cart);
  }

  lemma {:induction false} DeleteCartUnique(rows: seq<CartItemRow>, cart: string)
    requires UniqueTogether(rows)
    ensures UniqueTogether(DeleteCart(rows, cart))
  {
    if |rows| > 0 {
      var init, last := rows[..|rows| - 1], rows[|rows| - 1];
      assert UniqueTogether(init);
      DeleteCartUnique(init, cart);
      DeleteCartSubset(init, cart);
      var a := DeleteCart(init, cart);
      var r := DeleteCart(rows, cart);
      if last.cart != cart {
        forall i, j | 0 <= i < j < |r|
          ensures !(r[i].cart == r[j].cart && r[i].product == r[j].product)
        {
          if j == |a| {
            assert r[i] == a[i] && a[i] in a && r[j] == last;
            var k :| 0 <= k < |init| && init[k] == a[i];
            assert rows[k] == a[i];
          } else {
            assert r[i] == a[i] && r[j] == a[j];
          }
        }
      }
    }
  }

  // ---------------------------------------------------------------------------
  // Request fields

  /** How the server reads `product_id`: a falsy value is missing; a digit string
      is the id; any other string makes the integer lookup raise. */
  datatype IdField = NoId | BadId | Id(n: nat)

  function ReadId(productId: Option<string>): (r: IdField)
    ensures r == NoId <==> !Truthy(productId)
  {
    if !Truthy(productId) then NoId
    else if AllDigits(productId.value) then Id(DigitsValue(productId.value))
    else BadId
  }

  /** The id the store sends is read back as the product's number. */
  lemma ReadSentId(n: nat)
    ensures ReadId(Some(NatToString(n))) == Id(n)
  {
    DigitsValueNatToString(n);
  }

  /** Every id the store's normalisation lets through is read as a number: the
      server never takes the raising path for a request the store sends. */
  lemma ReadNormalizedId(s: string)
    requires NormalizeId(s).Numeric?
    ensures ReadId(Some(NormalizeId(s).id)).Id?
  {
    NormalizeIdSpec(s);
  }

  /** `Product.objects.get(id=…, active=True)` finds a row. */
  predicate Active(products: map<nat, Product>, id: nat) {
    id in products && products[id].active
  }

  /** The cookie names a cart that exists. */
  predicate Known(carts: set<string>, cookie: Option<string>) {
    Truthy(cookie) && cookie.value in carts
  }

  /** The cart `get_cart` settles on (views.py:172-198). */
  predicate Resolves(carts: set<string>, cookie: Option<string>, freshId: string, cartId: string) {
    if Known(carts, cookie) then cartId == cookie.value else cartId == freshId
  }

  /** The cart in the shape the client reads it (serializers.py:44-77): per row the
      product's id, name, price and image, and the row's quantity. */
  function Serialized(rows: seq<CartItemRow>, products: map<nat, Product>): (lines: seq<BackendLine>)
    requires ProductsKnown(rows, products)
    ensures |lines| == |rows|
    ensures forall i :: 0 <= i < |rows| ==> lines[i].productId == rows[i].product && lines[i].quantity == rows[i].quantity
  {
    seq(|rows|, i requires 0 <= i < |rows| =>
      var p := products[rows[i].product];
      BackendLine(rows[i].product, p.name, p.priceCents, rows[i].quantity, p.image))
  }

  /** The order items checkout creates: one per cart row, same product and
      quantity, the price at that moment. */
  function OrderLinesOf(rows: seq<CartItemRow>, products: map<nat, Product>): (lines: seq<OrderItem>)
    requires ProductsKnown(rows, products)
    ensures |lines| == |rows|
    ensures forall i :: 0 <= i < |rows| ==>
      lines[i].product == rows[i].product && lines[i].quantity == rows[i].quantity &&
      lines[i].priceCents == products[rows[i].product].priceCents
  {
    seq(|rows|, i requires 0 <= i < |rows| =>
      OrderItem(rows[i].product, rows[i].quantity, products[rows[i].product].priceCents))
  }

  /** An order's items add up to the cart's total at checkout. */
  lemma {:induction false} OrderLinesTotal(rows: seq<CartItemRow>, products: map<nat, Product>)
    requires ProductsKnown(rows, products)
    ensures SumOrderItems(OrderLinesOf(rows, products)) == SumLineTotals(rows, products)
  {
    if |rows| > 0 {
      var init := rows[..|rows| - 1];
      assert ProductsKnown(init, products);
      OrderLinesTotal(init, products);
      assert OrderLinesOf(rows, products)[..|rows| - 1] == OrderLinesOf(init, products);
    }
  }

  /** What the store does with the `current` reply: a cart of a server whose rows
      are unique per pair becomes a client list whose ids are unique and whose count
      is the server's `total_items`. */
  lemma SyncedCart(rows: seq<CartItemRow>, products: map<nat, Product>, cart: string)
    requires UniqueTogether(rows) && ProductsKnown(rows, products)
    ensures ProductsKnown(CartRows(rows, cart), products)
    ensures UniqueIds(TranslateAll(Serialized(CartRows(rows, cart), products)))
    ensures SumQuantities(TranslateAll(Serialized(CartRows(rows, cart), products))) == TotalItems(rows, cart)
  {
    CartRowsKnown(rows, products, cart);
    var lines := Serialized(CartRows(rows, cart), products);
    CartRowsDistinctProducts(rows, cart);
    TranslateAllUnique(lines);
    TranslateSums(lines);
    SerializedSum(CartRows(rows, cart), products);
  }

  lemma {:induction false} SerializedSum(rows: seq<CartItemRow>, products: map<nat, Product>)
    requires ProductsKnown(rows, products)
    ensures SumQuantitiesOf(Serialized(rows, products)) == SumQuantity(rows)
  {
    if |rows| > 0 {
      var init := rows[..|rows| - 1];
      assert ProductsKnown(init, products);
      SerializedSum(init, products);
      assert Serialized(rows, products)[..|rows| - 1] == Serialized(init, products);
    }
  }

  // ---------------------------------------------------------------------------
  // The tables and the endpoints

  class Backend {
    var products: map<nat, Product>
    var carts: set<string>
    var cartItems: seq<CartItemRow>
    var orders: seq<Order>

    ghost predicate Valid()
      reads this
    {
      UniqueTogether(cartItems) && ProductsKnown(cartItems, products) && CartsKnown(cartItems, carts)
    }

    constructor (catalog: map<nat, Product>)
      ensures Valid()
      ensures products == catalog && carts == {} && cartItems == [] && orders == []
    {
      products := catalog;
      carts := {};
      cartItems := [];
      orders := [];
    }

    /** get_cart (views.py:167-198): the cookie's cart when it exists, otherwise a
        new cart under the fresh id. */
    method GetCart(cookie: Option<string>, freshId: string) returns (cartId: string, created: bool)
      requires Valid() && freshId !in carts
      modifies this`carts
      ensures Valid()
      ensures Resolves(old(carts), cookie, freshId, cartId)
      ensures created <==> !Known(old(carts), cookie)
      ensures carts == old(carts) + {cartId}
    {
      if Known(carts, cookie) {
        cartId, created := cookie.value, false;
      } else {
        cartId, created := freshId, true;
        carts := carts + {freshId};
      }
    }

    /** add_item (views.py:252-306). */
    method AddItem(cookie: Option<string>, freshId: string, productId: Option<string>, quantity: Option<int>)
      returns (status: nat, cartId: string)
      requires Valid() && freshId !in carts
      modifies this`carts, this`cartItems
      ensures Valid() && Resolves(old(carts), cookie, freshId, cartId) && carts == old(carts) + {cartId}
      ensures ReadId(productId) == NoId ==> status == HttpBadRequest && cartItems == old(cartItems)
      ensures ReadId(productId) == BadId ==> status == HttpServerError && cartItems == old(cartItems)
      ensures ReadId(productId).Id? && !Active(products, ReadId(productId).n) ==>
        status == HttpNotFound && cartItems == old(cartItems)
      ensures ReadId(productId).Id? && Active(products, ReadId(productId).n) ==>
        var p := ReadId(productId).n;
        var q := QuantityOf(old(cartItems), cartId, p).GetOr(0) + quantity.GetOr(DefaultQuantity);
        (q < 0 ==> status == HttpServerError && cartItems == old(cartItems)) &&
        (q >= 0 ==> status == HttpOk && cartItems == PutRow(old(cartItems), cartId, p, q as nat))
    {
      var created;
      cartId, created := GetCart(cookie, freshId);
      var q := quantity.GetOr(DefaultQuantity);
      var id := ReadId(productId);
      if id == NoId {
        return HttpBadRequest, cartId;
      }
      if id == BadId {
        return HttpServerError, cartId;
      }
      if !Active(products, id.n) {
        return HttpNotFound, cartId;
      }
      // get_or_create, then `quantity += …` on an existing row; the column's
      // non-negative check rejects the save of a negative quantity
      var total := QuantityOf(cartItems, cartId, id.n).GetOr(0) + q;
      if total < 0 {
        return HttpServerError, cartId;
      }
      PutRowSpec(cartItems, cartId, id.n, total as nat);
      PutRowKnown(cartItems, products, carts, cartId, id.n, total as nat);
      cartItems := PutRow(cartItems, cartId, id.n, total as nat);
      status := HttpOk;
    }

    /** update_item (views.py:308-347). */
    method UpdateItem(cookie: Option<string>, freshId: string, productId: Option<string>, quantity: Option<int>)
      returns (status: nat, cartId: string)
      requires Valid() && freshId !in carts
      modifies this`carts, this`cartItems
      ensures Valid() && Resolves(old(carts), cookie, freshId, cartId) && carts == old(carts) + {cartId}
      ensures !Truthy(productId) || quantity.None? ==> status == HttpBadRequest && cartItems == old(cartItems)
      ensures Truthy(productId) && quantity.Some? && ReadId(productId) == BadId ==>
        status == HttpServerError && cartItems == old(cartItems)
      ensures ReadId(productId).Id? && quantity.Some? && QuantityOf(old(cartItems), cartId, ReadId(productId).n).None? ==>
        status == HttpNotFound && cartItems == old(cartItems)
      ensures ReadId(productId).Id? && quantity.Some? && QuantityOf(old(cartItems), cartId, ReadId(productId).n).Some? ==>
        status == HttpOk &&
        cartItems == if quantity.value > 0 then PutRow(old(cartItems), cartId, ReadId(productId).n, quantity.value as nat)
                     else DeleteRow(old(cartItems), cartId, ReadId(productId).n)
    {
      var created;
      cartId, created := GetCart(cookie, freshId);
      if !Truthy(productId) || quantity.None? {
        return HttpBadRequest, cartId;
      }
      var id := ReadId(productId);
      if id == BadId {
        return HttpServerError, cartId;
      }
      if QuantityOf(cartItems, cartId, id.n).None? {
        return HttpNotFound, cartId;
      }
      var q := quantity.value;
      if q > 0 {
        PutRowSpec(cartItems, cartId, id.n, q as nat);
        assert cartItems[FindRow(cartItems, cartId, id.n).value].product in products;
        PutRowKnown(cartItems, products, carts, cartId, id.n, q as nat);
        cartItems := PutRow(cartItems, cartId, id.n, q as nat);
      } else {
        DeleteRowSpec(cartItems, cartId, id.n);
        DeleteRowKnown(cartItems, products, carts, cartId, id.n);
        cartItems := DeleteRow(cartItems, cartId, id.n);
      }
      status := HttpOk;
    }

    /** remove_item (views.py:349-381). */
    method RemoveItem(cookie: Option<string>, freshId: string, productId: Option<string>)
      returns (status: nat, cartId: string)
      requires Valid() && freshId !in carts
      modifies this`carts, this`cartItems
      ensures Valid() && Resolves(old(carts), cookie, freshId, cartId) && carts == old(carts) + {cartId}
      ensures ReadId(productId) == NoId ==> status == HttpBadRequest && cartItems == old(cartItems)
      ensures ReadId(productId) == BadId ==> status == HttpServerError && cartItems == old(cartItems)
      ensures ReadId(productId).Id? && QuantityOf(old(cartItems), cartId, ReadId(productId).n).None? ==>
        status == HttpNotFound && cartItems == old(cartItems)
      ensures ReadId(productId).Id? && QuantityOf(old(cartItems), cartId, ReadId(productId).n).Some? ==>
        status == HttpOk && cartItems == DeleteRow(old(cartItems), cartId, ReadId(productId).n)
    {
      var created;
      cartId, created := GetCart(cookie, freshId);
      var id := ReadId(productId);
      if id == NoId {
        return HttpBadRequest, cartId;
      }
      if id == BadId {
        return HttpServerError, cartId;
      }
      if QuantityOf(cartItems, cartId, id.n).None? {
        return HttpNotFound, cartId;
      }
      DeleteRowSpec(cartItems, cartId, id.n);
      DeleteRowKnown(cartItems, products, carts, cartId, id.n);
      cartItems := DeleteRow(cartItems, cartId, id.n);
      status := HttpOk;
    }

    /** clear (views.py:383-396). */
    method Clear(cookie: Option<string>, freshId: string) returns (status: nat, cartId: string)
      requires Valid() && freshId !in carts
      modifies this`carts, this`cartItems
      ensures Valid() && Resolves(old(carts), cookie, freshId, cartId) && carts == old(carts) + {cartId}
      ensures status == HttpOk && cartItems == DeleteCart(old(cartItems), cartId)
    {
      var created;
      cartId, created := GetCart(cookie, freshId);
      DeleteCartKeeps(cartItems, products, carts, cartId);
      cartItems := DeleteCart(cartItems, cartId);
      status := HttpOk;
    }

    /** current (views.py:220-238): the cart's rows as the client receives them. */
    method Current(cookie: Option<string>, freshId: string) returns (cartId: string, lines: seq<BackendLine>)
      requires Valid() && freshId !in carts
      modifies this`carts
      ensures Valid() && Resolves(old(carts), cookie, freshId, cartId) && carts == old(carts) + {cartId}
      ensures ProductsKnown(CartRows(cartItems, cartId), products)
      ensures lines == Serialized(CartRows(cartItems, cartId), products)
    {
      var created;
      cartId, created := GetCart(cookie, freshId);
      CartRowsKnown(cartItems, products, cartId);
      lines := Serialized(CartRows(cartItems, cartId), products);
    }

    /** The amount loop of create_payment_intent (views.py:413-419): the sum over the
        cart's rows of quantity times the price in cents is Cart.total_price. */
    method CartTotalCents(cart: string) returns (total: int)
      requires Valid()
      ensures total == TotalPrice(cartItems, products, cart)
    {
      var rows := CartRows(cartItems, cart);
      CartRowsKnown(cartItems, products, cart);
      total := 0;
      var i := 0;
      while i < |rows|
        invariant 0 <= i <= |rows|
        invariant ProductsKnown(rows[..i], products)
        invariant total == SumLineTotals(rows[..i], products)
      {
        var priceCents := products[rows[i].product].priceCents;
        total := total + rows[i].quantity * priceCents;
        assert rows[..i + 1][..i] == rows[..i];
        i := i + 1;
      }
      assert rows[..i] == rows;
    }

    /** The order-item loop of checkout (views.py:638-651): one order item per cart
        row and the running `price * quantity` total. */
    method BuildOrderLines(cart: string) returns (lines: seq<OrderItem>, total: int)
      requires Valid()
      ensures ProductsKnown(CartRows(cartItems, cart), products)
      ensures lines == OrderLinesOf(CartRows(cartItems, cart), products)
      ensures total == SumOrderItems(lines) && total == TotalPrice(cartItems, products, cart)
    {
      var rows := CartRows(cartItems, cart);
      CartRowsKnown(cartItems, products, cart);
      lines, total := [], 0;
      var i := 0;
      while i < |rows|
        invariant 0 <= i <= |rows| && |lines| == i
        invariant forall j :: 0 <= j < i ==>
          lines[j] == OrderItem(rows[j].product, rows[j].quantity, products[rows[j].product].priceCents)
        invariant total == SumOrderItems(lines)
      {
        var price := products[rows[i].product].priceCents;
        var item := OrderItem(rows[i].product, rows[i].quantity, price);
        assert (lines + [item])[..i] == lines;
        lines := lines + [item];
        total := total + price * rows[i].quantity;
        i := i + 1;
      }
      OrderLinesTotal(rows, products);
    }

    /** create_payment_intent up to the Stripe call (views.py:398-422): 400 for an
        empty cart or a non-positive total, otherwise the amount in cents. */
    method CreatePaymentIntent(cookie: Option<string>, freshId: string)
      returns (status: nat, cartId: string, amount: int)
      requires Valid() && freshId !in carts
      modifies this`carts
      ensures Valid() && Resolves(old(carts), cookie, freshId, cartId) && carts == old(carts) + {cartId}
      ensures CartRows(cartItems, cartId) == [] ==> status == HttpBadRequest
      ensures CartRows(cartItems, cartId) != [] ==>
        amount == TotalPrice(cartItems, products, cartId) &&
        (status == HttpOk <==> amount > 0) && (amount <= 0 ==> status == HttpBadRequest)
    {
      var created;
      cartId, created := GetCart(cookie, freshId);
      amount := 0;
      if CartRows(cartItems, cartId) == [] {
        return HttpBadRequest, cartId, amount;
      }
      amount := CartTotalCents(cartId);
      if amount <= 0 {
        return HttpBadRequest, cartId, amount;
      }
      status := HttpOk;
    }

    /** checkout (views.py:577-654): 400 for an empty cart or a missing email or
        address. An address lacking a NOT NULL column makes `Address.objects.get_or_create`
        raise an uncaught IntegrityError: a 500 before any order is created or any row
        deleted. Otherwise a pending order holding the cart's rows at their current
        prices and their total, and the request's `notes` ("" when absent), after which
        the cart is empty. */
    method Checkout(cookie: Option<string>, freshId: string, email: Option<string>,
                    address: Option<map<string, string>>, notes: Option<string>)
      returns (status: nat, cartId: string)
      requires Valid() && freshId !in carts
      modifies this`carts, this`cartItems, this`orders
      ensures Valid() && Resolves(old(carts), cookie, freshId, cartId) && carts == old(carts) + {cartId}
      ensures ProductsKnown(CartRows(old(cartItems), cartId), products)
      ensures CartRows(old(cartItems), cartId) == [] || !Truthy(email) || address.None? || address.value == map[] ==>
        status == HttpBadRequest && cartItems == old(cartItems) && orders == old(orders)
      ensures CartRows(old(cartItems), cartId) != [] && Truthy(email) && address.Some? && address.value != map[] &&
              !AddressComplete(address.value) ==>
        status == HttpServerError && cartItems == old(cartItems) && orders == old(orders)
      ensures CartRows(old(cartItems), cartId) != [] && Truthy(email) && address.Some? && address.value != map[] &&
              AddressComplete(address.value) ==>
        status == HttpOk &&
        orders == old(orders) + [Order(email.value, DefaultStatus, TotalPrice(old(cartItems), products, cartId),
                                       OrderLinesOf(CartRows(old(cartItems), cartId), products),
                                       if notes.Some? then notes.value else "")] &&
        cartItems == DeleteCart(old(cartItems), cartId)
    {
      var created;
      cartId, created := GetCart(cookie, freshId);
      CartRowsKnown(cartItems, products, cartId);
      if CartRows(cartItems, cartId) == [] {
        return HttpBadRequest, cartId;
      }
      if !Truthy(email) || address.None? || address.value == map[] {
        return HttpBadRequest, cartId;
      }
      if !AddressComplete(address.value) {
        return HttpServerError, cartId;
      }
      var lines, total := BuildOrderLines(cartId);
      orders := orders + [Order(email.value, DefaultStatus, total, lines, if notes.Some? then notes.value else "")];
      DeleteCartKeeps(cartItems, products, carts, cartId);
      cartItems := DeleteCart(cartItems, cartId);
      status := HttpOk;
    }
  }

  /** The order checkout records has a total equal to its items' totals and to the
      amount a payment intent for the same cart asks for; afterwards the cart is
      empty and every other cart is as it was. */
  lemma CheckoutTotals(rows: seq<CartItemRow>, products: map<nat, Product>, cart: string)
    requires ProductsKnown(rows, products)
    ensures ProductsKnown(CartRows(rows, cart), products)
    ensures SumOrderItems(OrderLinesOf(CartRows(rows, cart), products)) == TotalPrice(rows, products, cart)
    ensures CartRows(DeleteCart(rows, cart), cart) == []
    ensures forall d :: d != cart ==> CartRows(DeleteCart(rows, cart), d) == CartRows(rows, d)
  {
    CartRowsKnown(rows, products, cart);
    OrderLinesTotal(CartRows(rows, cart), products);
    DeleteCartSpec(rows, cart);
  }
}
