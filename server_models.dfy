/** The server's cart and order tables (backend/api/models.py), as rows. Prices are
    integer cents: the price columns are decimals with two places, so a price times
    100 is an exact integer. Row order is primary-key order. */
module ServerModels {
  import opened Common

  datatype Product = Product(name: string, priceCents: int, image: Option<string>, active: bool)

  /** A CartItem row: the cart's `cart_id`, the product's id and a non-negative quantity. */
  datatype CartItemRow = CartItemRow(cart: string, product: nat, quantity: nat)

  /** An OrderItem row keeps the price at the time of purchase. */
  datatype OrderItem = OrderItem(product: nat, quantity: nat, priceCents: int)

  /** An Order row (models.py:62-83): the customer's email stands for its customer, and
      `notes` is the text stored with it. */
  datatype Order = Order(customerEmail: string, status: string, totalCents: int, items: seq<OrderItem>,
                         notes: string)

  /** The Address columns that may not be NULL (models.py:46-51); `apartment_address`
      is nullable and `default` has a default, so only these five must be supplied. */
  const RequiredAddressFields: seq<string> := ["street_address", "city", "state", "country", "postal_code"]

  /** An address payload from which every NOT NULL column of an Address is filled. */
  predicate AddressComplete(data: map<string, string>) {
    forall i :: 0 <= i < |RequiredAddressFields| ==> RequiredAddressFields[i] in data
  }

  /** Order.STATUS_CHOICES and its default (models.py:66-78). */
  const StatusChoices: seq<string> := ["pending", "processing", "shipped", "delivered", "cancelled"]
  const DefaultStatus: string := "pending"

  /** The default of both quantity columns (models.py:95, 133). */
  const DefaultQuantity: nat := 1

  /** `unique_together = ('cart', 'product')` (models.py:142-143). */
  predicate UniqueTogether(rows: seq<CartItemRow>) {
    forall i, j :: 0 <= i < j < |rows| ==> !(rows[i].cart == rows[j].cart && rows[i].product == rows[j].product)
  }

  /** Every row's product exists (the foreign key). */
  predicate ProductsKnown(rows: seq<CartItemRow>, products: map<nat, Product>) {
    forall i :: 0 <= i < |rows| ==> rows[i].product in products
  }

  /** `cart.items.all()`: the cart's rows in table order. */
  function CartRows(rows: seq<CartItemRow>, cart: string): (r: seq<CartItemRow>)
    ensures |r| <= |rows|
    ensures forall i :: 0 <= i < |r| ==> r[i].cart == cart
  {
    if |rows| == 0 then []
    else
      var last := rows[|rows| - 1];
      CartRows(rows[..|rows| - 1], cart) + (if last.cart == cart then [last] else [])
  }

  function SumQuantity(rows: seq<CartItemRow>): nat {
    if |rows| == 0 then 0 else SumQuantity(rows[..|rows| - 1]) + rows[|rows| - 1].quantity
  }

  /** Cart.total_items (models.py:118-120). */
  function TotalItems(rows: seq<CartItemRow>, cart: string): (n: nat)
    ensures CartRows(rows, cart) == [] ==> n == 0
  {
    SumQuantity(CartRows(rows, cart))
  }

  /** CartItem.total_price: the product's current price times the quantity (models.py:138-140). */
  function LineTotal(row: CartItemRow, products: map<nat, Product>): (t: int)
    requires row.product in products
    ensures row.quantity == 0 ==> t == 0
    ensures products[row.product].priceCents >= 0 ==> t >= 0
  {
    products[row.product].priceCents * row.quantity
  }

  function SumLineTotals(rows: seq<CartItemRow>, products: map<nat, Product>): int
    requires ProductsKnown(rows, products)
  {
    if |rows| == 0 then 0
    else SumLineTotals(rows[..|rows| - 1], products) + LineTotal(rows[|rows| - 1], products)
  }

  /** Cart.total_price (models.py:122-124). */
  function TotalPrice(rows: seq<CartItemRow>, products: map<nat, Product>, cart: string): (t: int)
    requires ProductsKnown(rows, products)
    ensures CartRows(rows, cart) == [] ==> t == 0
  {
    CartRowsKnown(rows, products, cart);
    SumLineTotals(CartRows(rows, cart), products)
  }

  /** OrderItem.total_price: its own stored price times its quantity (models.py:101-103). */
  function OrderItemTotal(item: OrderItem): (t: int)
    ensures item.quantity == 0 ==> t == 0
    ensures item.priceCents >= 0 ==> t >= 0
  {
    item.priceCents * item.quantity
  }

  function SumOrderItems(items: seq<OrderItem>): int {
    if |items| == 0 then 0 else SumOrderItems(items[..|items| - 1]) + OrderItemTotal(items[|items| - 1])
  }

  /** The rows of a cart are rows of the table. */
  lemma {:induction false} CartRowsSubset(rows: seq<CartItemRow>, cart: string)
    ensures forall x :: x in CartRows(rows, cart) ==> x in rows
  {
    if |rows| > 0 {
      var init := rows[..|rows| - 1];
      CartRowsSubset(init, cart);
      forall x | x in CartRows(rows, cart) ensures x in rows {
        if x in CartRows(init, cart) {
          assert x in init;
        }
      }
    }
  }

  lemma CartRowsKnown(rows: seq<CartItemRow>, products: map<nat, Product>, cart: string)
    requires ProductsKnown(rows, products)
    ensures ProductsKnown(CartRows(rows, cart), products)
  {
    CartRowsSubset(rows, cart);
    forall i | 0 <= i < |CartRows(rows, cart)| ensures CartRows(rows, cart)[i].product in products {
      assert CartRows(rows, cart)[i] in CartRows(rows, cart);
    }
  }

  lemma {:induction false} CartRowsAppend(rows: seq<CartItemRow>, more: seq<CartItemRow>, cart: string)
    ensures CartRows(rows + more, cart) == CartRows(rows, cart) + CartRows(more, cart)
    decreases |more|
  {
    if |more| == 0 {
      assert rows + more == rows;
    } else {
      var n := |more| - 1;
      assert (rows + more)[..|rows + more| - 1] == rows + more[..n];
      CartRowsAppend(rows, more[..n], cart);
    }
  }

  lemma SumQuantityAppend(rows: seq<CartItemRow>, more: seq<CartItemRow>)
    ensures SumQuantity(rows + more) == SumQuantity(rows) + SumQuantity(more)
    decreases |more|
  {
    if |more| == 0 {
      assert rows + more == rows;
    } else {
      var n := |more| - 1;
      assert (rows + more)[..|rows + more| - 1] == rows + more[..n];
      SumQuantityAppend(rows, more[..n]);
    }
  }

  /** Within one cart the rows name distinct products. */
  lemma {:induction false} CartRowsDistinctProducts(rows: seq<CartItemRow>, cart: string)
    requires UniqueTogether(rows)
    ensures forall i, j :: 0 <= i < j < |CartRows(rows, cart)| ==>
      CartRows(rows, cart)[i].product != CartRows(rows, cart)[j].product
  {
    if |rows| > 0 {
      var init, last := rows[..|rows| - 1], rows[|rows| - 1];
      assert UniqueTogether(init);
      CartRowsDistinctProducts(init, cart);
      CartRowsSubset(init, cart);
      var r := CartRows(rows, cart);
      var a := CartRows(init, cart);
      if last.cart == cart {
        forall i | 0 <= i < |a| ensures a[i].product != last.product {
          assert a[i] in a;
          var k :| 0 <= k < |init| && init[k] == a[i];
          assert rows[k] == a[i];
        }
        forall i, j | 0 <= i < j < |r| ensures r[i].product != r[j].product {
          if j == |a| {
            assert r[i] == a[i];
          } else {
            assert r[i] == a[i] && r[j] == a[j];
          }
        }
      }
    }
  }

  /** An order's total is the sum of its items' totals, which depend on the stored
      prices only, not on the product table. */
  lemma {:induction false} SumOrderItemsAppend(items: seq<OrderItem>, more: seq<OrderItem>)
    ensures SumOrderItems(items + more) == SumOrderItems(items) + SumOrderItems(more)
    decreases |more|
  {
    if |more| == 0 {
      assert items + more == items;
    } else {
      var n := |more| - 1;
      assert (items + more)[..|items + more| - 1] == items + more[..n];
      SumOrderItemsAppend(items, more[..n]);
    }
  }

  /** The status an order is created with is one of the declared choices; the value
      "paid", which the payment webhook writes, is not. */
  lemma StatusChoicesSpec()
    ensures DefaultStatus in StatusChoices
    ensures "paid" !in StatusChoices
    ensures |StatusChoices| == 5
  {
  }

  /** An address is storable exactly when it names all five required columns; a
      payload carrying only other keys, such as notes, is not. */
  lemma AddressCompleteSpec(data: map<string, string>)
    ensures AddressComplete(data) <==>
      "street_address" in data && "city" in data && "state" in data &&
      "country" in data && "postal_code" in data
    ensures !AddressComplete(map["notes" := "x"])
  {
    var f := RequiredAddressFields;
    assert f[0] == "street_address" && f[1] == "city" && f[2] == "state";
    assert f[3] == "country" && f[4] == "postal_code";
    assert f[0] !in map["notes" := "x"];
  }
}
