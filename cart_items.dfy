/** The client cart's line items and the pure list updates the store applies to them
    (src/hooks/useCart.ts). Prices are integer cents. */
module CartItems {
  import opened Common
  import opened ProductIds

  datatype ModelType = Grip | Throttle | Bundle

  /** A cart line. `id` is the identity key; `quantity` is whatever the caller passed. */
  datatype CartItem = CartItem(
    id: string,
    name: string,
    price: int,
    quantity: int,
    image: Option<string>,
    variant: Option<string>,
    modelType: Option<ModelType>)

  predicate HasId(items: seq<CartItem>, id: string) {
    exists i :: 0 <= i < |items| && items[i].id == id
  }

  /** Ids are unique within the cart. */
  predicate UniqueIds(items: seq<CartItem>) {
    forall i, j :: 0 <= i < j < |items| ==> items[i].id != items[j].id
  }

  /** Every line has quantity at least 1. */
  predicate AllPositive(items: seq<CartItem>) {
    forall i :: 0 <= i < |items| ==> items[i].quantity >= 1
  }

  /** `findIndex` on the id: the first match, or None when there is none. */
  function FindIndex(items: seq<CartItem>, id: string): (r: Option<nat>)
    ensures r.Some? ==> r.value < |items| && items[r.value].id == id
    ensures r.Some? ==> forall j :: 0 <= j < r.value ==> items[j].id != id
    ensures r.None? <==> !HasId(items, id)
  {
    if |items| == 0 then None
    else if items[0].id == id then Some(0)
    else match FindIndex(items[1..], id)
      case None => None
      case Some(k) => Some(k + 1)
  }

  /** addItem's local update (useCart.ts:183-195): merge into the first line with the
      same id, or append. */
  function Added(items: seq<CartItem>, item: CartItem): (r: seq<CartItem>)
    ensures |r| == if HasId(items, item.id) then |items| else |items| + 1
    ensures HasId(r, item.id)
  {
    match FindIndex(items, item.id)
    case Some(k) =>
      var r := items[k := items[k].(quantity := items[k].quantity + item.quantity)];
      assert r[k].id == item.id;
      r
    case None =>
      var r := items + [item];
      assert r[|items|] == item;
      r
  }

  /** removeItem's local update (useCart.ts:260-262): `filter` on the id. */
  function Removed(items: seq<CartItem>, id: string): (r: seq<CartItem>)
    ensures |r| <= |items|
    ensures !HasId(r, id)
  {
    if |items| == 0 then []
    else (if items[0].id == id then [] else [items[0]]) + Removed(items[1..], id)
  }

  /** updateItemQuantity's local update (useCart.ts:309-313): `map` over the lines. */
  function Updated(items: seq<CartItem>, id: string, quantity: int): (r: seq<CartItem>)
    ensures |r| == |items|
    ensures forall i :: 0 <= i < |r| ==> r[i].id == items[i].id
  {
    seq(|items|, i requires 0 <= i < |items| =>
      if items[i].id == id then items[i].(quantity := quantity) else items[i])
  }

  /** `reduce((acc, item) => acc + item.quantity, 0)`, folded left to right. */
  function SumQuantities(items: seq<CartItem>): int {
    if |items| == 0 then 0
    else SumQuantities(items[..|items| - 1]) + items[|items| - 1].quantity
  }

  /** `reduce((acc, item) => acc + item.price * item.quantity, 0)`. */
  function SumPrices(items: seq<CartItem>): int {
    if |items| == 0 then 0
    else SumPrices(items[..|items| - 1]) + items[|items| - 1].price * items[|items| - 1].quantity
  }

  // ---------------------------------------------------------------- addItem

  /** A new id is appended at the end; earlier lines are untouched. */
  lemma AddedNew(items: seq<CartItem>, item: CartItem)
    requires !HasId(items, item.id)
    ensures Added(items, item) == items + [item]
    ensures HasId(Added(items, item), item.id)
  {
    assert (items + [item])[|items|] == item;
  }

  /** A present id: same length, only the first matching line grows by item.quantity. */
  lemma AddedExisting(items: seq<CartItem>, item: CartItem, k: nat)
    requires k < |items| && items[k].id == item.id
    requires forall j :: 0 <= j < k ==> items[j].id != item.id
    ensures |Added(items, item)| == |items|
    ensures Added(items, item)[k] == items[k].(quantity := items[k].quantity + item.quantity)
    ensures forall j :: 0 <= j < |items| && j != k ==> Added(items, item)[j] == items[j]
  {
    assert FindIndex(items, item.id) == Some(k);
  }

  lemma AddedKeepsUnique(items: seq<CartItem>, item: CartItem)
    requires UniqueIds(items)
    ensures UniqueIds(Added(items, item))
  {
  }

  lemma AddedKeepsPositive(items: seq<CartItem>, item: CartItem)
    requires AllPositive(items) && item.quantity >= 1
    ensures AllPositive(Added(items, item))
  {
  }

  // ---------------------------------------------------------------- removeItem

  /** An absent id leaves the items exactly as they were. */
  lemma {:induction false} RemovedAbsent(items: seq<CartItem>, id: string)
    requires !HasId(items, id)
    ensures Removed(items, id) == items
  {
    if |items| > 0 {
      assert !HasId(items[1..], id) by {
        forall i | 0 <= i < |items[1..]| ensures items[1..][i].id != id {
          assert items[1..][i] == items[i + 1];
        }
      }
      RemovedAbsent(items[1..], id);
      assert items == [items[0]] + items[1..];
    }
  }

  /** filter distributes over concatenation. */
  lemma {:induction false} RemovedAppend(a: seq<CartItem>, b: seq<CartItem>, id: string)
    ensures Removed(a + b, id) == Removed(a, id) + Removed(b, id)
  {
    if |a| > 0 {
      assert (a + b)[1..] == a[1..] + b;
      RemovedAppend(a[1..], b, id);
    } else {
      assert a + b == b;
    }
  }

  lemma NoIdInSlice(items: seq<CartItem>, id: string, lo: nat, hi: nat)
    requires lo <= hi <= |items|
    requires forall i :: lo <= i < hi ==> items[i].id != id
    ensures !HasId(items[lo..hi], id)
  {
    forall i | 0 <= i < hi - lo ensures items[lo..hi][i].id != id {
      assert items[lo..hi][i] == items[lo + i];
    }
  }

  /** With unique ids, removing a present id drops just that line and keeps the rest in order. */
  lemma RemovedPresent(items: seq<CartItem>, id: string, k: nat)
    requires UniqueIds(items) && k < |items| && items[k].id == id
    ensures Removed(items, id) == items[..k] + items[k + 1..]
  {
    forall i | 0 <= i < k ensures items[i].id != id {
      assert items[i].id != items[k].id;
    }
    forall i | k + 1 <= i < |items| ensures items[i].id != id {
      assert items[k].id != items[i].id;
    }
    NoIdInSlice(items, id, 0, k);
    NoIdInSlice(items, id, k + 1, |items|);
    assert items[0..k] == items[..k] && items[k + 1..|items|] == items[k + 1..];
    assert items == items[..k] + [items[k]] + items[k + 1..];
    RemovedBetween(items[..k], items[k], items[k + 1..], id);
  }

  lemma RemovedBetween(a: seq<CartItem>, x: CartItem, b: seq<CartItem>, id: string)
    requires !HasId(a, id) && !HasId(b, id) && x.id == id
    ensures Removed(a + [x] + b, id) == a + b
  {
    calc {
      Removed(a + [x] + b, id);
      { assert a + [x] + b == a + ([x] + b); }
      Removed(a + ([x] + b), id);
      { RemovedAppend(a, [x] + b, id); RemovedAppend([x], b, id); }
      Removed(a, id) + (Removed([x], id) + Removed(b, id));
      { RemovedAbsent(a, id); RemovedAbsent(b, id); assert [x][1..] == []; }
      a + ([] + b);
      { assert [] + b == b; }
      a + b;
    }
  }

  /** What removeItem keeps was in the cart and does not carry the id. */
  lemma {:induction false} RemovedSubset(items: seq<CartItem>, id: string)
    ensures forall x :: x in Removed(items, id) ==> x in items && x.id != id
  {
    if |items| > 0 {
      RemovedSubset(items[1..], id);
      var head := if items[0].id == id then [] else [items[0]];
      forall x | x in Removed(items, id) ensures x in items && x.id != id {
        assert Removed(items, id) == head + Removed(items[1..], id);
        if x in Removed(items[1..], id) {
          assert x in items[1..];
        }
      }
    }
  }

  /** A filter of a unique list is unique; its quantities stay positive. */
  lemma {:induction false} RemovedKeeps(items: seq<CartItem>, id: string)
    ensures UniqueIds(items) ==> UniqueIds(Removed(items, id))
    ensures AllPositive(items) ==> AllPositive(Removed(items, id))
  {
    RemovedSubset(items, id);
    if |items| > 0 && UniqueIds(items) {
      var rest := Removed(items[1..], id);
      assert UniqueIds(items[1..]);
      RemovedKeeps(items[1..], id);
      RemovedSubset(items[1..], id);
      forall x | x in rest ensures x.id != items[0].id {
        var j :| 0 <= j < |items[1..]| && items[1..][j] == x;
        assert items[j + 1] == x;
      }
      if items[0].id != id {
        assert Removed(items, id) == [items[0]] + rest;
        forall i, j | 0 <= i < j < |Removed(items, id)|
          ensures Removed(items, id)[i].id != Removed(items, id)[j].id
        {
          assert Removed(items, id)[j] == rest[j - 1];
          assert rest[j - 1] in rest;
          if i > 0 {
            assert Removed(items, id)[i] == rest[i - 1];
          }
        }
      }
    }
    if AllPositive(items) {
      forall i | 0 <= i < |Removed(items, id)| ensures Removed(items, id)[i].quantity >= 1 {
        assert Removed(items, id)[i] in Removed(items, id);
      }
    }
  }

  // ---------------------------------------------------------------- updateItemQuantity

  /** Exactly the matching lines get the new quantity; nothing else changes, and
      the new quantity is not checked. */
  lemma UpdatedSpec(items: seq<CartItem>, id: string, quantity: int)
    ensures |Updated(items, id, quantity)| == |items|
    ensures forall i :: 0 <= i < |items| && items[i].id == id ==>
      Updated(items, id, quantity)[i] == items[i].(quantity := quantity)
    ensures forall i :: 0 <= i < |items| && items[i].id != id ==> Updated(items, id, quantity)[i] == items[i]
    ensures !HasId(items, id) ==> Updated(items, id, quantity) == items
  {
  }

  lemma UpdatedKeeps(items: seq<CartItem>, id: string, quantity: int)
    ensures UniqueIds(items) ==> UniqueIds(Updated(items, id, quantity))
    ensures AllPositive(items) && quantity >= 1 ==> AllPositive(Updated(items, id, quantity))
  {
  }

  // ---------------------------------------------------------------- totals

  lemma {:induction false} SumsAppend(items: seq<CartItem>, more: seq<CartItem>)
    ensures SumQuantities(items + more) == SumQuantities(items) + SumQuantities(more)
    ensures SumPrices(items + more) == SumPrices(items) + SumPrices(more)
    decreases |more|
  {
    if |more| == 0 {
      assert items + more == items;
    } else {
      var last := |more| - 1;
      assert (items + more)[..|items + more| - 1] == items + more[..last];
      SumsAppend(items, more[..last]);
    }
  }

  lemma SumsSingle(item: CartItem)
    ensures SumQuantities([item]) == item.quantity
    ensures SumPrices([item]) == item.price * item.quantity
  {
    assert [item][..0] == [];
  }

  /** Replacing line k changes the totals by the difference of the two lines. */
  lemma SumsReplace(items: seq<CartItem>, k: nat, x: CartItem)
    requires k < |items|
    ensures SumQuantities(items[k := x]) == SumQuantities(items) - items[k].quantity + x.quantity
    ensures SumPrices(items[k := x]) ==
      SumPrices(items) - items[k].price * items[k].quantity + x.price * x.quantity
  {
    assert items == items[..k] + [items[k]] + items[k + 1..];
    assert items[k := x] == items[..k] + [x] + items[k + 1..];
    SumsAppend(items[..k] + [items[k]], items[k + 1..]);
    SumsAppend(items[..k] + [x], items[k + 1..]);
    SumsAppend(items[..k], [items[k]]);
    SumsAppend(items[..k], [x]);
    SumsSingle(items[k]);
    SumsSingle(x);
  }

  /** After addItem, the item total grows by exactly item.quantity; the price total
      grows by item.quantity at the price of the line it lands on. */
  lemma TotalsAfterAdd(items: seq<CartItem>, item: CartItem)
    ensures SumQuantities(Added(items, item)) == SumQuantities(items) + item.quantity
    ensures FindIndex(items, item.id).None? ==>
      SumPrices(Added(items, item)) == SumPrices(items) + item.price * item.quantity
    ensures FindIndex(items, item.id).Some? ==>
      SumPrices(Added(items, item)) ==
        SumPrices(items) + items[FindIndex(items, item.id).value].price * item.quantity
  {
    match FindIndex(items, item.id)
    case None =>
      SumsAppend(items, [item]);
      SumsSingle(item);
    case Some(k) =>
      var x := items[k].(quantity := items[k].quantity + item.quantity);
      SumsReplace(items, k, x);
      assert x.price * x.quantity == items[k].price * items[k].quantity + items[k].price * item.quantity;
  }

  /** With unique ids, removeItem takes off exactly the removed line's share. */
  lemma TotalsAfterRemove(items: seq<CartItem>, id: string)
    requires UniqueIds(items)
    ensures !HasId(items, id) ==> SumQuantities(Removed(items, id)) == SumQuantities(items)
    ensures forall k :: 0 <= k < |items| && items[k].id == id ==>
      SumQuantities(Removed(items, id)) == SumQuantities(items) - items[k].quantity &&
      SumPrices(Removed(items, id)) == SumPrices(items) - items[k].price * items[k].quantity
  {
    if !HasId(items, id) {
      RemovedAbsent(items, id);
    }
    forall k | 0 <= k < |items| && items[k].id == id
      ensures SumQuantities(Removed(items, id)) == SumQuantities(items) - items[k].quantity
      ensures SumPrices(Removed(items, id)) == SumPrices(items) - items[k].price * items[k].quantity
    {
      TotalsAfterRemoveAt(items, id, k);
    }
  }

  lemma TotalsAfterRemoveAt(items: seq<CartItem>, id: string, k: nat)
    requires UniqueIds(items) && k < |items| && items[k].id == id
    ensures SumQuantities(Removed(items, id)) == SumQuantities(items) - items[k].quantity
    ensures SumPrices(Removed(items, id)) == SumPrices(items) - items[k].price * items[k].quantity
  {
    var a, x, b := items[..k], items[k], items[k + 1..];
    RemovedPresent(items, id, k);
    assert items == a + [x] + b;
    SumsAppend(a + [x], b);
    SumsAppend(a, [x]);
    SumsAppend(a, b);
    SumsSingle(x);
  }

  /** With unique ids, updateItemQuantity swaps the old quantity for the new one in the totals. */
  lemma TotalsAfterUpdate(items: seq<CartItem>, id: string, quantity: int, k: nat)
    requires UniqueIds(items) && k < |items| && items[k].id == id
    ensures SumQuantities(Updated(items, id, quantity)) == SumQuantities(items) - items[k].quantity + quantity
    ensures SumPrices(Updated(items, id, quantity)) ==
      SumPrices(items) - items[k].price * items[k].quantity + items[k].price * quantity
  {
    assert Updated(items, id, quantity) == items[k := items[k].(quantity := quantity)];
    SumsReplace(items, k, items[k].(quantity := quantity));
  }

  /** With positive quantities the item count is at least the number of lines. */
  lemma {:induction false} TotalItemsAtLeastLines(items: seq<CartItem>)
    ensures AllPositive(items) ==> SumQuantities(items) >= |items|
  {
    if |items| > 0 && AllPositive(items) {
      TotalItemsAtLeastLines(items[..|items| - 1]);
    }
  }

  // ---------------------------------------------------------------- sync translation

  /** One record of `GET cart/current/`: `{product: {id, name, price, image}, quantity}`. */
  datatype BackendLine = BackendLine(productId: nat, name: string, price: int, quantity: int, image: Option<string>)

  /** The translation in syncWithBackend (useCart.ts:152-158): id printed in decimal,
      image kept only when truthy, no variant and no model type. */
  function Translate(line: BackendLine): (item: CartItem)
    ensures NormalizeId(item.id) == Numeric(item.id)
  {
    NormalizeNatToString(line.productId);
    CartItem(NatToString(line.productId), line.name, line.price, line.quantity,
             if Truthy(line.image) then line.image else None, None, None)
  }

  function TranslateAll(lines: seq<BackendLine>): (items: seq<CartItem>)
    ensures |items| == |lines|
    ensures forall i :: 0 <= i < |lines| ==> items[i] == Translate(lines[i])
  {
    seq(|lines|, i requires 0 <= i < |lines| => Translate(lines[i]))
  }

  /** A reply naming each product at most once, as the server's `unique_together` ensures. */
  predicate DistinctProducts(lines: seq<BackendLine>) {
    forall i, j :: 0 <= i < j < |lines| ==> lines[i].productId != lines[j].productId
  }

  /** Distinct product ids on the server give distinct ids in the client after a sync. */
  lemma TranslateAllUnique(lines: seq<BackendLine>)
    requires DistinctProducts(lines)
    ensures UniqueIds(TranslateAll(lines))
  {
    var items := TranslateAll(lines);
    forall i, j | 0 <= i < j < |items| ensures items[i].id != items[j].id {
      TranslatedIdsDiffer(lines, i, j);
    }
  }

  lemma TranslatedIdsDiffer(lines: seq<BackendLine>, i: nat, j: nat)
    requires i < |lines| && j < |lines| && lines[i].productId != lines[j].productId
    ensures Translate(lines[i]).id != Translate(lines[j]).id
  {
    NatToStringInjective(lines[i].productId, lines[j].productId);
  }

  function SumQuantitiesOf(lines: seq<BackendLine>): int {
    if |lines| == 0 then 0 else SumQuantitiesOf(lines[..|lines| - 1]) + lines[|lines| - 1].quantity
  }

  lemma {:induction false} TranslateSums(lines: seq<BackendLine>)
    ensures SumQuantities(TranslateAll(lines)) == SumQuantitiesOf(lines)
  {
    if |lines| > 0 {
      var n := |lines| - 1;
      assert TranslateAll(lines)[..n] == TranslateAll(lines[..n]);
      TranslateSums(lines[..n]);
    }
  }
}
