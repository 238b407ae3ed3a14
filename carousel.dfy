/** The product carousel (src/slices/Carousel/index.tsx): three variants, a current
    index and an "animating" lock; a change is ignored while the lock is held, and the
    switch of index happens midway through the transition. */
module Carousel {
  import opened Common
  import opened ProductIds
  import opened CartItems
  import CartStore
  import AddToCart

  /** One entry of PRODUCT_VARIANTS; prices in cents (EUR 250 is 25000). */
  datatype Variant = Variant(id: nat, modelType: ModelType, name: string, price: int)

  const Variants: seq<Variant> := [
    Variant(1, Grip, "Raptor Grip", 25000),
    Variant(2, Throttle, "Raptor Throttle", 30000),
    Variant(3, Bundle, "Complete System", 80000)
  ]

  /** `(index + len) % len` (index.tsx:80). For the arguments the buttons pass the
      left operand is never negative, so JavaScript's `%` and Dafny's agree. */
  function TargetIndex(index: int, len: nat): (r: nat)
    requires len > 0 && index + len >= 0
    ensures r < len
  {
    (index + len) % len
  }

  /** Previous from the last slide wraps to the first, next from the first wraps
      to the last, and any index in range is kept. */
  lemma TargetIndexWraps(index: int, len: nat)
    requires len > 0 && index + len >= 0
    ensures 0 <= index < len ==> TargetIndex(index, len) == index
    ensures index == len ==> TargetIndex(index, len) == 0
    ensures index == -1 ==> TargetIndex(index, len) == len - 1
  {
    if 0 <= index < len {
      ModShift(index, len);
    } else if index == len {
      ModTwice(len);
    } else if index == -1 {
      ModSmall(len - 1, len);
    }
  }

  lemma ModSmall(r: int, n: int)
    requires 0 <= r < n
    ensures r % n == r
  {
  }

  lemma ModShift(r: int, n: int)
    requires 0 <= r < n
    ensures (r + n) % n == r
  {
  }

  lemma ModTwice(n: int)
    requires n > 0
    ensures (n + n) % n == 0
  {
  }

  /** The id handed to AddToCart for a variant: `id.toString()` (index.tsx:280). */
  function ProductIdOf(i: nat): (s: string)
    requires i < |Variants|
    ensures NormalizeId(s) == Numeric(s)
  {
    NormalizeNatToString(Variants[i].id);
    NatToString(Variants[i].id)
  }

  /** Different variants reach the cart under different ids, so they never merge. */
  lemma ProductIdsDistinct(i: nat, j: nat)
    requires i < |Variants| && j < |Variants| && i != j
    ensures ProductIdOf(i) != ProductIdOf(j)
  {
    NatToStringInjective(Variants[i].id, Variants[j].id);
  }

  class Slider {
    var current: nat
    var isAnimating: bool
    /** The index switch queued on the running timeline, if it has not fired yet. */
    var scheduled: Option<nat>

    ghost predicate Valid()
      reads this
    {
      current < |Variants| &&
      (scheduled.Some? ==> scheduled.value < |Variants| && isAnimating)
    }

    /** index.tsx:60-61. */
    constructor ()
      ensures Valid() && current == 0 && !isAnimating && scheduled == None
    {
      current := 0;
      isAnimating := false;
      scheduled := None;
    }

    /** changeProduct (index.tsx:77-92, 145): ignored while animating or when the target
        is the current index; otherwise takes the lock and queues the switch. */
    method ChangeProduct(index: int)
      requires Valid() && index + |Variants| >= 0
      modifies this`isAnimating, this`scheduled
      ensures Valid() && current == old(current)
      ensures old(isAnimating) ==> isAnimating == old(isAnimating) && scheduled == old(scheduled)
      ensures !old(isAnimating) && TargetIndex(index, |Variants|) == current ==>
        !isAnimating && scheduled == old(scheduled)
      ensures !old(isAnimating) && TargetIndex(index, |Variants|) != current ==>
        isAnimating && scheduled == Some(TargetIndex(index, |Variants|))
    {
      if isAnimating {
        return;
      }
      var next := TargetIndex(index, |Variants|);
      if next == current {
        return;
      }
      isAnimating := true;
      scheduled := Some(next);
    }

    /** The "Previous" arrow calls changeProduct(current + 1) (index.tsx:200). */
    method PreviousPressed()
      requires Valid()
      modifies this`isAnimating, this`scheduled
      ensures Valid() && current == old(current)
      ensures !old(isAnimating) ==> isAnimating && scheduled == Some((old(current) + 1) % |Variants|)
      ensures old(isAnimating) ==> scheduled == old(scheduled)
    {
      TargetIndexWraps(current + 1, |Variants|);
      ChangeProduct(current + 1);
    }

    /** The "Next" arrow calls changeProduct(current - 1) (index.tsx:260). */
    method NextPressed()
      requires Valid()
      modifies this`isAnimating, this`scheduled
      ensures Valid() && current == old(current)
      ensures !old(isAnimating) ==>
        isAnimating && scheduled == Some(if old(current) == 0 then |Variants| - 1 else old(current) - 1)
      ensures old(isAnimating) ==> scheduled == old(scheduled)
    {
      TargetIndexWraps(current - 1, |Variants|);
      ChangeProduct(current - 1);
    }

    /** The timeline's call at its midpoint: the queued index becomes current (index.tsx:145). */
    method TimelineMidpoint()
      requires Valid()
      modifies this`current, this`scheduled
      ensures Valid() && scheduled == None
      ensures current == if old(scheduled).Some? then old(scheduled).value else old(current)
    {
      if scheduled.Some? {
        current := scheduled.value;
        scheduled := None;
      }
    }

    /** The timeline's onComplete releases the lock (index.tsx:90-92); it runs after the
        midpoint, so no switch is still queued. */
    method TimelineComplete()
      requires Valid() && scheduled == None
      modifies this`isAnimating
      ensures Valid() && !isAnimating
    {
      isAnimating := false;
    }

    /** The control rendered beside the current variant (index.tsx:279-285). Its props
        become that variant's; as the element has no `key`, the same instance is kept,
        with its counter and "added" flag. */
    method RenderAddToCart(control: AddToCart.Control)
      requires Valid() && control.Valid()
      modifies control`productId, control`name, control`price, control`variant,
               control`image, control`modelType
      ensures control.Valid()
      ensures control.productId == SelectedProductId()
      ensures control.name == Variants[current].name && control.price == Variants[current].price
      ensures control.variant == Some(Variants[current].name) && control.image == None
      ensures control.modelType == Some(Variants[current].modelType)
      ensures control.quantity == old(control.quantity) && control.isAdded == old(control.isAdded)
    {
      var v := Variants[current];
      control.Rerender(ProductIdOf(current), v.name, v.price, Some(v.name), None, Some(v.modelType));
    }

    /** The product the AddToCart control is given for the current variant. */
    function SelectedProductId(): (s: string)
      reads this
      requires Valid()
      ensures NormalizeId(s) == Numeric(s)
    {
      ProductIdOf(current)
    }
  }

  /** A full press of "Next" from the first variant lands on the last one; a second
      "Previous" pressed while the first is animating is ignored, so one step brings
      the carousel back to the first variant. */
  method NextFromFirstWraps() returns (afterNext: nat, afterPrevious: nat)
    ensures afterNext == 2 && afterPrevious == 0
  {
    var slider := new Slider();
    slider.NextPressed();
    slider.TimelineMidpoint();
    slider.TimelineComplete();
    afterNext := slider.current;
    slider.PreviousPressed();
    slider.PreviousPressed();
    slider.TimelineMidpoint();
    slider.TimelineComplete();
    afterPrevious := slider.current;
  }

  /** The counter outlives a change of variant: pick 3 of the first variant, press
      "Next", and the add button adds 3 of the last variant. */
  method CounterSurvivesSwitch() returns (added: CartItem)
    ensures added.id == ProductIdOf(2) && added.name == Variants[2].name
    ensures added.quantity == 3
  {
    var store := new CartStore.Store(true);
    var slider := new Slider();
    var control := new AddToCart.Control(ProductIdOf(0), Variants[0].name, Variants[0].price,
                                         Some(Variants[0].name), None, Some(Variants[0].modelType), false);
    control.Increase();
    control.Increase();
    slider.NextPressed();
    slider.TimelineMidpoint();
    slider.RenderAddToCart(control);
    var request := control.AddPressed(store);
    added := control.Line();
    assert store.items == Added([], added);
  }
}
