/** The add-to-cart control (src/components/AddToCart.tsx): a quantity counter that never
    drops below 1, and a button that adds the product, flags "added", and opens the cart
    when its timer fires. */
module AddToCart {
  import opened Common
  import opened CartItems
  import opened CartStore

  /** `basePath` (AddToCart.tsx:7): the site prefix of a production build. */
  function BasePath(production: bool): string {
    if production then "/startupengineering" else ""
  }

  /** The image used when the caller gives none (AddToCart.tsx:37). */
  function LogoPath(production: bool): string {
    BasePath(production) + "/images/StartupEngineeringLogo.png"
  }

  class Control {
    // the component's props; the build mode is fixed, the rest come from the parent
    var productId: string
    var name: string
    var price: int
    var variant: Option<string>
    var image: Option<string>
    var modelType: Option<ModelType>
    const production: bool
    // the component's state
    var quantity: int
    var isAdded: bool

    ghost predicate Valid()
      reads this
    {
      quantity >= 1
    }

    /** The selected quantity starts at 1 and nothing is flagged as added (AddToCart.tsx:20-21). */
    constructor (productId: string, name: string, price: int, variant: Option<string>,
                 image: Option<string>, modelType: Option<ModelType>, production: bool)
      ensures Valid()
      ensures this.productId == productId && this.name == name && this.price == price
      ensures this.variant == variant && this.image == image && this.modelType == modelType
      ensures this.production == production
      ensures quantity == 1 && !isAdded
    {
      this.productId := productId;
      this.name := name;
      this.price := price;
      this.variant := variant;
      this.image := image;
      this.modelType := modelType;
      this.production := production;
      quantity := 1;
      isAdded := false;
    }

    /** A re-render with new props. The parent renders the control without a `key`, so
        React keeps this instance: the counter and the "added" flag survive and only
        the props change. */
    method Rerender(productId: string, name: string, price: int, variant: Option<string>,
                    image: Option<string>, modelType: Option<ModelType>)
      requires Valid()
      modifies this`productId, this`name, this`price, this`variant, this`image, this`modelType
      ensures Valid()
      ensures this.productId == productId && this.name == name && this.price == price
      ensures this.variant == variant && this.image == image && this.modelType == modelType
      ensures quantity == old(quantity) && isAdded == old(isAdded)
    {
      this.productId := productId;
      this.name := name;
      this.price := price;
      this.variant := variant;
      this.image := image;
      this.modelType := modelType;
    }

    /** The minus button: `Math.max(1, quantity - 1)` (AddToCart.tsx:57). */
    method Decrease()
      requires Valid()
      modifies this`quantity
      ensures Valid()
      ensures quantity == if old(quantity) > 1 then old(quantity) - 1 else 1
    {
      quantity := if quantity - 1 > 1 then quantity - 1 else 1;
    }

    /** The plus button adds exactly one (AddToCart.tsx:65). */
    method Increase()
      requires Valid()
      modifies this`quantity
      ensures Valid()
      ensures quantity == old(quantity) + 1
    {
      quantity := quantity + 1;
    }

    /** The line handleAddToCart builds (AddToCart.tsx:31-39). */
    function Line(): (item: CartItem)
      reads this
      ensures item.id == productId && item.quantity == quantity
      ensures item.name == name && item.price == price
      ensures item.variant == variant && item.modelType == modelType
      ensures item.image == Some(if Truthy(image) then image.value else LogoPath(production))
    {
      CartItem(productId, name, price, quantity,
               Some(if Truthy(image) then image.value else LogoPath(production)), variant, modelType)
    }

    /** handleAddToCart (AddToCart.tsx:28-41): adds the line with the selected quantity,
        then flags it as added. */
    method HandleAddToCart(store: Store) returns (request: Option<Request>)
      requires Valid() && store.Valid()
      modifies this`isAdded, store`items
      ensures Valid() && store.Valid() && isAdded
      ensures store.items == Added(old(store.items), Line())
      ensures Line().quantity >= 1
      ensures var q := quantity; request == MirrorOf(store.backendDisabled, productId, p => AddItemRequest(p, q))
    {
      request := store.AddItem(Line());
      isAdded := true;
    }

    /** The add button (AddToCart.tsx:72-75): it is disabled while the line is flagged as
        added, so a press then does nothing; otherwise it runs handleAddToCart. */
    method AddPressed(store: Store) returns (request: Option<Request>)
      requires Valid() && store.Valid()
      modifies this`isAdded, store`items
      ensures Valid() && store.Valid() && isAdded
      ensures old(isAdded) ==> request == None && store.items == old(store.items)
      ensures !old(isAdded) ==> store.items == Added(old(store.items), Line())
      ensures var q := quantity;
        !old(isAdded) ==> request == MirrorOf(store.backendDisabled, productId, p => AddItemRequest(p, q))
    {
      if isAdded {
        return None;
      }
      request := HandleAddToCart(store);
    }

    /** The timer callback (AddToCart.tsx:42-45): clears the flag and opens the cart. */
    method TimerFired(store: Store)
      modifies this`isAdded, store`isOpen
      ensures !isAdded && store.isOpen
    {
      isAdded := false;
      store.OpenCart();
    }
  }
}
