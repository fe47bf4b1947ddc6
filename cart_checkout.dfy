/** The cart page: the hydration of placeholder cart lines with full product
    records, and the quantity controls that dispatch to the context. */
module CartCheckout {
  import opened Wrappers
  import opened ShopContext

  /** What the `fetchProductById` oracle yields for one id: a product record,
      nothing (a falsy value), or a rejected promise. */
  datatype Fetched = Found(product: Product) | NotFound | Failed

  /** The call the quantity input makes to `setCartItemQuantity`. */
  datatype QuantityCall = SetCartItemQuantity(productId: string, quantity: int)

  /** `!item.name || item.name === "N/A"`: no name, the empty name, or "N/A". */
  predicate IsPlaceholder(line: Line) {
    line.name.None? || line.name.value == "" || line.name.value == "N/A"
  }

  /** `{...item, ...fullProduct, quantity: item.quantity}`: the product's
      display fields override the line's, the line keeps its id and its
      quantity (the product's own `quantity` field is overridden). */
  function Merge(item: Line, p: Product): Line {
    Line(item.productId, Some(p.name), p.price, item.quantity, Some(p.category), Some(p.images))
  }

  /** The callback of `cart.map`: a placeholder is looked up and merged when
      the lookup finds a product; `None` is a rejected lookup. */
  function HydrateLine(item: Line, lookup: string -> Fetched): Option<Line> {
    if !IsPlaceholder(item) then Some(item)
    else
      match lookup(item.productId)
      case Found(p) => Some(Merge(item, p))
      case NotFound => Some(item)
      case Failed => None
  }

  /** `Promise.all(cart.map(...))`: `None` when some lookup rejects, since
      `Promise.all` then rejects as a whole. */
  function Hydrate(cart: seq<Line>, lookup: string -> Fetched): (r: Option<seq<Line>>)
    ensures r.Some? <==>
      forall k :: 0 <= k < |cart| && IsPlaceholder(cart[k]) ==> !lookup(cart[k].productId).Failed?
    ensures r.Some? ==> |r.value| == |cart|
    ensures r.Some? ==> forall k :: 0 <= k < |cart| ==>
      r.value[k].productId == cart[k].productId && r.value[k].quantity == cart[k].quantity
    ensures r.Some? ==> forall k :: 0 <= k < |cart| && !IsPlaceholder(cart[k]) ==> r.value[k] == cart[k]
    ensures r.Some? ==> forall k :: 0 <= k < |cart| && IsPlaceholder(cart[k]) ==>
      match lookup(cart[k].productId)
      case Found(p) => r.value[k] == Merge(cart[k], p)
      case NotFound => r.value[k] == cart[k]
      case Failed => false
  {
    if cart == [] then Some([])
    else
      match HydrateLine(cart[0], lookup)
      case None => None
      case Some(line) =>
        match Hydrate(cart[1..], lookup)
        case None => None
        case Some(rest) => Some([line] + rest)
  }

  /** Hydration consults the lookup only for placeholder lines: two lookups
      that agree on the placeholders' ids give the same result. */
  lemma {:induction false} LookupOnlyForPlaceholders(cart: seq<Line>, l1: string -> Fetched, l2: string -> Fetched)
    requires forall k :: 0 <= k < |cart| && IsPlaceholder(cart[k]) ==> l1(cart[k].productId) == l2(cart[k].productId)
    ensures Hydrate(cart, l1) == Hydrate(cart, l2)
  {
    if cart != [] {
      assert HydrateLine(cart[0], l1) == HydrateLine(cart[0], l2);
      LookupOnlyForPlaceholders(cart[1..], l1, l2);
    }
  }

  /** Hydrating the hydrated lines again with the same lookup changes
      nothing. */
  lemma {:induction false} HydrateIdempotent(cart: seq<Line>, lookup: string -> Fetched)
    requires Hydrate(cart, lookup).Some?
    ensures Hydrate(Hydrate(cart, lookup).value, lookup) == Hydrate(cart, lookup)
  {
    if cart != [] {
      var rest := Hydrate(cart[1..], lookup);
      HydrateIdempotent(cart[1..], lookup);
      var line := HydrateLine(cart[0], lookup).value;
      assert HydrateLine(line, lookup) == Some(line);
      var d := Hydrate(cart, lookup).value;
      assert d == [line] + rest.value;
      assert d[1..] == rest.value;
    }
  }

  /** Hydration keeps every quantity, so the item count of the details is
      the item count of the cart. */
  lemma {:induction false} HydratePreservesTotalItems(cart: seq<Line>, lookup: string -> Fetched)
    requires Hydrate(cart, lookup).Some?
    ensures GetTotalItems(Hydrate(cart, lookup).value) == GetTotalItems(cart)
  {
    SumQuantitiesPointwise(Hydrate(cart, lookup).value, cart);
  }

  class CartCheckoutPage {
    const shop: Shop
    var loading: bool
    var cartDetails: seq<Line>

    constructor (shop: Shop)
      ensures this.shop == shop && !loading && cartDetails == []
    {
      this.shop := shop;
      loading := false;
      cartDetails := [];
    }

    /** `loadCartDetails`: publishes the hydrated cart, or leaves the details
        as they were when the hydration rejects. */
    method LoadCartDetails(lookup: string -> Fetched)
      modifies this`cartDetails
      ensures Hydrate(shop.cart, lookup).Some? ==> cartDetails == Hydrate(shop.cart, lookup).value
      ensures Hydrate(shop.cart, lookup).None? ==> cartDetails == old(cartDetails)
    {
      var details := Hydrate(shop.cart, lookup);
      if details.Some? {
        cartDetails := details.value;
      }
    }

    /** `handleIncrease`: adds one unit through `addToCart`. */
    method HandleIncrease(item: Line, reply: Reply<CartData>) returns (req: Request)
      modifies this`loading, shop
      ensures req == AddReq(item.productId, 1)
      ensures Snapshot(reply).Some? ==> shop.cart == Snapshot(reply).value
      ensures Snapshot(reply).None? ==> shop.cart == old(shop.cart)
      ensures shop.orders == old(shop.orders) && shop.products == old(shop.products)
      ensures !loading
    {
      loading := true;
      var added;
      added, req := shop.AddToCart(item.productId, 1, reply);
      loading := false;
    }

    /** `handleDecrease`: removes the whole line through `removeFromCart`;
        it does not decrement the quantity. */
    method HandleDecrease(item: Line, reply: Reply<CartData>) returns (req: Request)
      modifies this`loading, shop
      ensures req == RemoveReq(item.productId)
      ensures Snapshot(reply).Some? ==> shop.cart == Snapshot(reply).value
      ensures Snapshot(reply).None? ==> shop.cart == old(shop.cart)
      ensures shop.orders == old(shop.orders) && shop.products == old(shop.products)
      ensures !loading
    {
      loading := true;
      req := shop.RemoveFromCart(item.productId, reply);
      loading := false;
    }

    /** `handleQuantityChange`: a quantity of zero or less makes no call and
        leaves `loading` alone; otherwise `setCartItemQuantity` is called
        with the line's id and the new quantity. */
    method HandleQuantityChange(item: Line, qty: int) returns (call: Option<QuantityCall>)
      modifies this`loading
      ensures qty <= 0 ==> call == None && loading == old(loading)
      ensures qty > 0 ==> call == Some(SetCartItemQuantity(item.productId, qty)) && !loading
    {
      if qty <= 0 {
        return None;
      }
      loading := true;
      call := Some(SetCartItemQuantity(item.productId, qty));
      loading := false;
    }
  }
}
