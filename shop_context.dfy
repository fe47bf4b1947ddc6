/** The shop context provider: the client's held cart and orders, the
    handlers that replace them from server replies, and the derived totals.
    Prices and quantities are whole KES and whole units (`int`). */
module ShopContext {
  import opened Wrappers

  /** A catalog product document. `quantity` is the product's own stock
      field, when the backend sends one. */
  datatype Product = Product(
    id: string, name: string, price: int, category: string,
    images: seq<string>, quantity: Option<int>)

  /** The `productId` field of a cart item in a server reply: a populated
      product document (its `_id`, `name`, `price`), or `null` when the
      product was deleted. */
  datatype ItemRef = Populated(id: string, name: Option<string>, price: int) | Null

  /** One element of the `items` array of a cart reply. */
  datatype ServerItem = ServerItem(product: ItemRef, quantity: int)

  /** A cart line. The projection of a server item fills the first four
      fields; `category` and `images` are present only on a line that the
      cart page has merged with a full product record. */
  datatype Line = Line(
    productId: string, name: Option<string>, price: int, quantity: int,
    category: Option<string>, images: Option<seq<string>>)

  /** An order as the backend returns it; the client reads only its `_id`. */
  datatype Order = Order(id: string)

  /** The shipping address the checkout form builds and `createOrder` sends. */
  datatype ShippingInfo = ShippingInfo(name: string, phone: string, apartment: string, doorNumber: string)

  /** Body of a cart reply: `success` and the optional `items` array. */
  datatype CartData = CartData(success: bool, items: Option<seq<ServerItem>>)

  /** Body of an order-creation or payment reply. */
  datatype OrderData = OrderData(success: bool, order: Option<Order>)
  datatype PayData = PayData(success: bool)

  /** The POST (or GET) each handler issues; the bearer token it attaches is
      not modelled. */
  datatype Request =
    | FetchProductsReq
    | GetCartReq
    | FetchOrdersReq
    | AddReq(productId: string, quantity: int)
    | RemoveReq(productId: string)
    | UpdateReq(productId: string, quantity: int)
    | ClearReq
    | CreateOrderReq(paymentMethod: string, shippingAddress: ShippingInfo)
    | StkPushReq(orderId: string, phone: string)

  // ---------------------------------------------------------------------
  // Item projection

  /** `l` is the line `{productId: i.productId._id, name, price, quantity}`. */
  ghost predicate ProjectsTo(i: ServerItem, l: Line) {
    i.product.Populated? &&
    l.productId == i.product.id && l.name == i.product.name &&
    l.price == i.product.price && l.quantity == i.quantity &&
    l.category.None? && l.images.None?
  }

  /** `items.map(i => ({...}))`. `None` stands for the TypeError thrown when
      some item's `productId` is null and `._id` is read from it. */
  function Project(items: seq<ServerItem>): (r: Option<seq<Line>>)
    ensures r.Some? <==> forall k :: 0 <= k < |items| ==> items[k].product.Populated?
    ensures r.Some? ==> |r.value| == |items|
    ensures r.Some? ==> forall k :: 0 <= k < |items| ==> ProjectsTo(items[k], r.value[k])
  {
    if items == [] then Some([])
    else
      match items[0].product
      case Null => None
      case Populated(id, name, price) =>
        match Project(items[1..])
        case None => None
        case Some(rest) => Some([Line(id, name, price, items[0].quantity, None, None)] + rest)
  }

  /** The cart a cart-endpoint reply installs: present exactly when the call
      did not throw, `res.data.success && res.data.items` holds and the
      projection does not throw. */
  function Snapshot(reply: Reply<CartData>): Option<seq<Line>> {
    if reply.Answered? && reply.data.success && reply.data.items.Some?
    then Project(reply.data.items.value)
    else None
  }

  /** What `createOrder` returns: the response body, or `{success: false}`
      when the request throws. */
  function OrderResult(reply: Reply<OrderData>): OrderData {
    match reply
    case Answered(data) => data
    case Threw => OrderData(false, None)
  }

  /** What `payWithMpesa` returns, in the same way. */
  function PayResult(reply: Reply<PayData>): PayData {
    match reply
    case Answered(data) => data
    case Threw => PayData(false)
  }

  // ---------------------------------------------------------------------
  // Derived totals

  /** `cart.reduce((sum, item) => sum + item.quantity, sum)`. */
  function ReduceItems(sum: int, cart: seq<Line>): int
    decreases |cart|
  {
    if cart == [] then sum else ReduceItems(sum + cart[0].quantity, cart[1..])
  }

  /** `cart.reduce((sum, item) => sum + item.price * item.quantity, sum)`. */
  function ReducePrice(sum: int, cart: seq<Line>): int
    decreases |cart|
  {
    if cart == [] then sum else ReducePrice(sum + cart[0].price * cart[0].quantity, cart[1..])
  }

  /** Reference definition: the sum of the line quantities. */
  function SumQuantities(cart: seq<Line>): int {
    if cart == [] then 0 else cart[0].quantity + SumQuantities(cart[1..])
  }

  /** Reference definition: the sum of price times quantity over the lines. */
  function SumSubtotals(cart: seq<Line>): int {
    if cart == [] then 0 else cart[0].price * cart[0].quantity + SumSubtotals(cart[1..])
  }

  lemma {:induction false} ReduceItemsIsSum(sum: int, cart: seq<Line>)
    ensures ReduceItems(sum, cart) == sum + SumQuantities(cart)
    decreases |cart|
  {
    if cart != [] {
      ReduceItemsIsSum(sum + cart[0].quantity, cart[1..]);
    }
  }

  lemma {:induction false} ReducePriceIsSum(sum: int, cart: seq<Line>)
    ensures ReducePrice(sum, cart) == sum + SumSubtotals(cart)
    decreases |cart|
  {
    if cart != [] {
      ReducePriceIsSum(sum + cart[0].price * cart[0].quantity, cart[1..]);
    }
  }

  /** `getTotalItems`. */
  function GetTotalItems(cart: seq<Line>): (r: int)
    ensures r == SumQuantities(cart)
    ensures cart == [] ==> r == 0
  {
    ReduceItemsIsSum(0, cart);
    ReduceItems(0, cart)
  }

  /** `getTotalPrice`. */
  function GetTotalPrice(cart: seq<Line>): (r: int)
    ensures r == SumSubtotals(cart)
    ensures cart == [] ==> r == 0
  {
    ReducePriceIsSum(0, cart);
    ReducePrice(0, cart)
  }

  /** The totals of a cart split in two are the sums of the parts' totals. */
  lemma {:induction false} TotalsAppend(a: seq<Line>, b: seq<Line>)
    ensures SumQuantities(a + b) == SumQuantities(a) + SumQuantities(b)
    ensures SumSubtotals(a + b) == SumSubtotals(a) + SumSubtotals(b)
  {
    if a != [] {
      assert (a + b)[1..] == a[1..] + b;
      TotalsAppend(a[1..], b);
    } else {
      assert a + b == b;
    }
  }

  /** The item count depends only on the line quantities. */
  lemma {:induction false} SumQuantitiesPointwise(a: seq<Line>, b: seq<Line>)
    requires |a| == |b|
    requires forall k :: 0 <= k < |a| ==> a[k].quantity == b[k].quantity
    ensures SumQuantities(a) == SumQuantities(b)
  {
    if a != [] {
      SumQuantitiesPointwise(a[1..], b[1..]);
    }
  }

  /** With every quantity at least 1, the item count is at least the number
      of lines, and with non-negative prices the total price is non-negative. */
  lemma {:induction false} TotalsBounds(cart: seq<Line>)
    requires forall k :: 0 <= k < |cart| ==> cart[k].quantity >= 1 && cart[k].price >= 0
    ensures GetTotalItems(cart) >= |cart|
    ensures GetTotalPrice(cart) >= 0
  {
    if cart != [] {
      TotalsBounds(cart[1..]);
      assert cart[0].price * cart[0].quantity >= 0;
    }
  }

  /** The projection installed by a cart reply has the server items'
      quantities, so the item count is the sum of the reply's quantities. */
  lemma {:induction false} ProjectTotalItems(items: seq<ServerItem>)
    requires Project(items).Some?
    ensures GetTotalItems(Project(items).value) == SumItemQuantities(items)
  {
    if items != [] {
      ProjectTotalItems(items[1..]);
    }
  }

  /** The sum of the quantities of a reply's items. */
  function SumItemQuantities(items: seq<ServerItem>): int {
    if items == [] then 0 else items[0].quantity + SumItemQuantities(items[1..])
  }

  // ---------------------------------------------------------------------
  // The context's state and its handlers

  class Shop {
    var products: seq<Product>
    var cart: seq<Line>
    var orders: seq<Order>

    constructor ()
      ensures products == [] && cart == [] && orders == []
    {
      products, cart, orders := [], [], [];
    }

    /** `fetchProducts`: installs `res.data.products` when present. */
    method FetchProducts(reply: Reply<Option<seq<Product>>>) returns (req: Request)
      modifies this
      ensures req == FetchProductsReq
      ensures reply.Answered? && reply.data.Some? ==> products == reply.data.value
      ensures !(reply.Answered? && reply.data.Some?) ==> products == old(products)
      ensures cart == old(cart) && orders == old(orders)
    {
      req := FetchProductsReq;
      if reply.Answered? && reply.data.Some? {
        products := reply.data.value;
      }
    }

    /** `myCart`: installs the server cart, and the empty cart on every
        other outcome. */
    method MyCart(reply: Reply<CartData>) returns (req: Request)
      modifies this
      ensures req == GetCartReq
      ensures Snapshot(reply).Some? ==> cart == Snapshot(reply).value
      ensures Snapshot(reply).None? ==> cart == []
      ensures products == old(products) && orders == old(orders)
    {
      req := GetCartReq;
      if reply.Threw? {
        cart := [];
      } else if reply.data.success && reply.data.items.Some? {
        var lines := Project(reply.data.items.value);
        if lines.Some? {
          cart := lines.value;
        } else {
          // the projection threw; the catch block empties the cart
          cart := [];
        }
      } else {
        cart := [];
      }
    }

    /** `fetchOrders`: installs the body whenever one is present. */
    method FetchOrders(reply: Reply<Option<seq<Order>>>) returns (req: Request)
      modifies this
      ensures req == FetchOrdersReq
      ensures reply.Answered? && reply.data.Some? ==> orders == reply.data.value
      ensures !(reply.Answered? && reply.data.Some?) ==> orders == old(orders)
      ensures products == old(products) && cart == old(cart)
    {
      req := FetchOrdersReq;
      if reply.Answered? && reply.data.Some? {
        orders := reply.data.value;
      }
    }

    /** `addToCart(productId, quantity)`: true exactly when the reply's cart
        was installed; otherwise the cart is left as it was. */
    method AddToCart(productId: string, quantity: int, reply: Reply<CartData>) returns (ok: bool, req: Request)
      modifies this
      ensures req == AddReq(productId, quantity)
      ensures ok <==> Snapshot(reply).Some?
      ensures ok ==> cart == Snapshot(reply).value
      ensures !ok ==> cart == old(cart)
      ensures products == old(products) && orders == old(orders)
    {
      req := AddReq(productId, quantity);
      ok := false;
      if reply.Answered? && reply.data.success && reply.data.items.Some? {
        var lines := Project(reply.data.items.value);
        if lines.Some? {
          cart := lines.value;
          ok := true;
        }
      }
    }

    /** `removeFromCart(productId)`: installs the reply's cart, or leaves the
        cart as it was. */
    method RemoveFromCart(productId: string, reply: Reply<CartData>) returns (req: Request)
      modifies this
      ensures req == RemoveReq(productId)
      ensures Snapshot(reply).Some? ==> cart == Snapshot(reply).value
      ensures Snapshot(reply).None? ==> cart == old(cart)
      ensures products == old(products) && orders == old(orders)
    {
      req := RemoveReq(productId);
      if reply.Answered? && reply.data.success && reply.data.items.Some? {
        var lines := Project(reply.data.items.value);
        if lines.Some? {
          cart := lines.value;
        }
      }
    }

    /** `clearCart`: empties the cart unless the request throws. */
    method ClearCart(reply: Reply<()>) returns (req: Request)
      modifies this
      ensures req == ClearReq
      ensures reply.Answered? ==> cart == []
      ensures reply.Threw? ==> cart == old(cart)
      ensures products == old(products) && orders == old(orders)
    {
      req := ClearReq;
      if reply.Answered? {
        cart := [];
      }
    }

    /** `updateCartItemQuantity(productId, quantity)`: a quantity of zero or
        less is the remove request, with removeFromCart's effect. */
    method UpdateCartItemQuantity(productId: string, quantity: int, reply: Reply<CartData>) returns (req: Request)
      modifies this
      ensures quantity <= 0 ==> req == RemoveReq(productId)
      ensures quantity > 0 ==> req == UpdateReq(productId, quantity)
      ensures Snapshot(reply).Some? ==> cart == Snapshot(reply).value
      ensures Snapshot(reply).None? ==> cart == old(cart)
      ensures products == old(products) && orders == old(orders)
    {
      if quantity <= 0 {
        req := RemoveFromCart(productId, reply);
        return;
      }
      req := UpdateReq(productId, quantity);
      if reply.Answered? && reply.data.success && reply.data.items.Some? {
        var lines := Project(reply.data.items.value);
        if lines.Some? {
          cart := lines.value;
        }
      }
    }

    /** `createOrder(paymentMethod, shippingAddress)`: a reply carrying an
        order puts it in front of the held orders and empties the cart,
        whatever its `success` says. */
    method CreateOrder(paymentMethod: string, shippingAddress: ShippingInfo, reply: Reply<OrderData>)
      returns (data: OrderData, req: Request)
      modifies this
      ensures req == CreateOrderReq(paymentMethod, shippingAddress)
      ensures reply.Answered? ==> data == reply.data
      ensures reply.Threw? ==> data == OrderData(false, None)
      ensures data.order.Some? ==> orders == [data.order.value] + old(orders) && cart == []
      ensures data.order.None? ==> orders == old(orders) && cart == old(cart)
      ensures products == old(products)
    {
      req := CreateOrderReq(paymentMethod, shippingAddress);
      if reply.Threw? {
        data := OrderData(false, None);
        return;
      }
      data := reply.data;
      if data.order.Some? {
        orders := [data.order.value] + orders;
        cart := [];
      }
    }

    /** `payWithMpesa(orderId, phone)`: the STK push request; returns the
        body, or `{success: false}` when the request throws. */
    method PayWithMpesa(orderId: string, phone: string, reply: Reply<PayData>) returns (data: PayData, req: Request)
      ensures req == StkPushReq(orderId, phone)
      ensures reply.Answered? ==> data == reply.data
      ensures reply.Threw? ==> !data.success
    {
      req := StkPushReq(orderId, phone);
      match reply
      case Answered(d) => data := d;
      case Threw => data := PayData(false);
    }

    /** The initial load: products, then the cart, then the orders. */
    method Init(productsReply: Reply<Option<seq<Product>>>, cartReply: Reply<CartData>,
                ordersReply: Reply<Option<seq<Order>>>) returns (reqs: seq<Request>)
      modifies this
      ensures reqs == [FetchProductsReq, GetCartReq, FetchOrdersReq]
      ensures productsReply.Answered? && productsReply.data.Some? ==> products == productsReply.data.value
      ensures !(productsReply.Answered? && productsReply.data.Some?) ==> products == old(products)
      ensures Snapshot(cartReply).Some? ==> cart == Snapshot(cartReply).value
      ensures Snapshot(cartReply).None? ==> cart == []
      ensures ordersReply.Answered? && ordersReply.data.Some? ==> orders == ordersReply.data.value
      ensures !(ordersReply.Answered? && ordersReply.data.Some?) ==> orders == old(orders)
    {
      var r1 := FetchProducts(productsReply);
      var r2 := MyCart(cartReply);
      var r3 := FetchOrders(ordersReply);
      reqs := [r1, r2, r3];
    }
  }
}
