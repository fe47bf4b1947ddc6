/** The checkout page: the shipping form and the two-phase submit that
    creates an order and then starts an M-Pesa payment for it. */
module Checkout {
  import opened Wrappers
  import opened ShopContext

  /** The options of the apartment `<select>`. */
  const Apartments: seq<string> := ["Apartment A", "Apartment B", "Apartment C", "Apartment D"]

  /** The form's initial state. */
  const InitialShipping: ShippingInfo := ShippingInfo("", "", "Apartment A", "")

  const CreateFailedMessage: string := "Failed to create order. Try again."
  const PlacedMessage: string := "Order placed! Please complete payment on your phone."
  const PaymentFailedMessage: string := "Order created but payment failed. Try again."
  const ErrorMessage: string := "An error occurred. Try again."

  /** The `name` attribute of the form's four inputs. */
  datatype Field = Name | Phone | Apartment | DoorNumber

  function Value(info: ShippingInfo, field: Field): string {
    match field
    case Name => info.name
    case Phone => info.phone
    case Apartment => info.apartment
    case DoorNumber => info.doorNumber
  }

  /** `{...prev, [name]: value}`: the named field takes the new value, every
      other field keeps its old one. */
  function Update(info: ShippingInfo, field: Field, value: string): (r: ShippingInfo)
    ensures Value(r, field) == value
    ensures forall g :: g != field ==> Value(r, g) == Value(info, g)
  {
    match field
    case Name => info.(name := value)
    case Phone => info.(phone := value)
    case Apartment => info.(apartment := value)
    case DoorNumber => info.(doorNumber := value)
  }

  /** The form starts on "Apartment A", the first of exactly four distinct
      options. */
  lemma InitialApartmentAllowed()
    ensures InitialShipping.apartment == Apartments[0]
    ensures |Apartments| == 4
    ensures forall i, j :: 0 <= i < j < |Apartments| ==> Apartments[i] != Apartments[j]
  {
  }

  /** An edit keeps the apartment among the options, provided the select only
      delivers one of its options. */
  lemma ApartmentStaysAllowed(info: ShippingInfo, field: Field, value: string)
    requires info.apartment in Apartments
    requires field == Apartment ==> value in Apartments
    ensures Update(info, field, value).apartment in Apartments
  {
    assert Update(info, field, value).apartment == Value(Update(info, field, value), Apartment);
  }

  class CheckoutPage {
    const shop: Shop
    var shippingInfo: ShippingInfo
    var loading: bool
    var message: string

    constructor (shop: Shop)
      ensures this.shop == shop
      ensures shippingInfo == InitialShipping && !loading && message == ""
    {
      this.shop := shop;
      shippingInfo := InitialShipping;
      loading := false;
      message := "";
    }

    /** `handleChange`: one form field takes the entered value. */
    method HandleChange(field: Field, value: string)
      modifies this`shippingInfo
      ensures shippingInfo == Update(old(shippingInfo), field, value)
    {
      shippingInfo := Update(shippingInfo, field, value);
    }

    /** `handleSubmit`. `calls` lists the context requests made, in order.
        On an empty cart nothing happens; otherwise the order is created,
        payment is attempted only for a created order, the cart is cleared
        through `clearCart` only after a successful payment, and `loading` is
        false again on every exit. */
    method HandleSubmit(createReply: Reply<OrderData>, payReply: Reply<PayData>, clearReply: Reply<()>)
      returns (calls: seq<Request>)
      modifies this`loading, this`message, shop
      ensures old(shop.cart) == [] ==>
        calls == [] && loading == old(loading) && message == old(message) &&
        shop.cart == old(shop.cart) && shop.orders == old(shop.orders)
      ensures old(shop.cart) != [] ==> !loading
      ensures old(shop.cart) != [] && !OrderResult(createReply).success ==>
        calls == [CreateOrderReq("Mpesa", shippingInfo)] && message == CreateFailedMessage
      ensures old(shop.cart) != [] && OrderResult(createReply).success && OrderResult(createReply).order.None? ==>
        calls == [CreateOrderReq("Mpesa", shippingInfo)] && message == ErrorMessage
      ensures old(shop.cart) != [] && OrderResult(createReply).success && OrderResult(createReply).order.Some? ==>
        var pay := StkPushReq(OrderResult(createReply).order.value.id, shippingInfo.phone);
        if PayResult(payReply).success
        then calls == [CreateOrderReq("Mpesa", shippingInfo), pay, ClearReq] && message == PlacedMessage
        else calls == [CreateOrderReq("Mpesa", shippingInfo), pay] && message == PaymentFailedMessage
      ensures old(shop.cart) != [] ==>
        var order := OrderResult(createReply).order;
        (order.Some? ==> shop.orders == [order.value] + old(shop.orders) && shop.cart == []) &&
        (order.None? ==> shop.orders == old(shop.orders) && shop.cart == old(shop.cart))
      ensures ClearReq in calls <==>
        old(shop.cart) != [] && OrderResult(createReply).success &&
        OrderResult(createReply).order.Some? && PayResult(payReply).success
      ensures shop.products == old(shop.products)
    {
      calls := [];
      if |shop.cart| == 0 {
        // alert("Your cart is empty.")
        return;
      }
      loading := true;
      message := "";

      var orderData, req := shop.CreateOrder("Mpesa", shippingInfo, createReply);
      calls := calls + [req];
      if !orderData.success {
        message := CreateFailedMessage;
        loading := false;
        return;
      }
      if orderData.order.None? {
        // reading `orderData.order._id` throws; the catch block reports it
        message := ErrorMessage;
        loading := false;
        return;
      }

      var paymentResponse;
      paymentResponse, req := shop.PayWithMpesa(orderData.order.value.id, shippingInfo.phone, payReply);
      calls := calls + [req];
      if paymentResponse.success {
        message := PlacedMessage;
        req := shop.ClearCart(clearReply);
        calls := calls + [req];
      } else {
        message := PaymentFailedMessage;
      }
      loading := false;
    }
  }
}
