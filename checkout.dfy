/** The checkout page (src/pages/CheckoutPage.tsx): shipping, tax and the
    final total derived from the cart total, and the guarded steps of
    `handlePlaceOrder`. The cart (its items, total and `clearCart`) belongs
    to the cart context, which is not part of this model: its items and
    total are inputs and clearing it is modelled as emptying the page's copy. */
module Checkout {
  import opened Models
  import opened Seqs
  import MockApi

  /** `total >= 50 ? 0 : 10`. */
  function Shipping(total: real): (s: real)
    ensures s == 0.0 <==> total >= 50.0
    ensures s == 0.0 || s == 10.0
  {
    if total >= 50.0 then 0.0 else 10.0
  }

  /** `total * 0.08`. */
  function Tax(total: real): real
  {
    total * 0.08
  }

  /** `total + shipping + tax`. */
  function FinalTotal(total: real): real
  {
    total + Shipping(total) + Tax(total)
  }

  /** Below 50 the customer pays 1.08 times the cart plus 10; from 50 on,
      1.08 times the cart. Within each band the final total grows with the
      cart, but crossing 50 lowers it: a 49.00 cart costs 62.92, a 50.00
      cart 54.00. */
  lemma FinalTotalBands(a: real, b: real)
    ensures a < 50.0 ==> FinalTotal(a) == 1.08 * a + 10.0
    ensures a >= 50.0 ==> FinalTotal(a) == 1.08 * a
    ensures a <= b && (b < 50.0 || 50.0 <= a) ==> FinalTotal(a) <= FinalTotal(b)
    ensures FinalTotal(49.0) == 62.92 && FinalTotal(50.0) == 54.0
  {
  }

  /** Any cart just under the threshold pays more than one at it. */
  lemma CrossingThresholdLowersTotal(a: real)
    requires 50.0 - 10.0 / 1.08 < a < 50.0
    ensures FinalTotal(50.0) < FinalTotal(a)
  {
  }

  /** A cart line: a product plus its quantity. */
  datatype CartItem = CartItem(id: string, name: string, price: real, quantity: int, image: string)

  function ToOrderItem(c: CartItem): OrderItem
  {
    OrderItem(c.id, c.name, c.price, c.quantity, c.image)
  }

  /** `items.map(item => ({ productId: item.id, ... }))`. */
  function OrderItems(cart: seq<CartItem>): (r: seq<OrderItem>)
    ensures |r| == |cart|
    ensures forall i :: 0 <= i < |cart| ==>
      r[i].productId == cart[i].id && r[i].name == cart[i].name && r[i].price == cart[i].price &&
      r[i].quantity == cart[i].quantity && r[i].image == cart[i].image
  {
    if cart == [] then [] else [ToOrderItem(cart[0])] + OrderItems(cart[1..])
  }

  /** The four address fields the guard tests; `country` is not one. */
  predicate AddressComplete(a: Address)
  {
    a.street != "" && a.city != "" && a.state != "" && a.zip != ""
  }

  /** The country never decides the guard, and each of the four tested
      fields does. */
  lemma GuardIgnoresCountry(a: Address, country: string)
    ensures AddressComplete(a.(country := country)) == AddressComplete(a)
    ensures !AddressComplete(a.(street := "")) && !AddressComplete(a.(city := ""))
    ensures !AddressComplete(a.(state := "")) && !AddressComplete(a.(zip := ""))
  {
  }

  /** The `orderData` sent to `placeOrder`: the four keys only. */
  function BuildOrderData(userId: string, cartTotal: real, cart: seq<CartItem>, address: Address): MockApi.OrderData
  {
    MockApi.OrderData(userId, FinalTotal(cartTotal), OrderItems(cart), address,
                      None, None, None, None, None, None, None)
  }

  /** The order the backend stores for a checkout carries the user, the
      final total, the cart lines one to one and the address, starts as
      'processing' with only its first timeline step done. */
  lemma CheckoutOrderStored(userId: string, cartTotal: real, cart: seq<CartItem>, address: Address,
                            count: nat, orderDigits: nat, today: string, deliveryDate: string, trackingDigits: nat)
    ensures var o := MockApi.NewOrder(BuildOrderData(userId, cartTotal, cart, address),
                                      count, orderDigits, today, deliveryDate, trackingDigits);
      o.userId == userId && o.total == FinalTotal(cartTotal) && o.shippingAddress == address &&
      |o.items| == |cart| && (forall i :: 0 <= i < |cart| ==> o.items[i].productId == cart[i].id) &&
      o.status == Processing && |o.timeline| == 5 &&
      (forall i :: 0 <= i < 5 ==> (o.timeline[i].completed <==> i == 0))
  {
    MockApi.CheckoutOrderDefaults(userId, FinalTotal(cartTotal), OrderItems(cart), address,
                                  count, orderDigits, today, deliveryDate, trackingDigits);
  }

  const AddressMessage := "Please fill in all shipping address fields"
  const SuccessMessage := "Order placed successfully!"
  const FailureMessage := "Failed to place order"

  /** The page's state: the auth modal flag, the loading flag, the cart's
      lines and the last toast shown. */
  class CheckoutPage {
    var showAuthModal: bool
    var loading: bool
    var cartItems: seq<CartItem>
    var toast: Option<string>

    constructor (cart: seq<CartItem>)
      ensures !showAuthModal && !loading && cartItems == cart && toast == None
    {
      showAuthModal := false;
      loading := false;
      cartItems := cart;
      toast := None;
    }

    /** `handlePlaceOrder`. `sent` is the order data handed to the backend,
        if any; `outcome` is how that call ended; `tracked` is the order
        number the page navigates to. */
    method HandlePlaceOrder(user: Option<User>, shippingInfo: Address, cartTotal: real,
                            outcome: ApiOutcome<Order>)
      returns (sent: Option<MockApi.OrderData>, tracked: Option<string>)
      modifies this
      ensures user.None? ==>
        showAuthModal && sent.None? && tracked.None? &&
        cartItems == old(cartItems) && loading == old(loading) && toast == old(toast)
      ensures user.Some? && !AddressComplete(shippingInfo) ==>
        sent.None? && tracked.None? && toast == Some(AddressMessage) &&
        cartItems == old(cartItems) && loading == old(loading) && showAuthModal == old(showAuthModal)
      ensures user.Some? && AddressComplete(shippingInfo) ==>
        sent == Some(BuildOrderData(user.value.id, cartTotal, old(cartItems), shippingInfo)) &&
        !loading && showAuthModal == old(showAuthModal)
      ensures user.Some? && AddressComplete(shippingInfo) && outcome.Returned? && outcome.response.Ok? ==>
        cartItems == [] && toast == Some(SuccessMessage) && tracked == Some(outcome.response.data.orderNumber)
      ensures user.Some? && AddressComplete(shippingInfo) && !(outcome.Returned? && outcome.response.Ok?) ==>
        cartItems == old(cartItems) && toast == Some(FailureMessage) && tracked.None?
    {
      sent := None;
      tracked := None;
      if user.None? {
        showAuthModal := true;
        return;
      }
      if shippingInfo.street == "" || shippingInfo.city == "" || shippingInfo.state == "" || shippingInfo.zip == "" {
        toast := Some(AddressMessage);
        return;
      }
      loading := true;
      var orderData := BuildOrderData(user.value.id, cartTotal, cartItems, shippingInfo);
      sent := Some(orderData);
      if outcome.Returned? && outcome.response.Ok? {
        cartItems := [];
        toast := Some(SuccessMessage);
        tracked := Some(outcome.response.data.orderNumber);
      } else {
        toast := Some(FailureMessage);
      }
      loading := false;
    }
  }
}
