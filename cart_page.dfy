/** The checkout page (client/src/pages/user/CartPage.jsx): the totals it
    shows, when checkout is allowed, the order request it sends and what it
    does with the answer, and which saved address it selects. The server's
    answer is a function parameter. */
module CartPage {
  import opened Common
  import opened Text
  import opened UserModel
  import opened OrderModel
  import opened MedicineModel
  import opened CartProvider
  import Orders
  import UsersRoutes

  /** The total the page shows: the cart subtotal plus the delivery fee
      (free from 499, else 25), the same rule the server charges. */
  function CartTotal(items: seq<CartItem>): (r: real)
    ensures LinesSubtotal(items) >= 499.0 ==> r == LinesSubtotal(items)
    ensures LinesSubtotal(items) < 499.0 ==> r == LinesSubtotal(items) + 25.0
  {
    LinesSubtotal(items) + Orders.DeliveryFee(LinesSubtotal(items))
  }

  /** `canCheckout`: a non-empty cart and an address, either selected or
      saved. */
  predicate CanCheckout(items: seq<CartItem>, addressId: string, savedCount: nat)
  {
    |items| > 0 && (addressId != "" || savedCount > 0)
  }

  /** The order request: one (medicine, qty) line per cart line, in cart
      order, the selected address and payment method, and `mockPaid`. */
  function Payload(items: seq<CartItem>, addressId: string, payment: PaymentMethod): (b: Orders.CheckoutBody)
    ensures |b.items| == |items|
    ensures forall i :: 0 <= i < |items| ==>
      b.items[i].medicineId == items[i].medicineId && b.items[i].qty == items[i].qty
    ensures b.addressId == Some(addressId) && b.paymentMethod == Some(payment) && b.mockPaid == Some(true)
  {
    Orders.CheckoutBody(
      seq(|items|, i requires 0 <= i < |items| => Orders.CartLine(items[i].medicineId, items[i].qty)),
      Some(addressId), Some(payment), Some(true))
  }

  /** What one press of the checkout button leaves behind: the cart, the
      request sent (if any), the page navigated to (if any) and the toast. */
  datatype CheckoutStep = CheckoutStep(
    items: seq<CartItem>,
    request: Option<Orders.CheckoutBody>,
    navigateTo: Option<string>,
    toast: string)

  /** `e?.response?.data?.message || fallback`. */
  function MessageOr(e: Error, fallback: string): string
  {
    if e.message != "" then e.message else fallback
  }

  /** `checkout()`: without `canCheckout` no request is made; otherwise the
      payload is sent, and only an order the server accepted clears the cart
      and opens the order's page. `respond` is the server. */
  function Checkout(items: seq<CartItem>, addressId: string, savedCount: nat, payment: PaymentMethod,
                    respond: Orders.CheckoutBody -> Result<OrderId>): (r: CheckoutStep)
    ensures !CanCheckout(items, addressId, savedCount) ==>
      r == CheckoutStep(items, None, None, "Add an address to checkout")
    ensures CanCheckout(items, addressId, savedCount) ==> r.request == Some(Payload(items, addressId, payment))
    ensures r.navigateTo.Some? <==>
      CanCheckout(items, addressId, savedCount) && respond(Payload(items, addressId, payment)).Ok?
    ensures r.items == if r.navigateTo.Some? then [] else items
    ensures r.navigateTo.Some? ==>
      r.navigateTo.value == "/orders/" + NatToString(respond(Payload(items, addressId, payment)).value)
  {
    if !CanCheckout(items, addressId, savedCount) then CheckoutStep(items, None, None, "Add an address to checkout")
    else
      var payload := Payload(items, addressId, payment);
      match respond(payload)
      case Ok(id) => CheckoutStep([], Some(payload), Some("/orders/" + NatToString(id)), "Order placed!")
      case Err(e) => CheckoutStep(items, Some(payload), None, MessageOr(e, "Checkout failed"))
  }

  /** The address selected when the page loads: the first saved one, or
      none (""). */
  function InitialAddressId(addresses: seq<Address>): (r: string)
    ensures |addresses| > 0 ==> r == addresses[0].id
    ensures |addresses| == 0 ==> r == ""
  {
    if |addresses| > 0 then addresses[0].id else ""
  }

  /** The address selected after one is added: the last of the returned
      list. */
  function SelectAfterAdd(addresses: seq<Address>): (r: string)
    ensures |addresses| > 0 ==> r == addresses[|addresses| - 1].id
    ensures |addresses| == 0 ==> r == ""
  {
    if |addresses| > 0 then addresses[|addresses| - 1].id else ""
  }

  /** After the server appends an address, the page selects exactly that
      new address. */
  lemma AddedAddressIsSelected(users: map<UserId, User>, me: UserId, b: UsersRoutes.AddressBody, id: AddressId)
    requires UsersRoutes.AddAddress(users, me, b, id).1.Ok?
    ensures SelectAfterAdd(UsersRoutes.AddAddress(users, me, b, id).1.value) == id
  {
  }

  /** A selection the page made from the saved list (the first address on
      load, the last after an add) always resolves on the server once the
      page allows checkout: an empty selection falls back to the first
      address, any other names a saved one. */
  lemma SelectionResolves(addresses: seq<Address>, addressId: string)
    requires addressId == InitialAddressId(addresses) || addressId == SelectAfterAdd(addresses)
    requires addressId != "" || |addresses| > 0
    ensures Orders.ResolveAddress(addresses, Some(addressId)).Some?
  {
    if addressId != "" {
      var i := if addressId == InitialAddressId(addresses) then 0 else |addresses| - 1;
      assert addresses[i].id == addressId;
    }
  }

  /** Σ price × qty over order lines that repeat the cart's prices and
      quantities equals the cart subtotal. */
  lemma {:induction false} SubtotalsAgree(items: seq<CartItem>, lines: seq<OrderItem>)
    requires |lines| == |items|
    requires forall i :: 0 <= i < |items| ==> lines[i].price == items[i].price && lines[i].qty == items[i].qty
    ensures Orders.Subtotal(lines) == LinesSubtotal(items)
    decreases |items|
  {
    if items != [] {
      var n := |items| - 1;
      SubtotalsAgree(items[..n], lines[..n]);
    }
  }

  /** When the catalogue still has the prices the cart was filled at, the
      order the server prices from the page's payload has the subtotal and
      total the page showed. */
  lemma ShownTotalIsCharged(items: seq<CartItem>, addressId: string, payment: PaymentMethod, meds: map<MedId, Medicine>)
    requires forall i :: 0 <= i < |items| ==> items[i].medicineId in meds && meds[items[i].medicineId].price == items[i].price
    requires Orders.PriceLines(meds, Payload(items, addressId, payment).items).Ok?
    ensures var priced := Orders.PriceLines(meds, Payload(items, addressId, payment).items).value;
      Orders.Subtotal(priced) == LinesSubtotal(items) &&
      Orders.Subtotal(priced) + Orders.DeliveryFee(Orders.Subtotal(priced)) == CartTotal(items)
  {
    var lines := Payload(items, addressId, payment).items;
    Orders.PriceLinesSpec(meds, lines);
    SubtotalsAgree(items, Orders.PriceLines(meds, lines).value);
  }
}
