/** The order document (server/src/models/Order.js): items, timeline, payment,
    courier and the status enum, with the schema's defaults. */
module OrderModel {
  import opened Common
  import opened UserModel

  /** The order-status enum. */
  datatype OrderStatus = Placed | Confirmed | OnWay | Delivered | Cancelled

  /** The enum's spelling, as stored in `status` and in timeline entries. */
  function StatusName(s: OrderStatus): string
  {
    match s
    case Placed => "Placed"
    case Confirmed => "Confirmed"
    case OnWay => "On Way"
    case Delivered => "Delivered"
    case Cancelled => "Cancelled"
  }

  /** Reads a status name; anything outside the enum is rejected. */
  function ParseStatus(s: string): (r: Option<OrderStatus>)
    ensures r.Some? ==> StatusName(r.value) == s
    ensures r.None? ==> forall st: OrderStatus :: StatusName(st) != s
  {
    if s == "Placed" then Some(Placed)
    else if s == "Confirmed" then Some(Confirmed)
    else if s == "On Way" then Some(OnWay)
    else if s == "Delivered" then Some(Delivered)
    else if s == "Cancelled" then Some(Cancelled)
    else None
  }

  /** Distinct statuses have distinct names, and parsing a name gives its
      status back. */
  lemma StatusNameRoundTrip(s: OrderStatus)
    ensures ParseStatus(StatusName(s)) == Some(s)
    ensures forall t: OrderStatus :: StatusName(t) == StatusName(s) ==> t == s
  {
  }

  datatype PaymentStatus = PaymentPending | PaymentPaid | PaymentFailed

  /** An order line: medicine reference, name, price and qty, all required. */
  datatype OrderItem = OrderItem(medicine: MedId, name: string, price: real, qty: int)

  /** A timeline entry; its status is a free string. */
  datatype TimelineEntry = TimelineEntry(status: string, at: Millis)

  datatype Location = Location(lat: real, lng: real)

  datatype Courier = Courier(name: string, phone: string, location: Location)

  datatype Payment = Payment(paymentMethod: PaymentMethod, paymentStatus: PaymentStatus, stripePaymentIntentId: string)

  datatype Order = Order(
    id: OrderId,
    user: UserId,
    items: seq<OrderItem>,
    subtotal: real,
    deliveryFee: real,
    total: real,
    shippingAddress: Address,
    payment: Payment,
    status: OrderStatus,
    timeline: seq<TimelineEntry>,
    courier: Courier,
    etaMinutes: int)

  /** The fields an order is created with; `None` leaves a field to the
      schema default. */
  datatype OrderDraft = OrderDraft(
    user: UserId,
    items: seq<OrderItem>,
    subtotal: real,
    deliveryFee: Option<real>,
    total: real,
    shippingAddress: Address,
    paymentMethod: Option<PaymentMethod>,
    paymentStatus: Option<PaymentStatus>,
    status: Option<OrderStatus>,
    timeline: Option<seq<TimelineEntry>>,
    courierName: Option<string>,
    courierPhone: Option<string>,
    location: Option<Location>,
    etaMinutes: Option<int>)

  function OrDefault<T>(o: Option<T>, d: T): (r: T)
    ensures o.Some? ==> r == o.value
    ensures o.None? ==> r == d
  {
    if o.Some? then o.value else d
  }

  /** Creating an order document from a draft: supplied fields are kept, and
      the schema supplies the rest: delivery fee 25, payment UPI and paid, no
      payment-intent id, status Placed, an empty timeline, courier
      "MediSwift Rider" with no phone at 12.9716, 77.5946, and an ETA of 30
      minutes. */
  function FromDraft(id: OrderId, d: OrderDraft): (o: Order)
    ensures o.id == id && o.user == d.user && o.items == d.items
    ensures o.subtotal == d.subtotal && o.total == d.total && o.shippingAddress == d.shippingAddress
    ensures o.deliveryFee == OrDefault(d.deliveryFee, 25.0)
    ensures o.payment == Payment(OrDefault(d.paymentMethod, UPI), OrDefault(d.paymentStatus, PaymentPaid), "")
    ensures o.status == OrDefault(d.status, Placed)
    ensures o.timeline == OrDefault(d.timeline, [])
    ensures o.courier == Courier(OrDefault(d.courierName, "MediSwift Rider"), OrDefault(d.courierPhone, ""),
                                 OrDefault(d.location, Location(12.9716, 77.5946)))
    ensures o.etaMinutes == OrDefault(d.etaMinutes, 30)
  {
    Order(id, d.user, d.items, d.subtotal,
      OrDefault(d.deliveryFee, 25.0), d.total, d.shippingAddress,
      Payment(OrDefault(d.paymentMethod, UPI), OrDefault(d.paymentStatus, PaymentPaid), ""),
      OrDefault(d.status, Placed), OrDefault(d.timeline, []),
      Courier(OrDefault(d.courierName, "MediSwift Rider"), OrDefault(d.courierPhone, ""),
              OrDefault(d.location, Location(12.9716, 77.5946))),
      OrDefault(d.etaMinutes, 30))
  }

  /** The ledger invariant of an order: its timeline is non-empty and its last
      entry names the current status. */
  predicate StatusMatchesTimeline(o: Order)
  {
    |o.timeline| > 0 && o.timeline[|o.timeline| - 1].status == StatusName(o.status)
  }
}
