/** The order routes (server/src/routes/orders.routes.js): checkout, reading an
    order and its tracking snapshot, status changes through the timeline, and
    courier updates. Each handler is one sequential method over the stores it
    touches; the socket notifications it sends are returned as a sequence of
    (topic, event) pairs. */
module Orders {
  import opened Common
  import opened Text
  import opened Seqs
  import opened UserModel
  import opened MedicineModel
  import opened OrderModel
  import AuthMiddleware

  // ---------------------------------------------------------------------------
  // Notifications

  /** A socket room: `order:<id>` or `user:<id>`. */
  datatype Topic = OrderRoom(orderId: OrderId) | UserRoom(userId: UserId)

  function TopicName(t: Topic): (r: string)
    ensures StartsWith(r, if t.OrderRoom? then "order:" else "user:")
  {
    match t
    case OrderRoom(id) => "order:" + NatToString(id)
    case UserRoom(id) => "user:" + NatToString(id)
  }

  /** The payloads of `order:new`, `order:update` (with the timeline only on
      the order's own room) and `order:track`. */
  datatype Event =
    | OrderNew(newOrderId: OrderId)
    | OrderUpdate(updatedOrderId: OrderId, status: string, timeline: Option<seq<TimelineEntry>>)
    | OrderTrack(trackedOrderId: OrderId, courier: Courier, etaMinutes: int)

  function EventName(e: Event): string
  {
    match e
    case OrderNew(_) => "order:new"
    case OrderUpdate(_, _, _) => "order:update"
    case OrderTrack(_, _, _) => "order:track"
  }

  datatype Emit = Emit(topic: Topic, event: Event)

  // ---------------------------------------------------------------------------
  // The orders collection

  /** Every stored order is filed under its id, below the next fresh id, and
      keeps its status equal to the last timeline entry. */
  predicate OrdersValid(orders: map<OrderId, Order>, nextId: OrderId)
  {
    forall id :: id in orders ==> orders[id].id == id && id < nextId && StatusMatchesTimeline(orders[id])
  }

  class OrderStore {
    var orders: map<OrderId, Order>
    var nextId: OrderId

    ghost predicate Valid()
      reads this
    {
      OrdersValid(orders, nextId)
    }

    constructor ()
      ensures Valid() && orders == map[] && nextId == 0
    {
      orders := map[];
      nextId := 0;
    }

    /** Saves `order` under the next id. */
    method Insert(order: Order)
      requires Valid() && order.id == nextId && StatusMatchesTimeline(order)
      modifies this
      ensures Valid()
      ensures orders == old(orders)[old(nextId) := order] && nextId == old(nextId) + 1
    {
      orders := orders[nextId := order];
      nextId := nextId + 1;
    }
  }

  // ---------------------------------------------------------------------------
  // pushTimeline

  /** `pushTimeline(order, status)`: appends one (status, at) entry and sets
      the status to it. */
  function PushTimeline(o: Order, s: OrderStatus, at: Millis): (r: Order)
    ensures StatusMatchesTimeline(r)
    ensures |r.timeline| == |o.timeline| + 1 && r.timeline[..|o.timeline|] == o.timeline
    ensures r.timeline[|o.timeline|] == TimelineEntry(StatusName(s), at)
    ensures r.status == s
    ensures r.(status := o.status, timeline := o.timeline) == o
  {
    o.(timeline := o.timeline + [TimelineEntry(StatusName(s), at)], status := s)
  }

  // ---------------------------------------------------------------------------
  // Checkout: request body

  /** One requested cart line. */
  datatype CartLine = CartLine(medicineId: MedId, qty: int)

  /** The checkout body; `mockPaid` absent means true. */
  datatype CheckoutBody = CheckoutBody(
    items: seq<CartLine>,
    addressId: Option<string>,
    paymentMethod: Option<PaymentMethod>,
    mockPaid: Option<bool>)

  /** `createSchema`: 1 to 50 lines, each qty an integer in 1..20. */
  predicate CheckoutBodyValid(b: CheckoutBody)
  {
    1 <= |b.items| <= 50 && forall i :: 0 <= i < |b.items| ==> 1 <= b.items[i].qty <= 20
  }

  /** The request body failed its schema. */
  const ValidationFailed: Error := Error(400, "Validation failed")

  /** The delivery address: the address with the given id when a non-empty id
      is sent, otherwise the first saved address. */
  function ResolveAddress(addresses: seq<Address>, addressId: Option<string>): (r: Option<Address>)
    ensures addressId.Some? && addressId.value != "" ==>
      (r.Some? <==> exists i :: 0 <= i < |addresses| && addresses[i].id == addressId.value)
    ensures addressId.Some? && addressId.value != "" && r.Some? ==>
      r.value in addresses && r.value.id == addressId.value
    ensures (addressId.None? || addressId.value == "") ==>
      r == if |addresses| > 0 then Some(addresses[0]) else None
  {
    if addressId.Some? && addressId.value != "" then
      match FindIndex(addresses, (a: Address) => a.id == addressId.value)
      case Some(i) => Some(addresses[i])
      case None => None
    else if |addresses| > 0 then Some(addresses[0])
    else None
  }

  const NoAddress: Error := Error(400, "Add an address before checkout")
  const InvalidMedicine: Error := Error(400, "Invalid medicine in cart")

  // ---------------------------------------------------------------------------
  // Checkout: validation and pricing

  /** A line passes validation: the medicine exists and has enough stock. */
  predicate LineOk(meds: map<MedId, Medicine>, line: CartLine)
  {
    line.medicineId in meds && meds[line.medicineId].stock >= line.qty
  }

  /** The order line a valid cart line becomes. */
  function ItemFor(meds: map<MedId, Medicine>, line: CartLine): (r: OrderItem)
    requires line.medicineId in meds
    ensures r.medicine == line.medicineId && r.qty == line.qty
  {
    var m := meds[line.medicineId];
    OrderItem(line.medicineId, m.name, m.price, line.qty)
  }

  /** The check of one line against the catalogue as it stood before any
      decrement: 400 for an unknown medicine, 409 for too little stock. */
  function CheckLine(meds: map<MedId, Medicine>, line: CartLine): (r: Result<OrderItem>)
    ensures r.Ok? <==> LineOk(meds, line)
    ensures r.Ok? ==> r.value == ItemFor(meds, line)
    ensures line.medicineId !in meds ==> r == Err(InvalidMedicine)
    ensures line.medicineId in meds && !LineOk(meds, line) ==>
      r == Err(Error(409, "Insufficient stock for " + meds[line.medicineId].name))
  {
    if line.medicineId !in meds then Err(InvalidMedicine)
    else if meds[line.medicineId].stock < line.qty then
      Err(Error(409, "Insufficient stock for " + meds[line.medicineId].name))
    else Ok(ItemFor(meds, line))
  }

  /** The validation loop: the order lines, or the first line's error. */
  function PriceLines(meds: map<MedId, Medicine>, lines: seq<CartLine>): Result<seq<OrderItem>>
    decreases |lines|
  {
    if lines == [] then Ok([])
    else
      match PriceLines(meds, lines[..|lines| - 1])
      case Err(e) => Err(e)
      case Ok(prev) =>
        match CheckLine(meds, lines[|lines| - 1])
        case Err(e) => Err(e)
        case Ok(item) => Ok(prev + [item])
  }

  /** Validation succeeds iff every line passes, and then yields one order
      line per cart line, in cart order; otherwise the error is that of the
      first failing line. */
  lemma {:induction false} PriceLinesSpec(meds: map<MedId, Medicine>, lines: seq<CartLine>)
    ensures PriceLines(meds, lines).Ok? <==> forall i :: 0 <= i < |lines| ==> LineOk(meds, lines[i])
    ensures PriceLines(meds, lines).Ok? ==>
      |PriceLines(meds, lines).value| == |lines| &&
      forall i :: 0 <= i < |lines| ==> PriceLines(meds, lines).value[i] == ItemFor(meds, lines[i])
    ensures PriceLines(meds, lines).Err? ==>
      exists i :: 0 <= i < |lines| && (forall j :: 0 <= j < i ==> LineOk(meds, lines[j])) &&
        CheckLine(meds, lines[i]) == Err(PriceLines(meds, lines).error)
    decreases |lines|
  {
    if lines != [] {
      var init := lines[..|lines| - 1];
      PriceLinesSpec(meds, init);
      assert forall i :: 0 <= i < |init| ==> init[i] == lines[i];
      match PriceLines(meds, init)
      case Err(e) => {
        var i :| 0 <= i < |init| && (forall j :: 0 <= j < i ==> LineOk(meds, init[j])) &&
          CheckLine(meds, init[i]) == Err(e);
        assert !LineOk(meds, lines[i]);
      }
      case Ok(prev) => {
        var n := |lines| - 1;
        if !LineOk(meds, lines[n]) {
          assert CheckLine(meds, lines[n]) == Err(PriceLines(meds, lines).error);
        }
      }
    }
  }

  /** Σ price × qty over the order lines. */
  function Subtotal(items: seq<OrderItem>): real
    decreases |items|
  {
    if items == [] then 0.0
    else Subtotal(items[..|items| - 1]) + items[|items| - 1].price * items[|items| - 1].qty as real
  }

  lemma {:induction false} SubtotalNonNegative(items: seq<OrderItem>)
    requires forall i :: 0 <= i < |items| ==> items[i].price >= 0.0 && items[i].qty >= 0
    ensures Subtotal(items) >= 0.0
    decreases |items|
  {
    if items != [] {
      SubtotalNonNegative(items[..|items| - 1]);
      var last := items[|items| - 1];
      assert last.price * last.qty as real >= 0.0;
    }
  }

  /** Delivery is free from a subtotal of 499, otherwise it costs 25. */
  function DeliveryFee(subtotal: real): (r: real)
    ensures r == 0.0 <==> subtotal >= 499.0
    ensures r == 0.0 || r == 25.0
  {
    if subtotal >= 499.0 then 0.0 else 25.0
  }

  /** `Math.round`: the nearest integer, halves rounded up. */
  function JsRound(x: real): (r: int)
    ensures r as real - 0.5 <= x < r as real + 0.5
  {
    (x + 0.5).Floor
  }

  /** The estimated delivery time: 12 minutes plus one per 80 of subtotal,
      rounded and clamped to [12, 45]. */
  function EtaMinutes(subtotal: real): (r: int)
    ensures 12 <= r <= 45
    ensures 12 <= JsRound(12.0 + subtotal / 80.0) <= 45 ==> r == JsRound(12.0 + subtotal / 80.0)
    ensures JsRound(12.0 + subtotal / 80.0) > 45 ==> r == 45
    ensures JsRound(12.0 + subtotal / 80.0) < 12 ==> r == 12
  {
    var e := JsRound(12.0 + subtotal / 80.0);
    if e > 45 then 45 else if e < 12 then 12 else e
  }

  // ---------------------------------------------------------------------------
  // Checkout: the guarded decrement

  /** `updateOne({_id, stock: {$gte: qty}}, {$inc: {stock: -qty}})`: applies
      only when the medicine exists and has at least `qty` in stock. */
  function DecrementOne(meds: map<MedId, Medicine>, line: CartLine): (r: map<MedId, Medicine>)
    ensures r.Keys == meds.Keys
    ensures forall id :: id in meds && id != line.medicineId ==> r[id] == meds[id]
    ensures LineOk(meds, line) ==>
      r[line.medicineId] == meds[line.medicineId].(stock := meds[line.medicineId].stock - line.qty)
    ensures !LineOk(meds, line) ==> r == meds
  {
    if LineOk(meds, line) then
      meds[line.medicineId := meds[line.medicineId].(stock := meds[line.medicineId].stock - line.qty)]
    else meds
  }

  /** The decrement loop, line by line in cart order. */
  function Decrement(meds: map<MedId, Medicine>, lines: seq<CartLine>): map<MedId, Medicine>
    decreases |lines|
  {
    if lines == [] then meds
    else DecrementOne(Decrement(meds, lines[..|lines| - 1]), lines[|lines| - 1])
  }

  /** No decrement makes a stock negative, ids and keys are kept, and only
      stocks change. */
  lemma {:induction false} DecrementKeepsCatalogValid(meds: map<MedId, Medicine>, lines: seq<CartLine>)
    requires CatalogValid(meds)
    ensures CatalogValid(Decrement(meds, lines))
    ensures Decrement(meds, lines).Keys == meds.Keys
    ensures forall id :: id in meds ==> Decrement(meds, lines)[id].(stock := meds[id].stock) == meds[id]
    decreases |lines|
  {
    if lines != [] {
      DecrementKeepsCatalogValid(meds, lines[..|lines| - 1]);
    }
  }

  /** Total quantity the lines ask of medicine `id`. */
  function Requested(lines: seq<CartLine>, id: MedId): int
    decreases |lines|
  {
    if lines == [] then 0
    else Requested(lines[..|lines| - 1], id) + (if lines[|lines| - 1].medicineId == id then lines[|lines| - 1].qty else 0)
  }

  lemma {:induction false} RequestedNonNegative(lines: seq<CartLine>, id: MedId)
    requires forall i :: 0 <= i < |lines| ==> lines[i].qty >= 0
    ensures Requested(lines, id) >= 0
    decreases |lines|
  {
    if lines != [] {
      RequestedNonNegative(lines[..|lines| - 1], id);
    }
  }

  /** When every medicine has stock for everything the cart asks of it, every
      guarded decrement applies, and each stock falls by exactly the quantity
      requested. */
  lemma {:induction false} DecrementExact(meds: map<MedId, Medicine>, lines: seq<CartLine>)
    requires forall i :: 0 <= i < |lines| ==> lines[i].qty >= 0 && lines[i].medicineId in meds
    requires forall id :: id in meds ==> Requested(lines, id) <= meds[id].stock
    ensures Decrement(meds, lines).Keys == meds.Keys
    ensures forall id :: id in meds ==>
      Decrement(meds, lines)[id] == meds[id].(stock := meds[id].stock - Requested(lines, id))
    decreases |lines|
  {
    if lines != [] {
      var init := lines[..|lines| - 1];
      var last := lines[|lines| - 1];
      forall id | id in meds ensures Requested(init, id) <= meds[id].stock {
        assert Requested(lines, id) == Requested(init, id) + (if last.medicineId == id then last.qty else 0);
      }
      DecrementExact(meds, init);
      var mid := Decrement(meds, init);
      assert mid[last.medicineId].stock == meds[last.medicineId].stock - Requested(init, last.medicineId);
      assert LineOk(mid, last);
    }
  }

  /** A cart that names the same medicine twice passes validation line by
      line against the unchanged stock, yet the second guarded decrement does
      nothing: with 3 in stock and two lines of 2, the order records 4 units
      while stock only falls to 1. */
  lemma DuplicateLineOversells(m: Medicine)
    requires m.id == 0 && m.stock == 3
    ensures var meds := map[0 := m];
      var lines := [CartLine(0, 2), CartLine(0, 2)];
      PriceLines(meds, lines).Ok? &&
      PriceLines(meds, lines).value == [ItemFor(meds, lines[0]), ItemFor(meds, lines[1])] &&
      PriceLines(meds, lines).value[0].qty + PriceLines(meds, lines).value[1].qty == 4 &&
      0 in Decrement(meds, lines) && Decrement(meds, lines)[0].stock == 1
  {
    var meds := map[0 := m];
    var lines := [CartLine(0, 2), CartLine(0, 2)];
    assert lines[..1] == [CartLine(0, 2)];
    assert lines[..1][..0] == [];
    assert Decrement(meds, lines[..1][..0]) == meds;
    var once := Decrement(meds, lines[..1]);
    assert once == DecrementOne(meds, lines[0]);
    assert once[0].stock == 1;
    assert !LineOk(once, lines[1]);
    assert Decrement(meds, lines) == DecrementOne(once, lines[1]) == once;
    PriceLinesSpec(meds, lines);
  }

  // ---------------------------------------------------------------------------
  // Checkout

  /** The order checkout creates, once address and lines are resolved. */
  function NewOrder(id: OrderId, me: User, address: Address, items: seq<OrderItem>, body: CheckoutBody, now: Millis): (o: Order)
    ensures o.id == id && o.user == me.id && o.items == items && o.shippingAddress == address
    ensures o.status == Placed && o.timeline == [TimelineEntry("Placed", now)] && StatusMatchesTimeline(o)
    ensures o.deliveryFee == DeliveryFee(o.subtotal) && o.total == o.subtotal + o.deliveryFee
    ensures o.subtotal == Subtotal(items) && 12 <= o.etaMinutes <= 45
    ensures o.payment.paymentMethod == (if body.paymentMethod.Some? then body.paymentMethod.value else me.defaultPaymentMethod)
    ensures o.payment.paymentStatus == (if body.mockPaid == Some(false) then PaymentPending else PaymentPaid)
    ensures o.courier == Courier("MedoSwift Rider", "", Location(address.lat + 0.01, address.lng - 0.01))
  {
    var subtotal := Subtotal(items);
    var fee := DeliveryFee(subtotal);
    var pm := if body.paymentMethod.Some? then body.paymentMethod.value else me.defaultPaymentMethod;
    var paid := if body.mockPaid.Some? then body.mockPaid.value else true;
    FromDraft(id, OrderDraft(
      me.id, items, subtotal, Some(fee), subtotal + fee, address,
      Some(pm), Some(if paid then PaymentPaid else PaymentPending),
      Some(Placed), Some([TimelineEntry(StatusName(Placed), now)]),
      Some("MedoSwift Rider"), Some(""),
      Some(Location(address.lat + 0.01, address.lng - 0.01)),
      Some(EtaMinutes(subtotal))))
  }

  /** The outcome of POST `/` for a caller `me`: the role gate, the body
      schema, the address, then the lines; on success the new order. */
  function CheckoutResult(meds: map<MedId, Medicine>, me: User, body: CheckoutBody, id: OrderId, now: Millis): (r: Result<Order>)
    ensures r.Ok? <==>
      me.role == UserRole && CheckoutBodyValid(body) &&
      ResolveAddress(me.addresses, body.addressId).Some? &&
      forall i :: 0 <= i < |body.items| ==> LineOk(meds, body.items[i])
    ensures me.role != UserRole ==> r == Err(AuthMiddleware.Forbidden)
    ensures me.role == UserRole && !CheckoutBodyValid(body) ==> r == Err(ValidationFailed)
    ensures me.role == UserRole && CheckoutBodyValid(body) && ResolveAddress(me.addresses, body.addressId).None? ==>
      r == Err(NoAddress)
    ensures r.Err? ==> r.error.status in {400, 403, 409}
    ensures r.Ok? ==> r.value.user == me.id && r.value.status == Placed && StatusMatchesTimeline(r.value)
    ensures r.Ok? ==> (|r.value.items| == |body.items| &&
      forall i :: 0 <= i < |body.items| ==> r.value.items[i] == ItemFor(meds, body.items[i]))
    ensures r.Ok? ==> r.value.total == r.value.subtotal + DeliveryFee(r.value.subtotal) && 12 <= r.value.etaMinutes <= 45
  {
    PriceLinesSpec(meds, body.items);
    if AuthMiddleware.RequireRole(Some(me.role), [UserRole]).Err? then Err(AuthMiddleware.Forbidden)
    else if !CheckoutBodyValid(body) then Err(ValidationFailed)
    else
      match ResolveAddress(me.addresses, body.addressId)
      case None => Err(NoAddress)
      case Some(address) =>
        match PriceLines(meds, body.items)
        case Err(e) => Err(e)
        case Ok(items) => Ok(NewOrder(id, me, address, items, body, now))
  }

  /** Once the lines before `i` pass, the first failing line decides the
      error of the whole validation. */
  lemma {:induction false} PriceLinesFirstError(meds: map<MedId, Medicine>, lines: seq<CartLine>, i: nat)
    requires i < |lines| && PriceLines(meds, lines[..i]).Ok? && CheckLine(meds, lines[i]).Err?
    ensures PriceLines(meds, lines) == Err(CheckLine(meds, lines[i]).error)
    decreases |lines|
  {
    var init := lines[..|lines| - 1];
    if |lines| == i + 1 {
      assert init == lines[..i];
    } else {
      assert init[..i] == lines[..i];
      assert init[i] == lines[i];
      PriceLinesFirstError(meds, init, i);
    }
  }

  /** The validation loop of checkout (lines 80-92): each line is looked up in
      the catalogue as it stands; the first unknown medicine or short stock
      ends the request. Nothing is changed. */
  method ValidateLines(catalog: Catalog, lines: seq<CartLine>) returns (r: Result<seq<OrderItem>>)
    ensures r == PriceLines(catalog.meds, lines)
  {
    var orderItems: seq<OrderItem> := [];
    var i := 0;
    while i < |lines|
      invariant 0 <= i <= |lines|
      invariant PriceLines(catalog.meds, lines[..i]) == Ok(orderItems)
    {
      var line := lines[i];
      assert lines[..i + 1][..i] == lines[..i];
      if line.medicineId !in catalog.meds {
        PriceLinesFirstError(catalog.meds, lines, i);
        return Err(InvalidMedicine);
      }
      var med := catalog.meds[line.medicineId];
      if med.stock < line.qty {
        PriceLinesFirstError(catalog.meds, lines, i);
        return Err(Error(409, "Insufficient stock for " + med.name));
      }
      orderItems := orderItems + [OrderItem(line.medicineId, med.name, med.price, line.qty)];
      i := i + 1;
    }
    assert lines[..i] == lines;
    r := Ok(orderItems);
  }

  /** The decrement loop of checkout (lines 95-97): one guarded decrement per
      line, in cart order. */
  method ApplyDecrements(catalog: Catalog, lines: seq<CartLine>)
    modifies catalog
    ensures catalog.meds == Decrement(old(catalog.meds), lines)
    ensures catalog.nextId == old(catalog.nextId)
  {
    ghost var meds0 := catalog.meds;
    var j := 0;
    while j < |lines|
      invariant 0 <= j <= |lines|
      invariant catalog.meds == Decrement(meds0, lines[..j])
      invariant catalog.nextId == old(catalog.nextId)
    {
      assert lines[..j + 1][..j] == lines[..j];
      var line := lines[j];
      if line.medicineId in catalog.meds && catalog.meds[line.medicineId].stock >= line.qty {
        var med := catalog.meds[line.medicineId];
        catalog.meds := catalog.meds[line.medicineId := med.(stock := med.stock - line.qty)];
      }
      j := j + 1;
    }
    assert lines[..j] == lines;
  }

  /** POST `/`: checks every line before touching any stock, then runs the
      guarded decrements, stores the order and notifies `user:<id>`. A failed
      checkout changes nothing. */
  method Checkout(catalog: Catalog, store: OrderStore, me: User, body: CheckoutBody, now: Millis)
    returns (res: Result<Order>, emits: seq<Emit>)
    requires catalog.Valid() && store.Valid()
    modifies catalog, store
    ensures catalog.Valid() && store.Valid()
    ensures res == CheckoutResult(old(catalog.meds), me, body, old(store.nextId), now)
    ensures res.Ok? ==>
      catalog.meds == Decrement(old(catalog.meds), body.items) &&
      store.orders == old(store.orders)[old(store.nextId) := res.value] &&
      store.nextId == old(store.nextId) + 1 &&
      emits == [Emit(UserRoom(me.id), OrderNew(res.value.id))]
    ensures res.Err? ==>
      catalog.meds == old(catalog.meds) && store.orders == old(store.orders) &&
      store.nextId == old(store.nextId) && emits == []
  {
    emits := [];
    ghost var meds0 := catalog.meds;
    PriceLinesSpec(meds0, body.items);
    var gate := AuthMiddleware.RequireRole(Some(me.role), [UserRole]);
    if gate.Err? {
      return Err(gate.error), [];
    }
    if !CheckoutBodyValid(body) {
      return Err(ValidationFailed), [];
    }
    var address := ResolveAddress(me.addresses, body.addressId);
    if address.None? {
      return Err(NoAddress), [];
    }

    var priced := ValidateLines(catalog, body.items);
    if priced.Err? {
      return Err(priced.error), [];
    }
    ApplyDecrements(catalog, body.items);
    DecrementKeepsCatalogValid(meds0, body.items);

    var order := NewOrder(store.nextId, me, address.value, priced.value, body, now);
    assert CheckoutResult(meds0, me, body, store.nextId, now) == Ok(order);
    store.Insert(order);
    res := Ok(order);
    emits := [Emit(UserRoom(me.id), OrderNew(order.id))];
  }

  // ---------------------------------------------------------------------------
  // Reading an order

  const OrderNotFound: Error := Error(404, "Order not found")

  /** GET `/:id`: 404 for an unknown order, 403 unless the caller owns it or
      is an admin. */
  function GetOrder(orders: map<OrderId, Order>, me: User, id: OrderId): (r: Result<Order>)
    ensures r.Ok? <==> id in orders && (orders[id].user == me.id || me.role == AdminRole)
    ensures r.Ok? ==> r.value == orders[id]
    ensures id !in orders ==> r == Err(OrderNotFound)
    ensures id in orders && !r.Ok? ==> r == Err(AuthMiddleware.Forbidden)
  {
    if id !in orders then Err(OrderNotFound)
    else if !(orders[id].user == me.id || me.role == AdminRole) then Err(AuthMiddleware.Forbidden)
    else Ok(orders[id])
  }

  /** The tracking snapshot of GET `/:id/track`. */
  datatype TrackSnapshot = TrackSnapshot(
    status: OrderStatus,
    timeline: seq<TimelineEntry>,
    courier: Courier,
    etaMinutes: int,
    shippingAddress: Address)

  /** GET `/:id/track`: the same access rule as GET `/:id`; the snapshot
      carries status, timeline, courier, ETA and shipping address. */
  function Track(orders: map<OrderId, Order>, me: User, id: OrderId): (r: Result<TrackSnapshot>)
    ensures r.Ok? <==> GetOrder(orders, me, id).Ok?
    ensures r.Err? ==> r.error == GetOrder(orders, me, id).error
    ensures r.Ok? ==> var o := orders[id];
      r.value == TrackSnapshot(o.status, o.timeline, o.courier, o.etaMinutes, o.shippingAddress)
  {
    match GetOrder(orders, me, id)
    case Err(e) => Err(e)
    case Ok(o) => Ok(TrackSnapshot(o.status, o.timeline, o.courier, o.etaMinutes, o.shippingAddress))
  }

  // ---------------------------------------------------------------------------
  // Status and courier updates

  /** PATCH `/:id/status` (admin only): any of the five statuses from any
      current status. The order's room gets the timeline, the owner's room
      only the status. */
  method SetStatus(store: OrderStore, me: User, id: OrderId, status: string, now: Millis)
    returns (res: Result<Order>, emits: seq<Emit>)
    requires store.Valid()
    modifies store
    ensures store.Valid() && store.nextId == old(store.nextId)
    ensures res.Ok? <==> me.role == AdminRole && ParseStatus(status).Some? && id in old(store.orders)
    ensures me.role != AdminRole ==> res == Err(AuthMiddleware.Forbidden)
    ensures me.role == AdminRole && ParseStatus(status).None? ==> res == Err(ValidationFailed)
    ensures me.role == AdminRole && ParseStatus(status).Some? && id !in old(store.orders) ==> res == Err(OrderNotFound)
    ensures res.Ok? ==>
      res.value == PushTimeline(old(store.orders)[id], ParseStatus(status).value, now) &&
      StatusName(res.value.status) == status &&
      store.orders == old(store.orders)[id := res.value] &&
      emits == [Emit(OrderRoom(id), OrderUpdate(id, status, Some(res.value.timeline))),
                Emit(UserRoom(res.value.user), OrderUpdate(id, status, None))]
    ensures res.Err? ==> store.orders == old(store.orders) && emits == []
  {
    var gate := AuthMiddleware.RequireRole(Some(me.role), [AdminRole]);
    if gate.Err? {
      return Err(gate.error), [];
    }
    var parsed := ParseStatus(status);
    if parsed.None? {
      return Err(ValidationFailed), [];
    }
    if id !in store.orders {
      return Err(OrderNotFound), [];
    }
    var order := PushTimeline(store.orders[id], parsed.value, now);
    store.orders := store.orders[id := order];
    res := Ok(order);
    emits := [Emit(OrderRoom(id), OrderUpdate(id, StatusName(order.status), Some(order.timeline))),
              Emit(UserRoom(order.user), OrderUpdate(id, StatusName(order.status), None))];
  }

  /** The courier-update body. */
  /** The courier body as JSON numbers; the ETA may be any number the
      client sends. */
  datatype CourierBody = CourierBody(lat: real, lng: real, etaMinutes: Option<real>)

  /** `z.number().int()`: a number with no fractional part. */
  predicate IsWhole(x: real)
  {
    x.Floor as real == x
  }

  /** `locSchema`: lat in [-90, 90], lng in [-180, 180], an optional integer
      ETA in 1..240. */
  predicate CourierBodyValid(b: CourierBody)
  {
    -90.0 <= b.lat <= 90.0 && -180.0 <= b.lng <= 180.0 &&
    (b.etaMinutes.Some? ==> IsWhole(b.etaMinutes.value) && 1.0 <= b.etaMinutes.value <= 240.0)
  }

  /** PATCH `/:id/courier` (admin only): overwrites the courier location,
      the ETA only when one is sent, leaves status and timeline as they were,
      and notifies only the order's room. */
  method SetCourier(store: OrderStore, me: User, id: OrderId, body: CourierBody)
    returns (res: Result<Order>, emits: seq<Emit>)
    requires store.Valid()
    modifies store
    ensures store.Valid() && store.nextId == old(store.nextId)
    ensures res.Ok? <==> me.role == AdminRole && CourierBodyValid(body) && id in old(store.orders)
    ensures me.role != AdminRole ==> res == Err(AuthMiddleware.Forbidden)
    ensures me.role == AdminRole && !CourierBodyValid(body) ==> res == Err(ValidationFailed)
    ensures me.role == AdminRole && CourierBodyValid(body) && id !in old(store.orders) ==> res == Err(OrderNotFound)
    ensures res.Ok? ==> var o := old(store.orders)[id];
      res.value.courier == o.courier.(location := Location(body.lat, body.lng)) &&
      res.value.etaMinutes == (if body.etaMinutes.Some? then body.etaMinutes.value.Floor else o.etaMinutes) &&
      (body.etaMinutes.Some? ==> res.value.etaMinutes as real == body.etaMinutes.value &&
                                 1 <= res.value.etaMinutes <= 240) &&
      res.value.(courier := o.courier, etaMinutes := o.etaMinutes) == o &&
      store.orders == old(store.orders)[id := res.value] &&
      emits == [Emit(OrderRoom(id), OrderTrack(id, res.value.courier, res.value.etaMinutes))]
    ensures res.Err? ==> store.orders == old(store.orders) && emits == []
  {
    var gate := AuthMiddleware.RequireRole(Some(me.role), [AdminRole]);
    if gate.Err? {
      return Err(gate.error), [];
    }
    if !CourierBodyValid(body) {
      return Err(ValidationFailed), [];
    }
    if id !in store.orders {
      return Err(OrderNotFound), [];
    }
    var order := store.orders[id];
    order := order.(courier := order.courier.(location := Location(body.lat, body.lng)));
    if body.etaMinutes.Some? {
      order := order.(etaMinutes := body.etaMinutes.value.Floor);
    }
    store.orders := store.orders[id := order];
    res := Ok(order);
    emits := [Emit(OrderRoom(id), OrderTrack(id, order.courier, order.etaMinutes))];
  }

  /** Any sequence of status changes keeps the timeline append-only: the
      timeline before the change is a prefix of the one after. */
  lemma PushTimelineAppendOnly(o: Order, s: OrderStatus, t: OrderStatus, at1: Millis, at2: Millis)
    ensures o.timeline <= PushTimeline(PushTimeline(o, s, at1), t, at2).timeline
    ensures |PushTimeline(PushTimeline(o, s, at1), t, at2).timeline| == |o.timeline| + 2
  {
    var o1 := PushTimeline(o, s, at1);
    assert o.timeline <= o1.timeline;
  }
}
