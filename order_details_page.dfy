/** The order tracking page (client/src/pages/user/OrderDetailsPage.jsx): the
    tracking state it keeps, how live `order:update` and `order:track` events
    merge into it, the map coordinates it derives, and the room it joins.
    The page holds JSON as received, so fields the server always sends are
    optional here. */
module OrderDetailsPage {
  import opened Common
  import opened UserModel
  import opened OrderModel
  import Orders

  /** A coordinate pair whose members may be missing or not numbers. */
  datatype MaybePoint = MaybePoint(lat: Option<real>, lng: Option<real>)

  datatype CourierView = CourierView(name: string, phone: string, location: Option<MaybePoint>)

  /** The tracking snapshot as the page holds it. */
  datatype TrackView = TrackView(
    status: string,
    timeline: seq<TimelineEntry>,
    courier: Option<CourierView>,
    etaMinutes: Option<int>,
    shippingAddress: Option<MaybePoint>)

  /** The live payloads as the page reads them. */
  datatype LiveEvent =
    | UpdatePayload(orderId: OrderId, status: string, timeline: Option<seq<TimelineEntry>>)
    | TrackPayload(trackedId: OrderId, courier: Option<CourierView>, etaMinutes: Option<int>)

  function CourierOf(c: Courier): CourierView
  {
    CourierView(c.name, c.phone, Some(MaybePoint(Some(c.location.lat), Some(c.location.lng))))
  }

  /** The view of what GET `/:id/track` answers. */
  function ViewOf(s: Orders.TrackSnapshot): TrackView
  {
    TrackView(StatusName(s.status), s.timeline, Some(CourierOf(s.courier)), Some(s.etaMinutes),
      Some(MaybePoint(Some(s.shippingAddress.lat), Some(s.shippingAddress.lng))))
  }

  /** The snapshot of a stored order, as the track route builds it. */
  function SnapshotOf(o: Order): Orders.TrackSnapshot
  {
    Orders.TrackSnapshot(o.status, o.timeline, o.courier, o.etaMinutes, o.shippingAddress)
  }

  /** How the server's emitted events arrive at the page. */
  function Received(e: Orders.Event): Option<LiveEvent>
  {
    match e
    case OrderNew(_) => None
    case OrderUpdate(id, status, timeline) => Some(UpdatePayload(id, status, timeline))
    case OrderTrack(id, courier, eta) => Some(TrackPayload(id, Some(CourierOf(courier)), Some(eta)))
  }

  /** `onUpdate` and `onTrack` for the page of order `id`: events of other
      orders, and any event before the snapshot has loaded, leave the state
      alone; an update replaces the status and, when it carries one, the
      timeline; a track event replaces the courier when present and the ETA
      when not null. */
  function OnEvent(id: OrderId, prev: Option<TrackView>, e: LiveEvent): (r: Option<TrackView>)
    ensures prev.None? ==> r.None?
    ensures (if e.UpdatePayload? then e.orderId else e.trackedId) != id ==> r == prev
    ensures prev.Some? && e.UpdatePayload? && e.orderId == id ==>
      r == Some(prev.value.(status := e.status,
                            timeline := if e.timeline.Some? then e.timeline.value else prev.value.timeline))
    ensures prev.Some? && e.TrackPayload? && e.trackedId == id ==>
      r == Some(prev.value.(courier := if e.courier.Some? then e.courier else prev.value.courier,
                            etaMinutes := if e.etaMinutes.Some? then e.etaMinutes else prev.value.etaMinutes))
  {
    match e
    case UpdatePayload(oid, status, timeline) =>
      if oid != id || prev.None? then prev
      else Some(prev.value.(status := status, timeline := if timeline.Some? then timeline.value else prev.value.timeline))
    case TrackPayload(oid, courier, eta) =>
      if oid != id || prev.None? then prev
      else Some(prev.value.(courier := if courier.Some? then courier else prev.value.courier,
                            etaMinutes := if eta.Some? then eta else prev.value.etaMinutes))
  }

  /** The page stays in step with the server: after a status change the
      room's event turns the view of the old order into the view of the
      new one, and the owner's copy without a timeline changes nothing
      further. */
  lemma ViewFollowsStatus(o: Order, id: OrderId, s: OrderStatus, now: Millis)
    ensures var o' := Orders.PushTimeline(o, s, now);
      var v := OnEvent(id, Some(ViewOf(SnapshotOf(o))), Received(Orders.OrderUpdate(id, StatusName(s), Some(o'.timeline))).value);
      v == Some(ViewOf(SnapshotOf(o'))) &&
      OnEvent(id, v, Received(Orders.OrderUpdate(id, StatusName(s), None)).value) == v
  {
  }

  /** After a courier update the room's event turns the view of the old
      order into the view of the new one. */
  lemma ViewFollowsCourier(o: Order, id: OrderId, lat: real, lng: real, eta: Option<int>)
    ensures var o' := o.(courier := o.courier.(location := Location(lat, lng)),
                         etaMinutes := if eta.Some? then eta.value else o.etaMinutes);
      OnEvent(id, Some(ViewOf(SnapshotOf(o))), Received(Orders.OrderTrack(id, o'.courier, o'.etaMinutes)).value) ==
        Some(ViewOf(SnapshotOf(o')))
  {
  }

  const DefaultPoint: (real, real) := (12.9716, 77.5946)

  /** `userLatLng`: nothing without an address, the address's coordinates
      when both are numbers, the default point otherwise. */
  function UserLatLng(track: Option<TrackView>): (r: Option<(real, real)>)
    ensures track.None? || track.value.shippingAddress.None? ==> r.None?
    ensures track.Some? && track.value.shippingAddress.Some? ==> r.Some?
    ensures r.Some? && track.value.shippingAddress.value.lat.Some? && track.value.shippingAddress.value.lng.Some? ==>
      r.value == (track.value.shippingAddress.value.lat.value, track.value.shippingAddress.value.lng.value)
    ensures r.Some? && (track.value.shippingAddress.value.lat.None? || track.value.shippingAddress.value.lng.None?) ==>
      r.value == DefaultPoint
  {
    if track.None? || track.value.shippingAddress.None? then None
    else
      var a := track.value.shippingAddress.value;
      if a.lat.Some? && a.lng.Some? then Some((a.lat.value, a.lng.value)) else Some(DefaultPoint)
  }

  /** `courierLatLng`: the courier's coordinates only when both are
      numbers. */
  function CourierLatLng(track: Option<TrackView>): (r: Option<(real, real)>)
    ensures r.Some? <==>
      track.Some? && track.value.courier.Some? && track.value.courier.value.location.Some? &&
      track.value.courier.value.location.value.lat.Some? && track.value.courier.value.location.value.lng.Some?
    ensures r.Some? ==>
      r.value == (track.value.courier.value.location.value.lat.value, track.value.courier.value.location.value.lng.value)
  {
    if track.None? || track.value.courier.None? || track.value.courier.value.location.None? then None
    else
      var c := track.value.courier.value.location.value;
      if c.lat.Some? && c.lng.Some? then Some((c.lat.value, c.lng.value)) else None
  }

  /** For a snapshot from the server both points are the stored ones: the
      shipping address and the courier's location. */
  lemma ServerSnapshotPoints(s: Orders.TrackSnapshot)
    ensures UserLatLng(Some(ViewOf(s))) == Some((s.shippingAddress.lat, s.shippingAddress.lng))
    ensures CourierLatLng(Some(ViewOf(s))) == Some((s.courier.location.lat, s.courier.location.lng))
  {
  }

  /** The socket messages the page sends: `join` on mount and `leave` on
      unmount, each naming the order's room. */
  datatype RoomCall = Join(room: string) | Leave(room: string)

  function OnMount(id: OrderId): (r: RoomCall)
    ensures r.Join? && r.room == Orders.TopicName(Orders.OrderRoom(id))
  {
    Join(Orders.TopicName(Orders.OrderRoom(id)))
  }

  function OnUnmount(id: OrderId): (r: RoomCall)
    ensures r.Leave? && r.room == OnMount(id).room
  {
    Leave(Orders.TopicName(Orders.OrderRoom(id)))
  }
}
