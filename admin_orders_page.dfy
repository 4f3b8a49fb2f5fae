/** The admin's order table (client/src/pages/admin/AdminOrders.jsx): the
    text and status filters, the status choices, and the body the courier
    editor sends. */
module AdminOrdersPage {
  import opened Common
  import opened Seqs
  import opened Text
  import opened OrderModel
  import Orders

  /** One listed order: its id, the populated customer's name and email
      (absent when the user is gone), and its status as the server spells
      it. */
  datatype OrderRow = OrderRow(id: string, userName: Option<string>, userEmail: Option<string>, status: string)

  /** `STATUSES`: the choices of both selects. */
  const Statuses: seq<string> := ["Placed", "Confirmed", "On Way", "Delivered", "Cancelled"]

  /** The choices are the five order statuses, each once. */
  lemma StatusesAreTheEnum()
    ensures |Statuses| == 5
    ensures forall i, j :: 0 <= i < j < 5 ==> Statuses[i] != Statuses[j]
    ensures forall st: OrderStatus :: StatusName(st) in Statuses
    ensures forall s :: s in Statuses ==> ParseStatus(s).Some?
  {
  }

  /** `(x || "")`. */
  function OrEmpty(s: Option<string>): string
  {
    if s.Some? then s.value else ""
  }

  /** `okQ` with the lowercased trimmed query `s`. */
  function PassesText(s: string): OrderRow -> bool
  {
    (o: OrderRow) => s == "" || Contains(Lower(o.id), s) || Contains(Lower(OrEmpty(o.userName)), s) ||
      Contains(Lower(OrEmpty(o.userEmail)), s)
  }

  /** `okQ && okS`. */
  function Keeps(q: string, statusFilter: string): OrderRow -> bool
  {
    (o: OrderRow) => PassesText(Lower(Trim(q)))(o) && (statusFilter == "All" || o.status == statusFilter)
  }

  /** `filtered`: both the text test and the status test. */
  function Filtered(items: seq<OrderRow>, q: string, statusFilter: string): seq<OrderRow>
  {
    Filter(items, Keeps(q, statusFilter))
  }

  /** An order is listed exactly when the query is blank or the order's id,
      customer name or email contains it ignoring case, and the status
      filter is "All" or the order's status; the list keeps the loaded
      order. */
  lemma FilteredSpec(items: seq<OrderRow>, q: string, statusFilter: string)
    ensures forall o :: o in Filtered(items, q, statusFilter) <==>
      o in items &&
      (Trim(q) == "" || ContainsIgnoreCase(o.id, Trim(q)) || ContainsIgnoreCase(OrEmpty(o.userName), Trim(q)) ||
        ContainsIgnoreCase(OrEmpty(o.userEmail), Trim(q))) &&
      (statusFilter == "All" || o.status == statusFilter)
    ensures IsSubsequence(Filtered(items, q, statusFilter), items)
  {
    var s := Lower(Trim(q));
    assert |s| == |Trim(q)|;
    LowerIdempotent(Trim(q));
    FilterIsSubsequence(items, Keeps(q, statusFilter));
    forall o ensures Keeps(q, statusFilter)(o) <==>
      (Trim(q) == "" || ContainsIgnoreCase(o.id, Trim(q)) || ContainsIgnoreCase(OrEmpty(o.userName), Trim(q)) ||
        ContainsIgnoreCase(OrEmpty(o.userEmail), Trim(q))) &&
      (statusFilter == "All" || o.status == statusFilter)
    {
      assert Keeps(q, statusFilter)(o) == (PassesText(s)(o) && (statusFilter == "All" || o.status == statusFilter));
      assert s == "" <==> Trim(q) == "";
    }
  }

  /** A blank query with "All" lists every order. */
  lemma BlankListsAll(items: seq<OrderRow>, q: string)
    requires Trim(q) == ""
    ensures Filtered(items, q, "All") == items
  {
    assert Lower(Trim(q)) == "";
    forall o | o in items ensures Keeps(q, "All")(o) {
      assert PassesText("")(o);
    }
    FilterAll(items, Keeps(q, "All"));
  }

  /** The value of an `<input type="number">`: the browser keeps it either
      empty or a valid floating-point number (a sign, a fraction and an
      exponent included), so it reads as a real number. */
  datatype NumberField = Blank | Num(x: real)

  /** `Number(field)`: an empty field reads as 0. */
  function NumberOf(f: NumberField): (r: real)
    ensures f.Num? ==> r == f.x
    ensures f.Blank? ==> r == 0.0
  {
    if f.Blank? then 0.0 else f.x
  }

  /** The courier editor: the three number fields. The ETA field starts as
      the order's ETA, or 15. */
  datatype CourierForm = CourierForm(lat: NumberField, lng: NumberField, eta: NumberField)

  /** `Number(eta || 0) || undefined`: an empty field or zero is left out,
      every other number is sent as it reads, negative and fractional ones
      included. */
  function EtaOf(eta: NumberField): (r: Option<real>)
    ensures r.None? <==> NumberOf(eta) == 0.0
    ensures r.Some? ==> r.value == NumberOf(eta) && r.value != 0.0
  {
    if NumberOf(eta) == 0.0 then None else Some(NumberOf(eta))
  }

  /** `saveCourier`'s body: the coordinates as `Number` reads them and the
      ETA as above. */
  function CourierPayload(f: CourierForm): (b: Orders.CourierBody)
    ensures b.lat == NumberOf(f.lat) && b.lng == NumberOf(f.lng) && b.etaMinutes == EtaOf(f.eta)
  {
    Orders.CourierBody(NumberOf(f.lat), NumberOf(f.lng), EtaOf(f.eta))
  }

  /** An ETA of 0 or an empty field is sent as no ETA, and any other number
      is sent as itself. */
  lemma EtaZeroOrEmptyIsUndefined(x: real)
    ensures EtaOf(Blank) == None && EtaOf(Num(0.0)) == None
    ensures x != 0.0 ==> EtaOf(Num(x)) == Some(x)
  {
  }

  /** The server accepts the body exactly when the coordinates are in range
      and an ETA that is sent is a whole number of minutes in 1..240:
      leaving out a zero or empty ETA keeps the server's range from
      rejecting it, but a negative or fractional one is sent and refused. */
  lemma CourierPayloadAccepted(f: CourierForm)
    ensures Orders.CourierBodyValid(CourierPayload(f)) <==>
      -90.0 <= NumberOf(f.lat) <= 90.0 && -180.0 <= NumberOf(f.lng) <= 180.0 &&
      (NumberOf(f.eta) != 0.0 ==> Orders.IsWhole(NumberOf(f.eta)) && 1.0 <= NumberOf(f.eta) <= 240.0)
  {
  }

  /** An ETA of -3 or of 2.5 minutes is sent, and the server answers 400
      for it, whatever the coordinates. */
  lemma NegativeOrFractionalEtaRefused(lat: NumberField, lng: NumberField)
    ensures !Orders.CourierBodyValid(CourierPayload(CourierForm(lat, lng, Num(-3.0))))
    ensures !Orders.CourierBodyValid(CourierPayload(CourierForm(lat, lng, Num(2.5))))
  {
    assert (2.5).Floor == 2;
  }
}
