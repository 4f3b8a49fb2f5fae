/** Appointments (server/src/models/Appointment.js) and their routes
    (server/src/routes/appointments.routes.js): booking a free slot, cancelling
    (which frees the slot) and completing. The slot and appointment collections
    together form a ledger; every handler is specified by a function of the
    ledger before the request. */
module Appointments {
  import opened Common
  import opened Text
  import opened UserModel
  import opened Slots
  import AuthMiddleware

  /** The status enum; new appointments are "confirmed" by default. */
  datatype ApptStatus = ApptPending | ApptConfirmed | ApptCancelled | ApptCompleted

  /** The mode enum; the default is online. */
  datatype Mode = Online | InPerson

  /** An appointment document; `slot` is unique across all appointments,
      cancelled ones included. */
  datatype Appointment = Appointment(
    id: AppointmentId,
    user: UserId,
    doctorUser: UserId,
    slot: SlotId,
    status: ApptStatus,
    mode: Mode,
    meetingLink: string,
    notes: string)

  /** The unique index on `slot`. */
  predicate UniqueSlotRefs(appts: map<AppointmentId, Appointment>)
  {
    forall a, b :: a in appts && b in appts && a != b ==> appts[a].slot != appts[b].slot
  }

  /** Some appointment, in any status, references the slot. */
  predicate SlotReferenced(appts: map<AppointmentId, Appointment>, slot: SlotId)
  {
    exists a :: a in appts && appts[a].slot == slot
  }

  /** An appointment still awaiting its visit. */
  predicate Upcoming(st: ApptStatus)
  {
    st == ApptPending || st == ApptConfirmed
  }

  /** The ledger invariant: both collections are well formed, every
      appointment references an existing slot of its doctor, and the slot of
      every upcoming appointment is booked. */
  predicate LedgerValid(slots: seq<Slot>, appts: map<AppointmentId, Appointment>, nextId: AppointmentId)
  {
    SlotsValid(slots) && UniqueSlotRefs(appts) &&
    forall a :: a in appts ==>
      appts[a].id == a && a < nextId && appts[a].slot < |slots| &&
      slots[appts[a].slot].doctorUser == appts[a].doctorUser &&
      (Upcoming(appts[a].status) ==> slots[appts[a].slot].isBooked)
  }

  class AppointmentStore {
    var appts: map<AppointmentId, Appointment>
    var nextId: AppointmentId

    constructor ()
      ensures appts == map[] && nextId == 0
    {
      appts := map[];
      nextId := 0;
    }
  }

  /** The state of both collections after a request, and its answer. */
  datatype Outcome = Outcome(
    result: Result<Appointment>,
    slots: seq<Slot>,
    appts: map<AppointmentId, Appointment>,
    nextId: AppointmentId)

  // ---------------------------------------------------------------------------
  // POST `/book`

  datatype BookBody = BookBody(doctorId: UserId, slotId: SlotId, mode: Option<Mode>)

  /** The online meeting room: "https://meet.jit.si/medoswift-", the last six
      hexadecimal digits of the slot id, "-", and the clock in base 36; no
      link for an in-person visit. */
  function MeetingLink(slotId: SlotId, mode: Mode, now: nat): (r: string)
    ensures r != "" <==> mode == Online
    ensures mode == Online ==> StartsWith(r, "https://meet.jit.si/medoswift-")
  {
    if mode == Online then
      "https://meet.jit.si/medoswift-" + SliceLast(ToRadix(slotId, 16), 6) + "-" + ToRadix(now, 36)
    else ""
  }

  const DoctorNotAvailable: Error := Error(404, "Doctor not available")
  const SlotNotAvailable: Error := Error(409, "Slot not available")

  /** The slot can be booked with this doctor: it exists, is the doctor's and
      is free. */
  predicate SlotFree(slots: seq<Slot>, doctorId: UserId, slotId: SlotId)
  {
    slotId < |slots| && slots[slotId].doctorUser == doctorId && !slots[slotId].isBooked
  }

  /** Booking: the role gate, the approved-profile check (404), the slot check
      (409); then the slot is saved as booked, and only after that is the
      appointment created, which fails on the unique slot index. */
  function Book(slots: seq<Slot>, appts: map<AppointmentId, Appointment>, nextId: AppointmentId,
                profiles: map<UserId, DoctorProfile>, me: User, body: BookBody, now: nat): (o: Outcome)
    ensures me.role != UserRole ==> o == Outcome(Err(AuthMiddleware.Forbidden), slots, appts, nextId)
    ensures me.role == UserRole && !(body.doctorId in profiles && profiles[body.doctorId].approved) ==>
      o == Outcome(Err(DoctorNotAvailable), slots, appts, nextId)
    ensures (me.role == UserRole && body.doctorId in profiles && profiles[body.doctorId].approved &&
      !SlotFree(slots, body.doctorId, body.slotId)) ==> o == Outcome(Err(SlotNotAvailable), slots, appts, nextId)
    ensures o.result.Ok? <==>
      me.role == UserRole && body.doctorId in profiles && profiles[body.doctorId].approved &&
      SlotFree(slots, body.doctorId, body.slotId) && !SlotReferenced(appts, body.slotId)
    ensures o.result.Ok? ==>
      var a := o.result.value;
      a.id == nextId && a.user == me.id && a.doctorUser == body.doctorId && a.slot == body.slotId &&
      a.status == ApptConfirmed && a.mode == (if body.mode.Some? then body.mode.value else Online) &&
      (a.meetingLink != "" <==> a.mode == Online) && a.notes == "" &&
      o.appts == appts[nextId := a] && o.nextId == nextId + 1
    ensures (me.role == UserRole && body.doctorId in profiles && profiles[body.doctorId].approved &&
      SlotFree(slots, body.doctorId, body.slotId) && SlotReferenced(appts, body.slotId)) ==>
      o.result == Err(DuplicateKey) && o.appts == appts && o.nextId == nextId
    ensures (SlotFree(slots, body.doctorId, body.slotId) && o.result != Err(AuthMiddleware.Forbidden) &&
      o.result != Err(DoctorNotAvailable)) ==>
      o.slots == slots[body.slotId := slots[body.slotId].(isBooked := true)]
  {
    if AuthMiddleware.RequireRole(Some(me.role), [UserRole]).Err? then
      Outcome(Err(AuthMiddleware.Forbidden), slots, appts, nextId)
    else if !(body.doctorId in profiles && profiles[body.doctorId].approved) then
      Outcome(Err(DoctorNotAvailable), slots, appts, nextId)
    else if !SlotFree(slots, body.doctorId, body.slotId) then
      Outcome(Err(SlotNotAvailable), slots, appts, nextId)
    else
      var booked := slots[body.slotId := slots[body.slotId].(isBooked := true)];
      var mode := if body.mode.Some? then body.mode.value else Online;
      if SlotReferenced(appts, body.slotId) then
        Outcome(Err(DuplicateKey), booked, appts, nextId)
      else
        var a := Appointment(nextId, me.id, body.doctorId, body.slotId, ApptConfirmed, mode,
                             MeetingLink(body.slotId, mode, now), "");
        Outcome(Ok(a), booked, appts[nextId := a], nextId + 1)
  }

  lemma BookKeepsLedgerValid(slots: seq<Slot>, appts: map<AppointmentId, Appointment>, nextId: AppointmentId,
                             profiles: map<UserId, DoctorProfile>, me: User, body: BookBody, now: nat)
    requires LedgerValid(slots, appts, nextId)
    ensures var o := Book(slots, appts, nextId, profiles, me, body, now);
      LedgerValid(o.slots, o.appts, o.nextId)
  {
    var o := Book(slots, appts, nextId, profiles, me, body, now);
    if o.slots != slots {
      var booked := o.slots;
      assert |booked| == |slots|;
      assert forall i :: 0 <= i < |slots| ==> booked[i].doctorUser == slots[i].doctorUser && booked[i].start == slots[i].start && booked[i].id == slots[i].id;
      assert SlotsValid(booked);
    }
  }

  // ---------------------------------------------------------------------------
  // PATCH `/:id/cancel`

  const ApptNotFound: Error := Error(404, "Appointment not found")

  /** Cancelling: 404 for an unknown appointment, 403 unless the caller is its
      patient, its doctor or an admin. An already-cancelled appointment is
      answered unchanged; any other, completed ones included, becomes
      cancelled and its slot is freed. */
  function Cancel(slots: seq<Slot>, appts: map<AppointmentId, Appointment>, nextId: AppointmentId,
                  me: User, id: AppointmentId): (o: Outcome)
    ensures o.nextId == nextId
    ensures id !in appts ==> o == Outcome(Err(ApptNotFound), slots, appts, nextId)
    ensures o.result.Ok? <==>
      id in appts && (appts[id].user == me.id || appts[id].doctorUser == me.id || me.role == AdminRole)
    ensures id in appts && !o.result.Ok? ==> o == Outcome(Err(AuthMiddleware.Forbidden), slots, appts, nextId)
    ensures o.result.Ok? && appts[id].status == ApptCancelled ==> o == Outcome(Ok(appts[id]), slots, appts, nextId)
    ensures o.result.Ok? && appts[id].status != ApptCancelled ==>
      var a := appts[id].(status := ApptCancelled);
      o.result == Ok(a) && o.appts == appts[id := a] &&
      o.slots == (if a.slot < |slots| then slots[a.slot := slots[a.slot].(isBooked := false)] else slots)
  {
    if id !in appts then Outcome(Err(ApptNotFound), slots, appts, nextId)
    else
      var appt := appts[id];
      if !(appt.user == me.id || appt.doctorUser == me.id || me.role == AdminRole) then
        Outcome(Err(AuthMiddleware.Forbidden), slots, appts, nextId)
      else if appt.status == ApptCancelled then Outcome(Ok(appt), slots, appts, nextId)
      else
        var a := appt.(status := ApptCancelled);
        var freed := if a.slot < |slots| then slots[a.slot := slots[a.slot].(isBooked := false)] else slots;
        Outcome(Ok(a), freed, appts[id := a], nextId)
  }

  lemma CancelKeepsLedgerValid(slots: seq<Slot>, appts: map<AppointmentId, Appointment>, nextId: AppointmentId,
                               me: User, id: AppointmentId)
    requires LedgerValid(slots, appts, nextId)
    ensures var o := Cancel(slots, appts, nextId, me, id);
      LedgerValid(o.slots, o.appts, o.nextId)
  {
    var o := Cancel(slots, appts, nextId, me, id);
    if o.slots != slots {
      var s := appts[id].slot;
      assert forall i :: 0 <= i < |slots| ==> o.slots[i].doctorUser == slots[i].doctorUser && o.slots[i].start == slots[i].start && o.slots[i].id == slots[i].id;
      assert SlotsValid(o.slots);
      forall a | a in o.appts && Upcoming(o.appts[a].status)
        ensures o.slots[o.appts[a].slot].isBooked
      {
        assert a != id;
        assert appts[a].slot != s;
      }
    }
  }

  /** Cancelling twice is the same as cancelling once. */
  lemma CancelIdempotent(slots: seq<Slot>, appts: map<AppointmentId, Appointment>, nextId: AppointmentId,
                         me: User, id: AppointmentId)
    ensures var o := Cancel(slots, appts, nextId, me, id);
      var o2 := Cancel(o.slots, o.appts, o.nextId, me, id);
      o.result.Ok? ==> o2 == o
  {
  }

  // ---------------------------------------------------------------------------
  // PATCH `/:id/complete`

  /** Completing (doctors only): 404 for an unknown appointment, 403 unless
      the caller is its doctor; the status becomes completed whatever it was,
      and the slot is not touched. */
  function Complete(slots: seq<Slot>, appts: map<AppointmentId, Appointment>, nextId: AppointmentId,
                    me: User, id: AppointmentId): (o: Outcome)
    ensures o.slots == slots && o.nextId == nextId
    ensures me.role != DoctorRole ==> o.result == Err(AuthMiddleware.Forbidden)
    ensures me.role == DoctorRole && id !in appts ==> o.result == Err(ApptNotFound)
    ensures o.result.Ok? <==> me.role == DoctorRole && id in appts && appts[id].doctorUser == me.id
    ensures o.result.Ok? ==>
      o.result.value == appts[id].(status := ApptCompleted) && o.appts == appts[id := o.result.value]
    ensures o.result.Err? ==> o.appts == appts
  {
    if AuthMiddleware.RequireRole(Some(me.role), [DoctorRole]).Err? then
      Outcome(Err(AuthMiddleware.Forbidden), slots, appts, nextId)
    else if id !in appts then Outcome(Err(ApptNotFound), slots, appts, nextId)
    else if appts[id].doctorUser != me.id then Outcome(Err(AuthMiddleware.Forbidden), slots, appts, nextId)
    else
      var a := appts[id].(status := ApptCompleted);
      Outcome(Ok(a), slots, appts[id := a], nextId)
  }

  lemma CompleteKeepsLedgerValid(slots: seq<Slot>, appts: map<AppointmentId, Appointment>, nextId: AppointmentId,
                                 me: User, id: AppointmentId)
    requires LedgerValid(slots, appts, nextId)
    ensures var o := Complete(slots, appts, nextId, me, id);
      LedgerValid(o.slots, o.appts, o.nextId)
  {
  }

  /** Completing does not look at the status: a cancelled appointment, whose
      slot was freed, becomes completed while its slot stays free. */
  lemma CompleteRevivesCancelled(slots: seq<Slot>, appts: map<AppointmentId, Appointment>, nextId: AppointmentId,
                                 me: User, id: AppointmentId)
    requires LedgerValid(slots, appts, nextId)
    requires me.role == DoctorRole && id in appts && appts[id].doctorUser == me.id
    requires appts[id].status == ApptCancelled && !slots[appts[id].slot].isBooked
    ensures var o := Complete(slots, appts, nextId, me, id);
      o.result.Ok? && o.appts[id].status == ApptCompleted && !o.slots[o.appts[id].slot].isBooked
  {
  }

  /** A completed appointment can still be cancelled, and that frees its
      slot. */
  lemma CompletedCanBeCancelled(slots: seq<Slot>, appts: map<AppointmentId, Appointment>, nextId: AppointmentId,
                                me: User, id: AppointmentId)
    requires LedgerValid(slots, appts, nextId)
    requires id in appts && appts[id].status == ApptCompleted && appts[id].user == me.id
    ensures var o := Cancel(slots, appts, nextId, me, id);
      o.result.Ok? && o.result.value.status == ApptCancelled && !o.slots[appts[id].slot].isBooked
  {
  }

  // ---------------------------------------------------------------------------
  // The rebooking defect

  /** After an appointment is cancelled its slot is free again, but the
      cancelled appointment still holds the slot's unique reference. A later
      booking of that slot passes every check, saves the slot as booked, and
      then fails to create the appointment (500): the slot stays booked while
      no appointment that is not cancelled references it. */
  lemma {:induction false} RebookAfterCancelStrandsSlot(
      slots: seq<Slot>, appts: map<AppointmentId, Appointment>, nextId: AppointmentId,
      profiles: map<UserId, DoctorProfile>, canceller: User, id: AppointmentId,
      patient: User, mode: Option<Mode>, now: nat)
    requires LedgerValid(slots, appts, nextId)
    requires id in appts && appts[id].status != ApptCancelled
    requires appts[id].user == canceller.id
    requires patient.role == UserRole
    requires appts[id].doctorUser in profiles && profiles[appts[id].doctorUser].approved
    ensures var c := Cancel(slots, appts, nextId, canceller, id);
      var s := appts[id].slot;
      var b := Book(c.slots, c.appts, c.nextId, profiles, patient, BookBody(appts[id].doctorUser, s, mode), now);
      c.result.Ok? && !c.slots[s].isBooked &&
      b.result == Err(DuplicateKey) && b.slots[s].isBooked &&
      forall a :: a in b.appts && b.appts[a].slot == s ==> b.appts[a].status == ApptCancelled
  {
    var c := Cancel(slots, appts, nextId, canceller, id);
    var s := appts[id].slot;
    assert c.appts[id].slot == s;
    assert SlotReferenced(c.appts, s);
    assert SlotFree(c.slots, appts[id].doctorUser, s);
    var b := Book(c.slots, c.appts, c.nextId, profiles, patient, BookBody(appts[id].doctorUser, s, mode), now);
  }

  // ---------------------------------------------------------------------------
  // The handlers

  /** POST `/book`. */
  method BookHandler(slotStore: SlotStore, store: AppointmentStore, profiles: map<UserId, DoctorProfile>,
                     me: User, body: BookBody, now: nat) returns (res: Result<Appointment>)
    requires LedgerValid(slotStore.slots, store.appts, store.nextId)
    modifies slotStore, store
    ensures LedgerValid(slotStore.slots, store.appts, store.nextId)
    ensures Outcome(res, slotStore.slots, store.appts, store.nextId) ==
      Book(old(slotStore.slots), old(store.appts), old(store.nextId), profiles, me, body, now)
  {
    BookKeepsLedgerValid(slotStore.slots, store.appts, store.nextId, profiles, me, body, now);
    var gate := AuthMiddleware.RequireRole(Some(me.role), [UserRole]);
    if gate.Err? {
      return Err(gate.error);
    }
    if !(body.doctorId in profiles && profiles[body.doctorId].approved) {
      return Err(DoctorNotAvailable);
    }
    if !(body.slotId < |slotStore.slots| && slotStore.slots[body.slotId].doctorUser == body.doctorId) ||
       slotStore.slots[body.slotId].isBooked {
      return Err(SlotNotAvailable);
    }
    slotStore.slots := slotStore.slots[body.slotId := slotStore.slots[body.slotId].(isBooked := true)];
    var mode := if body.mode.Some? then body.mode.value else Online;
    var link := MeetingLink(body.slotId, mode, now);
    if SlotReferenced(store.appts, body.slotId) {
      return Err(DuplicateKey);
    }
    var a := Appointment(store.nextId, me.id, body.doctorId, body.slotId, ApptConfirmed, mode, link, "");
    store.appts := store.appts[store.nextId := a];
    store.nextId := store.nextId + 1;
    res := Ok(a);
  }

  /** PATCH `/:id/cancel`. */
  method CancelHandler(slotStore: SlotStore, store: AppointmentStore, me: User, id: AppointmentId)
    returns (res: Result<Appointment>)
    requires LedgerValid(slotStore.slots, store.appts, store.nextId)
    modifies slotStore, store
    ensures LedgerValid(slotStore.slots, store.appts, store.nextId)
    ensures Outcome(res, slotStore.slots, store.appts, store.nextId) ==
      Cancel(old(slotStore.slots), old(store.appts), old(store.nextId), me, id)
  {
    CancelKeepsLedgerValid(slotStore.slots, store.appts, store.nextId, me, id);
    if id !in store.appts {
      return Err(ApptNotFound);
    }
    var appt := store.appts[id];
    var isOwner := appt.user == me.id;
    var isDoctor := appt.doctorUser == me.id;
    if !(isOwner || isDoctor || me.role == AdminRole) {
      return Err(AuthMiddleware.Forbidden);
    }
    if appt.status == ApptCancelled {
      return Ok(appt);
    }
    appt := appt.(status := ApptCancelled);
    store.appts := store.appts[id := appt];
    if appt.slot < |slotStore.slots| {
      slotStore.slots := slotStore.slots[appt.slot := slotStore.slots[appt.slot].(isBooked := false)];
    }
    res := Ok(appt);
  }

  /** PATCH `/:id/complete`. */
  method CompleteHandler(slotStore: SlotStore, store: AppointmentStore, me: User, id: AppointmentId)
    returns (res: Result<Appointment>)
    requires LedgerValid(slotStore.slots, store.appts, store.nextId)
    modifies store
    ensures LedgerValid(slotStore.slots, store.appts, store.nextId)
    ensures Outcome(res, slotStore.slots, store.appts, store.nextId) ==
      Complete(slotStore.slots, old(store.appts), old(store.nextId), me, id)
  {
    CompleteKeepsLedgerValid(slotStore.slots, store.appts, store.nextId, me, id);
    var gate := AuthMiddleware.RequireRole(Some(me.role), [DoctorRole]);
    if gate.Err? {
      return Err(gate.error);
    }
    if id !in store.appts {
      return Err(ApptNotFound);
    }
    if store.appts[id].doctorUser != me.id {
      return Err(AuthMiddleware.Forbidden);
    }
    var a := store.appts[id].(status := ApptCompleted);
    store.appts := store.appts[id := a];
    res := Ok(a);
  }
}
