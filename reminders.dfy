/** Medicine reminders (server/src/models/Reminder.js) and their routes
    (server/src/routes/reminders.routes.js): creating one is gated on an
    active organizer subscription; toggling and deleting touch only the
    caller's own reminders. */
module Reminders {
  import opened Common
  import opened Seqs
  import opened Text
  import opened UserModel
  import opened MedicineModel
  import opened Subscriptions
  import AuthMiddleware

  // ---------------------------------------------------------------------------
  // The subscription gate

  /** A subscription grants the organizer at `now` iff it is active and has
      not ended. */
  predicate ActiveAt(s: Subscription, now: Millis)
  {
    s.status == SubActive && s.endAt >= now
  }

  /** `requireActiveSubscription(userId)`: the user's subscription when it is
      active at `now`. */
  function ActiveSubscription(subs: seq<Subscription>, user: UserId, now: Millis): (r: Option<Subscription>)
    ensures r.Some? <==> exists i :: 0 <= i < |subs| && subs[i].user == user && ActiveAt(subs[i], now)
    ensures r.Some? ==> r.value in subs && r.value.user == user && ActiveAt(r.value, now)
  {
    match FindIndex(subs, (s: Subscription) => s.user == user && ActiveAt(s, now))
    case None => None
    case Some(i) => Some(subs[i])
  }

  // ---------------------------------------------------------------------------
  // The reminders collection

  /** A reminder document; `daysOfWeek` holds weekday numbers, 0 being
      Sunday. */
  datatype Reminder = Reminder(
    id: ReminderId,
    user: UserId,
    medicine: Option<MedId>,
    medicineName: string,
    dosage: string,
    timeOfDay: string,
    daysOfWeek: seq<int>,
    active: bool)

  /** The collection in creation order: ids strictly increase and stay below
      the next fresh id. */
  predicate RemindersValid(rs: seq<Reminder>, nextId: ReminderId)
  {
    (forall i :: 0 <= i < |rs| ==> rs[i].id < nextId) && IdsIncrease(rs)
  }

  function ReminderKey(r: Reminder): int
  {
    r.id
  }

  /** Ids increase in creation order. */
  predicate IdsIncrease(rs: seq<Reminder>)
  {
    IncreasingBy(rs, ReminderKey)
  }

  class ReminderStore {
    var reminders: seq<Reminder>
    var nextId: ReminderId

    ghost predicate Valid()
      reads this
    {
      RemindersValid(reminders, nextId)
    }

    constructor ()
      ensures Valid() && reminders == [] && nextId == 0
    {
      reminders := [];
      nextId := 0;
    }
  }

  /** `Reminder.findOne({ _id: id, user })`: the position of the caller's
      reminder with this id. */
  function OwnReminder(rs: seq<Reminder>, user: UserId, id: ReminderId): (r: Option<nat>)
    ensures r.Some? ==> r.value < |rs| && rs[r.value].id == id && rs[r.value].user == user
    ensures r.None? <==> forall i :: 0 <= i < |rs| ==> !(rs[i].id == id && rs[i].user == user)
  {
    FindIndex(rs, (x: Reminder) => x.id == id && x.user == user)
  }

  // ---------------------------------------------------------------------------
  // GET `/`

  /** The test the caller's own reminders pass. */
  function OwnedBy(user: UserId): Reminder -> bool
  {
    (x: Reminder) => x.user == user
  }

  /** GET `/` (users only): the caller's reminders, newest first. */
  function List(rs: seq<Reminder>, me: User): (r: Result<seq<Reminder>>)
    ensures me.role != UserRole <==> r == Err(AuthMiddleware.Forbidden)
    ensures r.Ok? ==> forall x :: x in r.value <==> x in rs && x.user == me.id
  {
    if AuthMiddleware.RequireRole(Some(me.role), [UserRole]).Err? then Err(AuthMiddleware.Forbidden)
    else Ok(Reverse(Filter(rs, OwnedBy(me.id))))
  }

  /** In a valid collection the listing is newest first: ids strictly
      decrease. */
  lemma ListNewestFirst(rs: seq<Reminder>, nextId: ReminderId, me: User)
    requires RemindersValid(rs, nextId) && me.role == UserRole
    ensures var l := List(rs, me).value;
      forall i, j :: 0 <= i < j < |l| ==> l[i].id > l[j].id
  {
    var f := Filter(rs, OwnedBy(me.id));
    FilterIncreasing(rs, OwnedBy(me.id), ReminderKey);
    ReverseDecreasing(f, ReminderKey);
  }

  // ---------------------------------------------------------------------------
  // POST `/`

  /** The create body; `medicineId` is absent or empty when no catalogue
      medicine was chosen. */
  datatype ReminderBody = ReminderBody(
    medicineId: Option<MedId>,
    medicineName: string,
    dosage: Option<string>,
    timeOfDay: string,
    daysOfWeek: seq<int>)

  /** `^\d{2}:\d{2}$`: two digits, a colon, two digits. */
  predicate TimeOfDayFormat(t: string)
  {
    |t| == 5 && IsDigit(t[0]) && IsDigit(t[1]) && t[2] == ':' && IsDigit(t[3]) && IsDigit(t[4])
  }

  /** The create schema: a name of two characters or more, an HH:MM time, and
      one to seven weekday numbers in 0..6. */
  predicate ReminderBodyValid(b: ReminderBody)
  {
    |b.medicineName| >= 2 && TimeOfDayFormat(b.timeOfDay) &&
    1 <= |b.daysOfWeek| <= 7 && forall i :: 0 <= i < |b.daysOfWeek| ==> 0 <= b.daysOfWeek[i] <= 6
  }

  const SubscriptionRequired: Error := Error(402, "Organizer subscription required")

  datatype ReminderOutcome = ReminderOutcome(reminders: seq<Reminder>, nextId: ReminderId, result: Result<Reminder>)

  /** POST `/` (users only): 400 on an invalid body, 402 without an active
      subscription; otherwise an active reminder named after the catalogue
      medicine when the id resolves, else after the given name. */
  function Create(rs: seq<Reminder>, nextId: ReminderId, subs: seq<Subscription>, meds: map<MedId, Medicine>,
                  me: User, body: ReminderBody, now: Millis): (o: ReminderOutcome)
    ensures o.result.Err? ==> o.reminders == rs && o.nextId == nextId
    ensures me.role != UserRole ==> o.result == Err(AuthMiddleware.Forbidden)
    ensures me.role == UserRole && !ReminderBodyValid(body) ==> o.result == Err(Error(400, "Validation failed"))
    ensures me.role == UserRole && ReminderBodyValid(body) && ActiveSubscription(subs, me.id, now).None? ==>
      o.result == Err(SubscriptionRequired)
    ensures o.result.Ok? <==>
      me.role == UserRole && ReminderBodyValid(body) && ActiveSubscription(subs, me.id, now).Some?
    ensures o.result.Ok? ==>
      var r := o.result.value;
      var known := body.medicineId.Some? && body.medicineId.value in meds;
      r.id == nextId && r.user == me.id && r.active &&
      r.medicine == (if known then body.medicineId else None) &&
      r.medicineName == (if known then meds[body.medicineId.value].name else body.medicineName) &&
      r.dosage == (if body.dosage.Some? then body.dosage.value else "") &&
      r.timeOfDay == body.timeOfDay && r.daysOfWeek == body.daysOfWeek &&
      o.reminders == rs + [r] && o.nextId == nextId + 1
  {
    if AuthMiddleware.RequireRole(Some(me.role), [UserRole]).Err? then
      ReminderOutcome(rs, nextId, Err(AuthMiddleware.Forbidden))
    else if !ReminderBodyValid(body) then ReminderOutcome(rs, nextId, Err(Error(400, "Validation failed")))
    else if ActiveSubscription(subs, me.id, now).None? then ReminderOutcome(rs, nextId, Err(SubscriptionRequired))
    else
      var medicine := if body.medicineId.Some? && body.medicineId.value in meds then Some(meds[body.medicineId.value]) else None;
      var name := if medicine.Some? then medicine.value.name else body.medicineName;
      var r := Reminder(nextId, me.id, if medicine.Some? then body.medicineId else None, name,
                        if body.dosage.Some? then body.dosage.value else "", body.timeOfDay, body.daysOfWeek, true);
      ReminderOutcome(rs + [r], nextId + 1, Ok(r))
  }

  lemma CreateKeepsValid(rs: seq<Reminder>, nextId: ReminderId, subs: seq<Subscription>, meds: map<MedId, Medicine>,
                         me: User, body: ReminderBody, now: Millis)
    requires RemindersValid(rs, nextId)
    ensures var o := Create(rs, nextId, subs, meds, me, body, now); RemindersValid(o.reminders, o.nextId)
  {
  }

  /** A user whose subscription was cancelled cannot create reminders, even
      before its end date. */
  lemma CancelledSubscriptionBlocksCreate(rs: seq<Reminder>, nextId: ReminderId, subs: seq<Subscription>,
      subsNext: SubscriptionId, meds: map<MedId, Medicine>, me: User, body: ReminderBody, now: Millis)
    requires SubsValid(subs, subsNext) && me.role == UserRole && ReminderBodyValid(body)
    ensures var c := Subscriptions.Cancel(subs, me).0;
      Create(rs, nextId, c, meds, me, body, now).result.Err? &&
      Create(rs, nextId, c, meds, me, body, now).result.error.status == 402
  {
    var c := Subscriptions.Cancel(subs, me).0;
  }

  // ---------------------------------------------------------------------------
  // PATCH `/:id/toggle` and DELETE `/:id`

  const ReminderNotFound: Error := Error(404, "Reminder not found")

  /** PATCH `/:id/toggle` (users only): sets `active` on the caller's own
      reminder; 404 when the caller has no reminder with that id. */
  function Toggle(rs: seq<Reminder>, me: User, id: ReminderId, active: bool): (r: (seq<Reminder>, Result<Reminder>))
    ensures me.role != UserRole ==> r == (rs, Err(AuthMiddleware.Forbidden))
    ensures me.role == UserRole && OwnReminder(rs, me.id, id).None? ==> r == (rs, Err(ReminderNotFound))
    ensures r.1.Ok? <==> me.role == UserRole && OwnReminder(rs, me.id, id).Some?
    ensures r.1.Ok? ==>
      var i := OwnReminder(rs, me.id, id).value;
      r.1.value == rs[i].(active := active) && r.0 == rs[i := r.1.value]
  {
    if AuthMiddleware.RequireRole(Some(me.role), [UserRole]).Err? then (rs, Err(AuthMiddleware.Forbidden))
    else
      match OwnReminder(rs, me.id, id)
      case None => (rs, Err(ReminderNotFound))
      case Some(i) => (rs[i := rs[i].(active := active)], Ok(rs[i].(active := active)))
  }

  /** Toggling twice to the same value has no further effect, and other
      users' reminders are never touched. */
  lemma ToggleIdempotent(rs: seq<Reminder>, me: User, id: ReminderId, active: bool)
    ensures var t := Toggle(rs, me, id, active);
      Toggle(t.0, me, id, active) == t
    ensures var rs1 := Toggle(rs, me, id, active).0;
      |rs1| == |rs| && forall i :: 0 <= i < |rs| && rs[i].user != me.id ==> rs1[i] == rs[i]
  {
    var t := Toggle(rs, me, id, active);
    var rs1, r1 := t.0, t.1;
    if r1.Ok? {
      var i := OwnReminder(rs, me.id, id).value;
      assert forall k :: 0 <= k < |rs| && k != i ==> rs1[k] == rs[k];
      var j := OwnReminder(rs1, me.id, id);
      assert rs1[i].id == id && rs1[i].user == me.id;
      assert j.Some? && j.value == i;
      assert rs1[i].(active := active) == rs1[i];
      assert rs1[i := rs1[i]] == rs1;
    }
  }

  /** DELETE `/:id` (users only): removes the caller's own reminder with that
      id; 404 when there is none. */
  function Delete(rs: seq<Reminder>, me: User, id: ReminderId): (r: (seq<Reminder>, Result<()>))
    ensures me.role != UserRole ==> r == (rs, Err(AuthMiddleware.Forbidden))
    ensures r.1.Ok? <==> me.role == UserRole && OwnReminder(rs, me.id, id).Some?
    ensures me.role == UserRole && r.1.Err? ==> r == (rs, Err(ReminderNotFound))
    ensures r.1.Ok? ==> var i := OwnReminder(rs, me.id, id).value; r.0 == rs[..i] + rs[i + 1..]
  {
    if AuthMiddleware.RequireRole(Some(me.role), [UserRole]).Err? then (rs, Err(AuthMiddleware.Forbidden))
    else
      match OwnReminder(rs, me.id, id)
      case None => (rs, Err(ReminderNotFound))
      case Some(i) => (rs[..i] + rs[i + 1..], Ok(()))
  }

  /** Removing one element keeps ids increasing and below the next id. */
  lemma RemoveAtKeepsValid(rs: seq<Reminder>, nextId: ReminderId, i: nat)
    requires RemindersValid(rs, nextId) && i < |rs|
    ensures RemindersValid(rs[..i] + rs[i + 1..], nextId)
  {
    var r := rs[..i] + rs[i + 1..];
    forall j | 0 <= j < |r| ensures r[j] == rs[if j < i then j else j + 1] {
    }
  }

  /** With increasing ids, removing the element at `i` removes exactly the
      reminders with its id. */
  lemma RemoveAtMembers(rs: seq<Reminder>, i: nat)
    requires IdsIncrease(rs) && i < |rs|
    ensures forall x :: x in rs[..i] + rs[i + 1..] <==> x in rs && x.id != rs[i].id
  {
    var r := rs[..i] + rs[i + 1..];
    forall x ensures x in r <==> x in rs && x.id != rs[i].id {
      if x in r {
        var k :| 0 <= k < |r| && r[k] == x;
        if k < i {
          assert r[k] == rs[k];
        } else {
          assert r[k] == rs[k + 1];
        }
      }
      if x in rs && x.id != rs[i].id {
        var k :| 0 <= k < |rs| && rs[k] == x;
        if k < i {
          assert r[k] == x;
        } else {
          assert r[k - 1] == x;
        }
      }
    }
  }

  /** Deleting keeps the collection valid, removes the reminder, and keeps
      every other reminder. */
  lemma DeleteSpec(rs: seq<Reminder>, nextId: ReminderId, me: User, id: ReminderId)
    requires RemindersValid(rs, nextId)
    ensures var (rs1, r) := Delete(rs, me, id);
      RemindersValid(rs1, nextId) &&
      (r.Ok? ==> (forall x :: x in rs1 <==> x in rs && x.id != id) && |rs1| == |rs| - 1)
  {
    var (rs1, r) := Delete(rs, me, id);
    if r.Ok? {
      var i := OwnReminder(rs, me.id, id).value;
      RemoveAtKeepsValid(rs, nextId, i);
      RemoveAtMembers(rs, i);
    }
  }

  // ---------------------------------------------------------------------------
  // The handlers

  method CreateHandler(store: ReminderStore, subs: seq<Subscription>, catalog: Catalog, me: User,
                       body: ReminderBody, now: Millis) returns (res: Result<Reminder>)
    requires store.Valid()
    modifies store
    ensures store.Valid()
    ensures ReminderOutcome(store.reminders, store.nextId, res) ==
      Create(old(store.reminders), old(store.nextId), subs, catalog.meds, me, body, now)
  {
    var gate := AuthMiddleware.RequireRole(Some(me.role), [UserRole]);
    if gate.Err? {
      return Err(gate.error);
    }
    if !ReminderBodyValid(body) {
      return Err(Error(400, "Validation failed"));
    }
    var sub := ActiveSubscription(subs, me.id, now);
    if sub.None? {
      return Err(SubscriptionRequired);
    }
    var medicine: Option<Medicine> := None;
    if body.medicineId.Some? && body.medicineId.value in catalog.meds {
      medicine := Some(catalog.meds[body.medicineId.value]);
    }
    var name := if medicine.Some? then medicine.value.name else body.medicineName;
    var r := Reminder(store.nextId, me.id, if medicine.Some? then body.medicineId else None, name,
                      if body.dosage.Some? then body.dosage.value else "", body.timeOfDay, body.daysOfWeek, true);
    store.reminders := store.reminders + [r];
    store.nextId := store.nextId + 1;
    res := Ok(r);
  }

  method ToggleHandler(store: ReminderStore, me: User, id: ReminderId, active: bool) returns (res: Result<Reminder>)
    requires store.Valid()
    modifies store
    ensures store.Valid() && store.nextId == old(store.nextId)
    ensures (store.reminders, res) == Toggle(old(store.reminders), me, id, active)
  {
    var gate := AuthMiddleware.RequireRole(Some(me.role), [UserRole]);
    if gate.Err? {
      return Err(gate.error);
    }
    var found := OwnReminder(store.reminders, me.id, id);
    if found.None? {
      return Err(ReminderNotFound);
    }
    var reminder := store.reminders[found.value];
    reminder := reminder.(active := active);
    store.reminders := store.reminders[found.value := reminder];
    res := Ok(reminder);
  }

  method DeleteHandler(store: ReminderStore, me: User, id: ReminderId) returns (res: Result<()>)
    requires store.Valid()
    modifies store
    ensures store.Valid() && store.nextId == old(store.nextId)
    ensures (store.reminders, res) == Delete(old(store.reminders), me, id)
  {
    DeleteSpec(store.reminders, store.nextId, me, id);
    var gate := AuthMiddleware.RequireRole(Some(me.role), [UserRole]);
    if gate.Err? {
      return Err(gate.error);
    }
    var found := OwnReminder(store.reminders, me.id, id);
    if found.None? {
      return Err(ReminderNotFound);
    }
    store.reminders := store.reminders[..found.value] + store.reminders[found.value + 1..];
    res := Ok(());
  }
}
