/** The organizer page (client/src/pages/user/OrganizerPage.jsx): whether the
    subscription unlocks it, the reminder it creates, its local list of
    reminders, the weekday toggles, and the in-app notifier that fires due
    reminders at most once per minute. The clock is an input; showing the
    browser notification is not part of this model. */
module OrganizerPage {
  import opened Common
  import opened Seqs
  import opened Text
  import opened UserModel
  import opened MedicineModel
  import opened Subscriptions
  import Reminders

  // ---------------------------------------------------------------------------
  // The subscription gate

  /** `subActive`: a subscription that is "active" and ends no earlier than
      `now`. */
  predicate SubActiveAt(sub: Option<Subscription>, now: Millis)
  {
    sub.Some? && sub.value.status == SubActive && sub.value.endAt >= now
  }

  /** The page is unlocked, from what GET `/subscriptions/me` answered,
      exactly when the server's reminder gate lets the user through at the
      same instant. */
  lemma UnlockedIffServerGate(subs: seq<Subscription>, nextId: SubscriptionId, me: User, now: Millis)
    requires SubsValid(subs, nextId) && me.role == UserRole
    ensures SubActiveAt(Me(subs, me).value, now) <==> Reminders.ActiveSubscription(subs, me.id, now).Some?
  {
    var sub := Me(subs, me).value;
    if Reminders.ActiveSubscription(subs, me.id, now).Some? {
      var i :| 0 <= i < |subs| && subs[i].user == me.id && Reminders.ActiveAt(subs[i], now);
      var k :| 0 <= k < |subs| && subs[k] == sub.value;
      assert i == k;
    }
  }

  // ---------------------------------------------------------------------------
  // Creating a reminder

  /** The reminder's name: the selected catalogue medicine's, else the typed
      name, else "Medicine". */
  function ReminderName(meds: seq<Medicine>, selected: Option<MedId>, typed: string): (r: string)
    ensures (selected.Some? && exists i :: 0 <= i < |meds| && meds[i].id == selected.value) ==>
      exists i :: 0 <= i < |meds| && meds[i].id == selected.value && r == meds[i].name
    ensures (selected.None? || forall i :: 0 <= i < |meds| ==> meds[i].id != selected.value) ==>
      r == (if typed != "" then typed else "Medicine")
  {
    var found := if selected.Some? then FindIndex(meds, (m: Medicine) => m.id == selected.value) else None;
    if found.Some? then meds[found.value].name
    else if typed != "" then typed else "Medicine"
  }

  /** The create request: the selected medicine id (absent when none), the
      name above, the dosage, the time and the days. */
  function ReminderPayload(meds: seq<Medicine>, selected: Option<MedId>, typed: string, dosage: string,
                           timeOfDay: string, days: seq<int>): (b: Reminders.ReminderBody)
    ensures b.medicineId == selected && b.medicineName == ReminderName(meds, selected, typed)
    ensures b.dosage == Some(dosage) && b.timeOfDay == timeOfDay && b.daysOfWeek == days
  {
    Reminders.ReminderBody(selected, ReminderName(meds, selected, typed), Some(dosage), timeOfDay, days)
  }

  /** When the page's catalogue agrees with the server's and the selection
      comes from it, the server stores the name the page chose. */
  lemma StoredNameIsChosenName(rs: seq<Reminders.Reminder>, nextId: ReminderId, subs: seq<Subscription>,
                               catalog: map<MedId, Medicine>, me: User, now: Millis,
                               meds: seq<Medicine>, selected: Option<MedId>, typed: string, dosage: string,
                               timeOfDay: string, days: seq<int>)
    requires forall i :: 0 <= i < |meds| ==> meds[i].id in catalog && catalog[meds[i].id] == meds[i]
    requires selected.None? || exists i :: 0 <= i < |meds| && meds[i].id == selected.value
    requires Reminders.Create(rs, nextId, subs, catalog, me,
               ReminderPayload(meds, selected, typed, dosage, timeOfDay, days), now).result.Ok?
    ensures Reminders.Create(rs, nextId, subs, catalog, me,
              ReminderPayload(meds, selected, typed, dosage, timeOfDay, days), now).result.value.medicineName ==
            ReminderName(meds, selected, typed)
  {
    if selected.Some? {
      var i :| 0 <= i < |meds| && meds[i].id == selected.value && ReminderName(meds, selected, typed) == meds[i].name;
      assert catalog[selected.value] == meds[i];
    }
  }

  /** A weekday button: removes the day when it is selected, else appends
      it. */
  function ToggleDay(days: seq<int>, d: int): (r: seq<int>)
    ensures d in r <==> d !in days
    ensures forall x :: x != d ==> (x in r <==> x in days)
    ensures d !in days ==> r == days + [d]
  {
    if d in days then Filter(days, (x: int) => x != d) else days + [d]
  }

  /** Toggling a day twice restores the selection when the day was not
      selected, and restores its set of days when it was. */
  lemma ToggleDayTwice(days: seq<int>, d: int)
    ensures d !in days ==> ToggleDay(ToggleDay(days, d), d) == days
    ensures forall x :: x in ToggleDay(ToggleDay(days, d), d) <==> x in days
  {
    if d !in days {
      FilterAppend(days, d, (x: int) => x != d);
      FilterAll(days, (x: int) => x != d);
    }
  }

  // ---------------------------------------------------------------------------
  // The local list

  /** After a create: the new reminder first. */
  function Prepend(list: seq<Reminders.Reminder>, r: Reminders.Reminder): (l: seq<Reminders.Reminder>)
    ensures l == [r] + list
  {
    [r] + list
  }

  /** After a toggle: the reminder with that id replaced by the answer. */
  function ReplaceById(list: seq<Reminders.Reminder>, id: ReminderId, r: Reminders.Reminder): (l: seq<Reminders.Reminder>)
    ensures |l| == |list|
    ensures forall i :: 0 <= i < |list| ==> l[i] == if list[i].id == id then r else list[i]
  {
    seq(|list|, i requires 0 <= i < |list| => if list[i].id == id then r else list[i])
  }

  /** After a delete: every reminder with that id dropped, the rest in
      order. */
  function RemoveById(list: seq<Reminders.Reminder>, id: ReminderId): (l: seq<Reminders.Reminder>)
    ensures forall x :: x in l <==> x in list && x.id != id
    ensures IsSubsequence(l, list)
  {
    FilterIsSubsequence(list, (x: Reminders.Reminder) => x.id != id);
    Filter(list, (x: Reminders.Reminder) => x.id != id)
  }

  /** The caller's listing after appending one of the caller's reminders
      has that reminder first, then the listing before. */
  lemma ListAfterAppend(rs: seq<Reminders.Reminder>, r: Reminders.Reminder, me: User)
    requires me.role == UserRole && r.user == me.id
    ensures Reminders.List(rs + [r], me) == Ok([r] + Reminders.List(rs, me).value)
  {
    FilterAppend(rs, r, Reminders.OwnedBy(me.id));
    ReverseAppend(Filter(rs, Reminders.OwnedBy(me.id)), r);
  }

  /** Prepending the created reminder keeps the page's list equal to what
      the server would list afterwards: newest first. */
  lemma PrependMatchesServer(rs: seq<Reminders.Reminder>, nextId: ReminderId, subs: seq<Subscription>,
                             catalog: map<MedId, Medicine>, me: User, body: Reminders.ReminderBody, now: Millis)
    requires Reminders.Create(rs, nextId, subs, catalog, me, body, now).result.Ok?
    ensures var o := Reminders.Create(rs, nextId, subs, catalog, me, body, now);
      Reminders.List(o.reminders, me) == Ok(Prepend(Reminders.List(rs, me).value, o.result.value))
  {
    var o := Reminders.Create(rs, nextId, subs, catalog, me, body, now);
    ListAfterAppend(rs, o.result.value, me);
  }

  // ---------------------------------------------------------------------------
  // The notifier

  /** The local clock reading the timer takes: year, month (0-based), day of
      the month, hours, minutes, and the weekday (0 being Sunday). */
  datatype Instant = Instant(year: nat, month: nat, date: nat, hours: nat, minutes: nat, weekday: nat)

  /** `${hh}:${mm}`, each padded to two digits. */
  function ClockText(at: Instant): string
  {
    PadStart2(NatToString(at.hours)) + ":" + PadStart2(NatToString(at.minutes))
  }

  /** The key of a date and minute: `${year}-${month}-${date}_${hh}:${mm}`. */
  function MinuteKey(at: Instant): string
  {
    NatToString(at.year) + "-" + NatToString(at.month) + "-" + NatToString(at.date) + "_" + ClockText(at)
  }

  /** The test a due reminder passes. */
  function DueAt(at: Instant): Reminders.Reminder -> bool
  {
    (r: Reminders.Reminder) => r.active && r.timeOfDay == ClockText(at) && at.weekday in r.daysOfWeek
  }

  /** The reminders due at `at`, in list order. */
  function Due(reminders: seq<Reminders.Reminder>, at: Instant): (r: seq<Reminders.Reminder>)
    ensures forall x :: x in r <==>
      x in reminders && x.active && x.timeOfDay == ClockText(at) && at.weekday in x.daysOfWeek
    ensures IsSubsequence(r, reminders)
  {
    FilterIsSubsequence(reminders, DueAt(at));
    Filter(reminders, DueAt(at))
  }

  /** The notification text: "name (dosage)" for each, joined by ", ". */
  function NotificationBody(due: seq<Reminders.Reminder>): string
  {
    Join(seq(|due|, i requires 0 <= i < |due| => due[i].medicineName + " (" + due[i].dosage + ")"), ", ")
  }

  /** The timer's memory: the key of the last minute it fired in. */
  class Notifier {
    var lastFired: string

    constructor ()
      ensures lastFired == ""
    {
      lastFired := "";
    }

    /** One tick of the 20-second timer, which exists only while the page
        is unlocked: nothing fires twice for the same date and minute, and
        the key is recorded only when something fires. */
    method Tick(unlocked: bool, reminders: seq<Reminders.Reminder>, at: Instant) returns (fired: Option<string>)
      modifies this
      ensures fired.Some? <==> unlocked && old(lastFired) != MinuteKey(at) && |Due(reminders, at)| > 0
      ensures fired.Some? ==> fired.value == NotificationBody(Due(reminders, at)) && lastFired == MinuteKey(at)
      ensures fired.None? ==> lastFired == old(lastFired)
    {
      if !unlocked {
        return None;
      }
      var key := MinuteKey(at);
      if lastFired == key {
        return None;
      }
      var due := Due(reminders, at);
      if |due| > 0 {
        lastFired := key;
        fired := Some(NotificationBody(due));
      } else {
        fired := None;
      }
    }
  }
}
