/** The organizer subscription (server/src/models/Subscription.js) and its
    routes (server/src/routes/subscriptions.routes.js): reading the caller's
    subscription, starting it (an upsert keyed by the user) and cancelling
    it. */
module Subscriptions {
  import opened Common
  import opened Seqs
  import opened UserModel
  import AuthMiddleware

  /** The status enum: active (the default), cancelled or expired. */
  datatype SubStatus = SubActive | SubCancelled | SubExpired

  function SubStatusName(s: SubStatus): string
  {
    match s
    case SubActive => "active"
    case SubCancelled => "cancelled"
    case SubExpired => "expired"
  }

  /** The plan enum has a single value. */
  datatype Plan = OrganizerMonthly

  const PlanName: string := "OrganizerMonthly"

  datatype Subscription = Subscription(
    id: SubscriptionId,
    user: UserId,
    plan: Plan,
    status: SubStatus,
    startAt: Millis,
    endAt: Millis)

  /** The collection: ids are distinct and below the next fresh id, and the
      unique index on `user` holds, so each user has at most one
      subscription. */
  predicate SubsValid(subs: seq<Subscription>, nextId: SubscriptionId)
  {
    (forall i :: 0 <= i < |subs| ==> subs[i].id < nextId) &&
    (forall i, j :: 0 <= i < j < |subs| ==> subs[i].user != subs[j].user && subs[i].id != subs[j].id)
  }

  class SubscriptionStore {
    var subs: seq<Subscription>
    var nextId: SubscriptionId

    ghost predicate Valid()
      reads this
    {
      SubsValid(subs, nextId)
    }

    constructor ()
      ensures Valid() && subs == [] && nextId == 0
    {
      subs := [];
      nextId := 0;
    }
  }

  /** `Subscription.findOne({ user })`: the position of the user's
      subscription. */
  function OfUser(subs: seq<Subscription>, user: UserId): (r: Option<nat>)
    ensures r.Some? ==> r.value < |subs| && subs[r.value].user == user
    ensures r.None? <==> forall i :: 0 <= i < |subs| ==> subs[i].user != user
  {
    FindIndex(subs, (s: Subscription) => s.user == user)
  }

  /** `Subscription.findById(id)`: the position of the subscription with this
      id. */
  function WithId(subs: seq<Subscription>, id: SubscriptionId): (r: Option<nat>)
    ensures r.Some? ==> r.value < |subs| && subs[r.value].id == id
    ensures r.None? <==> forall i :: 0 <= i < |subs| ==> subs[i].id != id
  {
    FindIndex(subs, (s: Subscription) => s.id == id)
  }

  // ---------------------------------------------------------------------------
  // GET `/me`

  /** GET `/me` (users only): the caller's subscription, or null. */
  function Me(subs: seq<Subscription>, me: User): (r: Result<Option<Subscription>>)
    ensures me.role != UserRole ==> r == Err(AuthMiddleware.Forbidden)
    ensures me.role == UserRole ==> r.Ok?
    ensures r.Ok? ==> (r.value.Some? <==> exists i :: 0 <= i < |subs| && subs[i].user == me.id)
    ensures r.Ok? && r.value.Some? ==> r.value.value in subs && r.value.value.user == me.id
  {
    if AuthMiddleware.RequireRole(Some(me.role), [UserRole]).Err? then Err(AuthMiddleware.Forbidden)
    else
      match OfUser(subs, me.id)
      case None => Ok(None)
      case Some(i) => Ok(Some(subs[i]))
  }

  // ---------------------------------------------------------------------------
  // POST `/start`

  /** The body's plan: absent means the default; any name but
      "OrganizerMonthly" fails validation. */
  function ParsePlan(plan: Option<string>): (r: Option<Plan>)
    ensures r.Some? <==> plan.None? || plan.value == PlanName
  {
    if plan.None? || plan.value == PlanName then Some(OrganizerMonthly) else None
  }

  /** The collection after a request, the next fresh id, and the answer. */
  datatype SubOutcome = SubOutcome(subs: seq<Subscription>, nextId: SubscriptionId, result: Result<Subscription>)

  /** POST `/start` (users only): sets the caller's subscription, creating it
      if there is none, to the plan, status active, `startAt = now` and
      `endAt = addMonth(now)`. `addMonth` stands for `Date.setMonth` one
      month ahead. */
  function Start(subs: seq<Subscription>, nextId: SubscriptionId, me: User, plan: Option<string>,
                 now: Millis, addMonth: Millis -> Millis): (o: SubOutcome)
    ensures me.role != UserRole ==> o == SubOutcome(subs, nextId, Err(AuthMiddleware.Forbidden))
    ensures me.role == UserRole && ParsePlan(plan).None? ==>
      o == SubOutcome(subs, nextId, Err(Error(400, "Validation failed")))
    ensures o.result.Ok? <==> me.role == UserRole && ParsePlan(plan).Some?
    ensures o.result.Ok? ==>
      var s := o.result.value;
      s.user == me.id && s.plan == OrganizerMonthly && s.status == SubActive &&
      s.startAt == now && s.endAt == addMonth(now)
    ensures o.result.Ok? && OfUser(subs, me.id).Some? ==>
      var i := OfUser(subs, me.id).value;
      o.result.value.id == subs[i].id && o.subs == subs[i := o.result.value] && o.nextId == nextId
    ensures o.result.Ok? && OfUser(subs, me.id).None? ==>
      o.result.value.id == nextId && o.subs == subs + [o.result.value] && o.nextId == nextId + 1
  {
    if AuthMiddleware.RequireRole(Some(me.role), [UserRole]).Err? then
      SubOutcome(subs, nextId, Err(AuthMiddleware.Forbidden))
    else if ParsePlan(plan).None? then
      SubOutcome(subs, nextId, Err(Error(400, "Validation failed")))
    else
      match OfUser(subs, me.id)
      case Some(i) =>
        var s := subs[i].(plan := OrganizerMonthly, status := SubActive, startAt := now, endAt := addMonth(now));
        SubOutcome(subs[i := s], nextId, Ok(s))
      case None =>
        var s := Subscription(nextId, me.id, OrganizerMonthly, SubActive, now, addMonth(now));
        SubOutcome(subs + [s], nextId + 1, Ok(s))
  }

  /** After a successful start, GET `/me` answers the subscription just
      written. */
  lemma StartThenMe(subs: seq<Subscription>, nextId: SubscriptionId, me: User, plan: Option<string>,
                    now: Millis, addMonth: Millis -> Millis)
    requires me.role == UserRole && ParsePlan(plan).Some?
    ensures var o := Start(subs, nextId, me, plan, now, addMonth);
      Me(o.subs, me) == Ok(Some(o.result.value))
  {
    var o := Start(subs, nextId, me, plan, now, addMonth);
    var k := if OfUser(subs, me.id).Some? then OfUser(subs, me.id).value else |subs|;
    assert o.subs[k] == o.result.value;
    var j := OfUser(o.subs, me.id);
    assert j.Some?;
  }

  lemma StartKeepsValid(subs: seq<Subscription>, nextId: SubscriptionId, me: User, plan: Option<string>,
                        now: Millis, addMonth: Millis -> Millis)
    requires SubsValid(subs, nextId)
    ensures var o := Start(subs, nextId, me, plan, now, addMonth);
      SubsValid(o.subs, o.nextId) && |o.subs| <= |subs| + 1
  {
  }

  /** Starting again does not extend the period: whatever the earlier
      subscription was, the new one runs from the new start for one month,
      and the user still has exactly one subscription. */
  lemma {:induction false} RestartResetsPeriod(subs: seq<Subscription>, nextId: SubscriptionId, me: User,
      now1: Millis, now2: Millis, addMonth: Millis -> Millis)
    requires SubsValid(subs, nextId) && me.role == UserRole
    ensures var o1 := Start(subs, nextId, me, None, now1, addMonth);
      var o2 := Start(o1.subs, o1.nextId, me, None, now2, addMonth);
      o2.result.Ok? && o2.result.value.startAt == now2 && o2.result.value.endAt == addMonth(now2) &&
      o2.result.value.id == o1.result.value.id && |o2.subs| == |o1.subs|
  {
    var o1 := Start(subs, nextId, me, None, now1, addMonth);
    StartThenMe(subs, nextId, me, None, now1, addMonth);
  }

  // ---------------------------------------------------------------------------
  // POST `/cancel`

  const NoSubscription: Error := Error(404, "No subscription")

  /** POST `/cancel` (users only): 404 without a subscription; otherwise the
      status becomes cancelled and the dates stay as they were. */
  function Cancel(subs: seq<Subscription>, me: User): (r: (seq<Subscription>, Result<Subscription>))
    ensures me.role != UserRole ==> r == (subs, Err(AuthMiddleware.Forbidden))
    ensures me.role == UserRole && OfUser(subs, me.id).None? ==> r == (subs, Err(NoSubscription))
    ensures r.1.Ok? <==> me.role == UserRole && OfUser(subs, me.id).Some?
    ensures r.1.Ok? ==>
      var i := OfUser(subs, me.id).value;
      r.1.value == subs[i].(status := SubCancelled) && r.0 == subs[i := r.1.value] &&
      r.1.value.startAt == subs[i].startAt && r.1.value.endAt == subs[i].endAt
  {
    if AuthMiddleware.RequireRole(Some(me.role), [UserRole]).Err? then (subs, Err(AuthMiddleware.Forbidden))
    else
      match OfUser(subs, me.id)
      case None => (subs, Err(NoSubscription))
      case Some(i) =>
        var s := subs[i].(status := SubCancelled);
        (subs[i := s], Ok(s))
  }

  lemma CancelKeepsValid(subs: seq<Subscription>, nextId: SubscriptionId, me: User)
    requires SubsValid(subs, nextId)
    ensures SubsValid(Cancel(subs, me).0, nextId) && |Cancel(subs, me).0| == |subs|
  {
  }

  // ---------------------------------------------------------------------------
  // The handlers

  method StartHandler(store: SubscriptionStore, me: User, plan: Option<string>, now: Millis, addMonth: Millis -> Millis)
    returns (res: Result<Subscription>)
    requires store.Valid()
    modifies store
    ensures store.Valid()
    ensures SubOutcome(store.subs, store.nextId, res) == Start(old(store.subs), old(store.nextId), me, plan, now, addMonth)
  {
    StartKeepsValid(store.subs, store.nextId, me, plan, now, addMonth);
    var gate := AuthMiddleware.RequireRole(Some(me.role), [UserRole]);
    if gate.Err? {
      return Err(gate.error);
    }
    var parsed := ParsePlan(plan);
    if parsed.None? {
      return Err(Error(400, "Validation failed"));
    }
    var end := addMonth(now);
    var found := OfUser(store.subs, me.id);
    var sub: Subscription;
    if found.Some? {
      sub := store.subs[found.value].(plan := parsed.value, status := SubActive, startAt := now, endAt := end);
      store.subs := store.subs[found.value := sub];
    } else {
      sub := Subscription(store.nextId, me.id, parsed.value, SubActive, now, end);
      store.subs := store.subs + [sub];
      store.nextId := store.nextId + 1;
    }
    res := Ok(sub);
  }

  method CancelHandler(store: SubscriptionStore, me: User) returns (res: Result<Subscription>)
    requires store.Valid()
    modifies store
    ensures store.Valid() && store.nextId == old(store.nextId)
    ensures (store.subs, res) == Cancel(old(store.subs), me)
  {
    CancelKeepsValid(store.subs, store.nextId, me);
    var gate := AuthMiddleware.RequireRole(Some(me.role), [UserRole]);
    if gate.Err? {
      return Err(gate.error);
    }
    var found := OfUser(store.subs, me.id);
    if found.None? {
      return Err(NoSubscription);
    }
    var sub := store.subs[found.value];
    sub := sub.(status := SubCancelled);
    store.subs := store.subs[found.value := sub];
    res := Ok(sub);
  }
}
