/** The admin routes (server/src/routes/admin.routes.js): patching and
    deleting users, the revenue and daily-order analytics, and patching
    subscriptions. Every route first requires an authenticated admin. */
module Admin {
  import opened Common
  import opened Text
  import opened Seqs
  import opened UserModel
  import opened OrderModel
  import opened Subscriptions
  import AuthMiddleware

  /** `router.use(requireAuth, requireRole("admin"))`. */
  function AdminGate(me: User): (r: Result<()>)
    ensures r.Ok? <==> me.role == AdminRole
    ensures r.Err? ==> r.error == AuthMiddleware.Forbidden
  {
    AuthMiddleware.RequireRole(Some(me.role), [AdminRole])
  }

  // ---------------------------------------------------------------------------
  // PATCH `/users/:id`

  /** The patch schema: only these four fields can be sent. */
  datatype UserPatch = UserPatch(
    role: Option<Role>,
    name: Option<string>,
    phone: Option<string>,
    defaultPaymentMethod: Option<PaymentMethod>)

  predicate UserPatchValid(p: UserPatch)
  {
    p.name.Some? ==> |p.name.value| >= 2
  }

  /** `$set: req.body`: the fields present in the patch replace the stored
      ones. The schema's `trim` setter runs on the update, so a name is
      stored trimmed (server/src/models/User.js:16). */
  function ApplyUserPatch(u: User, p: UserPatch): (r: User)
    ensures r.role == (if p.role.Some? then p.role.value else u.role)
    ensures r.name == (if p.name.Some? then Trim(p.name.value) else u.name)
    ensures p.name.Some? ==> r.name == [] || (!IsSpace(r.name[0]) && !IsSpace(r.name[|r.name| - 1]))
    ensures r.phone == (if p.phone.Some? then p.phone.value else u.phone)
    ensures r.defaultPaymentMethod == (if p.defaultPaymentMethod.Some? then p.defaultPaymentMethod.value else u.defaultPaymentMethod)
    ensures r.(role := u.role, name := u.name, phone := u.phone, defaultPaymentMethod := u.defaultPaymentMethod) == u
  {
    u.(role := if p.role.Some? then p.role.value else u.role,
       name := if p.name.Some? then Trim(p.name.value) else u.name,
       phone := if p.phone.Some? then p.phone.value else u.phone,
       defaultPaymentMethod := if p.defaultPaymentMethod.Some? then p.defaultPaymentMethod.value else u.defaultPaymentMethod)
  }

  /** An empty patch changes nothing, and a patch applied twice is the same
      as once. */
  lemma ApplyUserPatchIdempotent(u: User, p: UserPatch)
    ensures ApplyUserPatch(ApplyUserPatch(u, p), p) == ApplyUserPatch(u, p)
    ensures ApplyUserPatch(u, UserPatch(None, None, None, None)) == u
  {
    assert ApplyUserPatch(ApplyUserPatch(u, p), p) == ApplyUserPatch(u, p) by {
      var once := ApplyUserPatch(u, p);
      var twice := ApplyUserPatch(once, p);
      if p.name.Some? {
        TrimIdempotent(p.name.value);
      }
      assert twice.name == once.name;
    }
  }

  const UserNotFound: Error := Error(404, "User not found")

  /** PATCH `/users/:id`: 400 on an invalid patch, 404 for an unknown user;
      otherwise the patched user, answered without its password hash. */
  function PatchUser(users: map<UserId, User>, me: User, id: UserId, p: UserPatch): (r: (map<UserId, User>, Result<User>))
    ensures r.1.Ok? <==> me.role == AdminRole && UserPatchValid(p) && id in users
    ensures me.role != AdminRole ==> r == (users, Err(AuthMiddleware.Forbidden))
    ensures me.role == AdminRole && !UserPatchValid(p) ==> r == (users, Err(Error(400, "Validation failed")))
    ensures me.role == AdminRole && UserPatchValid(p) && id !in users ==> r == (users, Err(UserNotFound))
    ensures r.1.Ok? ==>
      r.0 == users[id := ApplyUserPatch(users[id], p)] &&
      r.1.value == AuthMiddleware.WithoutHash(ApplyUserPatch(users[id], p))
  {
    if AdminGate(me).Err? then (users, Err(AuthMiddleware.Forbidden))
    else if !UserPatchValid(p) then (users, Err(Error(400, "Validation failed")))
    else if id !in users then (users, Err(UserNotFound))
    else
      var u := ApplyUserPatch(users[id], p);
      (users[id := u], Ok(AuthMiddleware.WithoutHash(u)))
  }

  method PatchUserHandler(store: UserStore, me: User, id: UserId, p: UserPatch) returns (res: Result<User>)
    requires store.Valid()
    modifies store
    ensures store.Valid() && store.nextId == old(store.nextId)
    ensures (store.users, res) == PatchUser(old(store.users), me, id, p)
  {
    var gate := AdminGate(me);
    if gate.Err? {
      return Err(gate.error);
    }
    if !UserPatchValid(p) {
      return Err(Error(400, "Validation failed"));
    }
    if id !in store.users {
      return Err(UserNotFound);
    }
    var u := ApplyUserPatch(store.users[id], p);
    store.users := store.users[id := u];
    res := Ok(AuthMiddleware.WithoutHash(u));
  }

  // ---------------------------------------------------------------------------
  // DELETE `/users/:id`

  /** `Subscription.deleteOne({ user })`: removes the first subscription of
      the user, if any. */
  function DeleteSubscriptionOf(subs: seq<Subscription>, user: UserId): (r: seq<Subscription>)
    ensures OfUser(subs, user).None? ==> r == subs
    ensures OfUser(subs, user).Some? ==>
      var i := OfUser(subs, user).value; r == subs[..i] + subs[i + 1..]
  {
    match OfUser(subs, user)
    case None => subs
    case Some(i) => subs[..i] + subs[i + 1..]
  }

  /** With one subscription per user, deleting the user's subscription
      leaves none of theirs and keeps every other. */
  lemma DeleteSubscriptionOfSpec(subs: seq<Subscription>, nextId: SubscriptionId, user: UserId)
    requires SubsValid(subs, nextId)
    ensures var r := DeleteSubscriptionOf(subs, user);
      SubsValid(r, nextId) && forall s :: s in r <==> s in subs && s.user != user
  {
    var r := DeleteSubscriptionOf(subs, user);
    match OfUser(subs, user)
    case None =>
    case Some(i) =>
      forall j | 0 <= j < |r| ensures r[j] == subs[if j < i then j else j + 1] {
      }
      forall s ensures s in r <==> s in subs && s.user != user {
        if s in subs && s.user != user {
          var k :| 0 <= k < |subs| && subs[k] == s;
          if k < i {
            assert r[k] == s;
          } else {
            assert r[k - 1] == s;
          }
        }
      }
  }

  /** DELETE `/users/:id`: 404 for an unknown user; otherwise the user, the
      user's doctor profile and the user's subscription are deleted. Orders,
      appointments, slots and reminders are kept. */
  method DeleteUserHandler(users: UserStore, profiles: ProfileStore, subs: SubscriptionStore, me: User, id: UserId)
    returns (res: Result<()>)
    requires users.Valid() && profiles.Valid() && subs.Valid()
    modifies users, profiles, subs
    ensures users.Valid() && profiles.Valid() && subs.Valid()
    ensures res.Ok? <==> me.role == AdminRole && id in old(users.users)
    ensures me.role != AdminRole ==> res == Err(AuthMiddleware.Forbidden)
    ensures me.role == AdminRole && id !in old(users.users) ==> res == Err(UserNotFound)
    ensures res.Ok? ==>
      users.users == old(users.users) - {id} && profiles.profiles == old(profiles.profiles) - {id} &&
      subs.subs == DeleteSubscriptionOf(old(subs.subs), id) && subs.nextId == old(subs.nextId)
    ensures res.Err? ==>
      users.users == old(users.users) && profiles.profiles == old(profiles.profiles) && subs.subs == old(subs.subs)
  {
    var gate := AdminGate(me);
    if gate.Err? {
      return Err(gate.error);
    }
    if id !in users.users {
      return Err(UserNotFound);
    }
    users.users := users.users - {id};
    profiles.profiles := profiles.profiles - {id};
    DeleteSubscriptionOfSpec(subs.subs, subs.nextId, id);
    subs.subs := DeleteSubscriptionOf(subs.subs, id);
    res := Ok(());
  }

  // ---------------------------------------------------------------------------
  // GET `/analytics`: revenue

  /** The sum of the orders' totals. */
  function SumTotals(orders: seq<Order>): real
    decreases |orders|
  {
    if orders == [] then 0.0 else SumTotals(orders[..|orders| - 1]) + orders[|orders| - 1].total
  }

  /** The revenue aggregate over the orders (listed in any order):
      `$match status != "Cancelled"`, `$sum total`, and 0 when nothing
      matches. */
  function Revenue(orders: seq<Order>): real
    decreases |orders|
  {
    if orders == [] then 0.0
    else
      var last := orders[|orders| - 1];
      Revenue(orders[..|orders| - 1]) + (if last.status != Cancelled then last.total else 0.0)
  }

  /** An order that is not cancelled. */
  function Live(): Order -> bool
  {
    (o: Order) => o.status != Cancelled
  }

  /** The revenue is the sum of the totals of the orders that are not
      cancelled. */
  lemma {:induction false} RevenueIsSumOfLive(orders: seq<Order>)
    ensures Revenue(orders) == SumTotals(Filter(orders, Live()))
    decreases |orders|
  {
    if orders != [] {
      var init := orders[..|orders| - 1];
      var last := orders[|orders| - 1];
      RevenueIsSumOfLive(init);
      var f := Filter(init, Live());
      assert Filter(orders, Live()) == f + (if last.status != Cancelled then [last] else []) by {
        assert orders == init + [last];
        FilterAppend(init, last, Live());
        assert Live()(last) == (last.status != Cancelled);
      }
      if last.status != Cancelled {
        SumTotalsSnoc(f, last);
      } else {
        assert f + [] == f;
      }
    }
  }

  /** Appending an order adds its total to the sum. */
  lemma SumTotalsSnoc(orders: seq<Order>, o: Order)
    ensures SumTotals(orders + [o]) == SumTotals(orders) + o.total
  {
    assert (orders + [o])[..|orders|] == orders;
  }

  /** With non-negative totals the revenue is non-negative and at most the
      sum of all totals. */
  lemma {:induction false} RevenueBounds(orders: seq<Order>)
    requires forall i :: 0 <= i < |orders| ==> orders[i].total >= 0.0
    ensures 0.0 <= Revenue(orders) <= SumTotals(orders)
    decreases |orders|
  {
    if orders != [] {
      var init := orders[..|orders| - 1];
      RevenueBounds(init);
      assert orders[|orders| - 1].total >= 0.0;
      assert SumTotals(orders) == SumTotals(init) + orders[|orders| - 1].total;
      assert Revenue(orders) == Revenue(init) + (if orders[|orders| - 1].status != Cancelled then orders[|orders| - 1].total else 0.0);
    }
  }

  /** Cancelling one order lowers the revenue by exactly that order's total
      if it was live, and leaves it as it was if it was already cancelled. */
  lemma {:induction false} CancellingRemovesFromRevenue(orders: seq<Order>, i: nat)
    requires i < |orders|
    ensures Revenue(orders[i := orders[i].(status := Cancelled)]) ==
      Revenue(orders) - (if orders[i].status != Cancelled then orders[i].total else 0.0)
    decreases |orders|
  {
    var after := orders[i := orders[i].(status := Cancelled)];
    var init := orders[..|orders| - 1];
    if i < |orders| - 1 {
      CancellingRemovesFromRevenue(init, i);
      assert after[..|after| - 1] == init[i := init[i].(status := Cancelled)];
    } else {
      assert after[..|after| - 1] == init;
    }
  }

  // ---------------------------------------------------------------------------
  // GET `/analytics`: the daily series

  /** An order as the daily aggregation sees it: its creation time and
      total. */
  datatype Stamped = Stamped(createdAt: Millis, total: real)

  /** One group of the series: the UTC day (days since the epoch, the
      `%Y-%m-%d` key), the number of orders and their revenue. */
  datatype DailyBucket = DailyBucket(day: int, orders: nat, revenue: real)

  /** The UTC day of a time; `/` rounds down here, as the date of a negative
      time does. */
  function DayOf(t: Millis): int
  {
    t / MillisPerDay
  }

  /** The groups are sorted by day, strictly, and none is empty. */
  predicate Ascending(bs: seq<DailyBucket>)
  {
    (forall i :: 0 <= i < |bs| - 1 ==> bs[i].day < bs[i + 1].day) &&
    (forall i :: 0 <= i < |bs| ==> bs[i].orders > 0)
  }

  /** The number of orders the series records for `day`. */
  function OrdersOn(bs: seq<DailyBucket>, day: int): nat
    decreases |bs|
  {
    if bs == [] then 0 else if bs[0].day == day then bs[0].orders else OrdersOn(bs[1..], day)
  }

  /** The revenue the series records for `day`. */
  function RevenueOn(bs: seq<DailyBucket>, day: int): real
    decreases |bs|
  {
    if bs == [] then 0.0 else if bs[0].day == day then bs[0].revenue else RevenueOn(bs[1..], day)
  }

  /** Adds one order of `day` to the series: a new group in its place, or one
      more in the existing group. */
  function Bump(bs: seq<DailyBucket>, day: int, total: real): (r: seq<DailyBucket>)
    ensures r != [] && (r[0].day == day || (bs != [] && r[0].day == bs[0].day))
    decreases |bs|
  {
    if bs == [] then [DailyBucket(day, 1, total)]
    else if bs[0].day == day then [bs[0].(orders := bs[0].orders + 1, revenue := bs[0].revenue + total)] + bs[1..]
    else if day < bs[0].day then [DailyBucket(day, 1, total)] + bs
    else [bs[0]] + Bump(bs[1..], day, total)
  }

  /** A sorted series records nothing before its first day. */
  lemma {:induction false} NothingBeforeFirst(bs: seq<DailyBucket>, day: int)
    requires Ascending(bs) && bs != [] && day < bs[0].day
    ensures OrdersOn(bs, day) == 0 && RevenueOn(bs, day) == 0.0
    decreases |bs|
  {
    if |bs| > 1 {
      NothingBeforeFirst(bs[1..], day);
    }
  }

  lemma {:induction false} BumpSpec(bs: seq<DailyBucket>, day: int, total: real)
    requires Ascending(bs)
    ensures var r := Bump(bs, day, total);
      Ascending(r) &&
      (forall d :: OrdersOn(r, d) == OrdersOn(bs, d) + (if d == day then 1 else 0)) &&
      (forall d :: RevenueOn(r, d) == RevenueOn(bs, d) + (if d == day then total else 0.0))
    decreases |bs|
  {
    if bs != [] {
      if bs[0].day == day {
      } else if day < bs[0].day {
        NothingBeforeFirst(bs, day);
      } else {
        var tail := bs[1..];
        assert Ascending(tail);
        BumpSpec(tail, day, total);
        var r := Bump(bs, day, total);
        assert r == [bs[0]] + Bump(tail, day, total);
      }
    }
  }

  /** The number of orders created at or after `since` on `day`. */
  function CountOn(xs: seq<Stamped>, since: Millis, day: int): nat
    decreases |xs|
  {
    if xs == [] then 0
    else
      var x := xs[|xs| - 1];
      CountOn(xs[..|xs| - 1], since, day) + (if x.createdAt >= since && DayOf(x.createdAt) == day then 1 else 0)
  }

  /** The total of the orders created at or after `since` on `day`. */
  function SumOn(xs: seq<Stamped>, since: Millis, day: int): real
    decreases |xs|
  {
    if xs == [] then 0.0
    else
      var x := xs[|xs| - 1];
      SumOn(xs[..|xs| - 1], since, day) + (if x.createdAt >= since && DayOf(x.createdAt) == day then x.total else 0.0)
  }

  /** The daily aggregate: orders created at or after `since` (the start of
      the day six days ago, a clock input), grouped by day, ascending. */
  function Daily(xs: seq<Stamped>, since: Millis): seq<DailyBucket>
    decreases |xs|
  {
    if xs == [] then []
    else
      var bs := Daily(xs[..|xs| - 1], since);
      var x := xs[|xs| - 1];
      if x.createdAt >= since then Bump(bs, DayOf(x.createdAt), x.total) else bs
  }

  /** The series is sorted by day with one non-empty group per day, and each
      day's group counts and sums exactly that day's orders since `since`. */
  lemma {:induction false} DailySpec(xs: seq<Stamped>, since: Millis)
    ensures Ascending(Daily(xs, since))
    ensures forall d :: OrdersOn(Daily(xs, since), d) == CountOn(xs, since, d)
    ensures forall d :: RevenueOn(Daily(xs, since), d) == SumOn(xs, since, d)
    decreases |xs|
  {
    if xs != [] {
      var init := xs[..|xs| - 1];
      DailySpec(init, since);
      var x := xs[|xs| - 1];
      if x.createdAt >= since {
        BumpSpec(Daily(init, since), DayOf(x.createdAt), x.total);
      }
    }
  }

  // ---------------------------------------------------------------------------
  // PATCH `/subscriptions/:id`

  datatype SubPatch = SubPatch(status: Option<SubStatus>, endAt: Option<string>)

  const SubscriptionNotFound: Error := Error(404, "Subscription not found")

  /** The patch rule: the status changes only when one is sent; the end date
      only when a non-blank string is sent, read by `parseDate` (which stands
      for `new Date(s)`). */
  function ApplySubPatch(s: Subscription, p: SubPatch, parseDate: string -> Millis): (r: Subscription)
    ensures r.status == (if p.status.Some? then p.status.value else s.status)
    ensures r.endAt == (if p.endAt.Some? && Trim(p.endAt.value) != "" then parseDate(p.endAt.value) else s.endAt)
    ensures r.(status := s.status, endAt := s.endAt) == s
  {
    var s1 := if p.status.Some? then s.(status := p.status.value) else s;
    if p.endAt.Some? && Trim(p.endAt.value) != "" then s1.(endAt := parseDate(p.endAt.value)) else s1
  }

  /** A blank end date, spaces included, leaves the end date alone. */
  lemma BlankEndAtKeepsEnd(s: Subscription, status: Option<SubStatus>, blank: string, parseDate: string -> Millis)
    requires forall i :: 0 <= i < |blank| ==> IsSpace(blank[i])
    ensures ApplySubPatch(s, SubPatch(status, Some(blank)), parseDate).endAt == s.endAt
  {
    TrimEmptyIff(blank);
  }

  /** PATCH `/subscriptions/:id`: 404 for an unknown subscription, else the
      patched subscription. */
  function PatchSubscription(subs: seq<Subscription>, me: User, id: SubscriptionId, p: SubPatch,
                             parseDate: string -> Millis): (r: (seq<Subscription>, Result<Subscription>))
    ensures r.1.Ok? <==> me.role == AdminRole && WithId(subs, id).Some?
    ensures me.role != AdminRole ==> r == (subs, Err(AuthMiddleware.Forbidden))
    ensures me.role == AdminRole && WithId(subs, id).None? ==> r == (subs, Err(SubscriptionNotFound))
    ensures r.1.Ok? ==> var i := WithId(subs, id).value;
      r.1.value == ApplySubPatch(subs[i], p, parseDate) && r.0 == subs[i := r.1.value]
  {
    if AdminGate(me).Err? then (subs, Err(AuthMiddleware.Forbidden))
    else
      match WithId(subs, id)
      case None => (subs, Err(SubscriptionNotFound))
      case Some(i) =>
        var s := ApplySubPatch(subs[i], p, parseDate);
        (subs[i := s], Ok(s))
  }

  method PatchSubscriptionHandler(store: SubscriptionStore, me: User, id: SubscriptionId, p: SubPatch,
                                  parseDate: string -> Millis) returns (res: Result<Subscription>)
    requires store.Valid()
    modifies store
    ensures store.Valid() && store.nextId == old(store.nextId)
    ensures (store.subs, res) == PatchSubscription(old(store.subs), me, id, p, parseDate)
  {
    var gate := AdminGate(me);
    if gate.Err? {
      return Err(gate.error);
    }
    var found := WithId(store.subs, id);
    if found.None? {
      return Err(SubscriptionNotFound);
    }
    var sub := store.subs[found.value];
    if p.status.Some? {
      sub := sub.(status := p.status.value);
    }
    if p.endAt.Some? {
      if Trim(p.endAt.value) != "" {
        sub := sub.(endAt := parseDate(p.endAt.value));
      }
    }
    store.subs := store.subs[found.value := sub];
    res := Ok(sub);
  }
}
