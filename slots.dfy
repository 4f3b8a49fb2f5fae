/** Availability slots (server/src/models/AvailabilitySlot.js) and their
    routes (server/src/routes/slots.routes.js): listing a doctor's free slots,
    optionally for one UTC day, and batch creation that skips duplicates. */
module Slots {
  import opened Common
  import opened Seqs
  import opened UserModel
  import AuthMiddleware

  /** A slot document; `isBooked` defaults to false. */
  datatype Slot = Slot(id: SlotId, doctorUser: UserId, start: Millis, end: Millis, isBooked: bool)

  /** The unique index on (doctorUser, start): no two slots share both. */
  predicate UniqueDoctorStart(slots: seq<Slot>)
  {
    forall i, j :: 0 <= i < j < |slots| ==>
      slots[i].doctorUser != slots[j].doctorUser || slots[i].start != slots[j].start
  }

  /** The collection: slot `i` has id `i`, and the unique index holds. */
  predicate SlotsValid(slots: seq<Slot>)
  {
    (forall i :: 0 <= i < |slots| ==> slots[i].id == i) && UniqueDoctorStart(slots)
  }

  /** Some stored slot already has this (doctorUser, start) pair. */
  predicate Taken(slots: seq<Slot>, doctor: UserId, start: Millis)
  {
    exists i :: 0 <= i < |slots| && slots[i].doctorUser == doctor && slots[i].start == start
  }

  /** The error a write that breaks a unique index raises; it carries no HTTP
      status, so the error handler answers 500. */
  const DuplicateKey: Error := Error(500, "E11000 duplicate key error")

  /** `AvailabilitySlot.create`: a fresh unbooked slot, unless the pair is
      taken. Returns the collection after the insert and the slot created. */
  function InsertSlot(slots: seq<Slot>, doctor: UserId, start: Millis, end: Millis): (r: (seq<Slot>, Result<Slot>))
    ensures Taken(slots, doctor, start) ==> r == (slots, Err(DuplicateKey))
    ensures !Taken(slots, doctor, start) ==>
      r.1 == Ok(Slot(|slots|, doctor, start, end, false)) && r.0 == slots + [r.1.value]
  {
    if Taken(slots, doctor, start) then (slots, Err(DuplicateKey))
    else
      var s := Slot(|slots|, doctor, start, end, false);
      (slots + [s], Ok(s))
  }

  lemma InsertSlotKeepsValid(slots: seq<Slot>, doctor: UserId, start: Millis, end: Millis)
    requires SlotsValid(slots)
    ensures SlotsValid(InsertSlot(slots, doctor, start, end).0)
    ensures Taken(InsertSlot(slots, doctor, start, end).0, doctor, start)
  {
    var r := InsertSlot(slots, doctor, start, end).0;
    if !Taken(slots, doctor, start) {
      assert r[|slots|].doctorUser == doctor && r[|slots|].start == start;
    } else {
      var i :| 0 <= i < |slots| && slots[i].doctorUser == doctor && slots[i].start == start;
      assert r[i] == slots[i];
    }
  }

  class SlotStore {
    var slots: seq<Slot>

    ghost predicate Valid()
      reads this
    {
      SlotsValid(slots)
    }

    constructor ()
      ensures Valid() && slots == []
    {
      slots := [];
    }

    /** `AvailabilitySlot.create(doc)`. */
    method Create(doctor: UserId, start: Millis, end: Millis) returns (r: Result<Slot>)
      requires Valid()
      modifies this
      ensures Valid()
      ensures (slots, r) == InsertSlot(old(slots), doctor, start, end)
    {
      InsertSlotKeepsValid(slots, doctor, start, end);
      var next: seq<Slot>;
      next, r := InsertSlot(slots, doctor, start, end).0, InsertSlot(slots, doctor, start, end).1;
      slots := next;
    }
  }

  // ---------------------------------------------------------------------------
  // GET `/`: the available slots of a doctor

  /** The `start` window of a UTC day `day` (days since the epoch): from
      `dayT00:00:00.000Z` to `dayT23:59:59.999Z`, both included. */
  predicate InDay(start: Millis, day: int)
  {
    day * MillisPerDay <= start <= day * MillisPerDay + MillisPerDay - 1
  }

  /** The query filter: the doctor's unbooked slots, within the day if one is
      given. */
  predicate MatchesQuery(s: Slot, doctorId: UserId, day: Option<int>)
  {
    s.doctorUser == doctorId && !s.isBooked && (day.Some? ==> InDay(s.start, day.value))
  }

  predicate SortedByStart(s: seq<Slot>)
  {
    forall i, j :: 0 <= i < j < |s| ==> s[i].start <= s[j].start
  }

  /** Inserts `x` before the first slot that starts later. */
  function InsertByStart(x: Slot, s: seq<Slot>): (r: seq<Slot>)
    ensures multiset(r) == multiset(s) + multiset{x}
    decreases |s|
  {
    if s == [] then [x]
    else if x.start <= s[0].start then [x] + s
    else
      var rest := InsertByStart(x, s[1..]);
      assert s == [s[0]] + s[1..];
      [s[0]] + rest
  }

  lemma {:induction false} InsertByStartSorted(x: Slot, s: seq<Slot>)
    requires SortedByStart(s)
    ensures SortedByStart(InsertByStart(x, s))
    decreases |s|
  {
    if s != [] && x.start > s[0].start {
      InsertByStartSorted(x, s[1..]);
      var rest := InsertByStart(x, s[1..]);
      forall y | y in rest ensures s[0].start <= y.start {
        assert y in multiset(rest);
        assert y in multiset(s[1..]) || y == x;
        if y != x {
          assert y in s[1..];
        }
      }
    }
  }

  /** `.sort({ start: 1 })`: insertion sort by start, ascending. */
  function SortByStart(s: seq<Slot>): (r: seq<Slot>)
    ensures SortedByStart(r)
    ensures multiset(r) == multiset(s)
    decreases |s|
  {
    if s == [] then []
    else
      assert s == [s[0]] + s[1..];
      InsertByStartSorted(s[0], SortByStart(s[1..]));
      InsertByStart(s[0], SortByStart(s[1..]))
  }

  const ListLimit: nat := 200

  /** `find(filter).sort({ start: 1 }).limit(200)`. */
  function Available(slots: seq<Slot>, doctorId: UserId, day: Option<int>): seq<Slot>
  {
    Take(SortByStart(Filter(slots, (s: Slot) => MatchesQuery(s, doctorId, day))), ListLimit)
  }

  /** The listing holds only stored, free slots of the doctor (in the day when
      one is given), sorted by start, at most 200 of them; when there are no
      more than 200 matches it holds every one, and otherwise it holds the
      earliest: no matching slot left out starts before a listed one. */
  lemma AvailableSpec(slots: seq<Slot>, doctorId: UserId, day: Option<int>)
    ensures var r := Available(slots, doctorId, day);
      |r| <= ListLimit && SortedByStart(r) &&
      (forall s :: s in r ==> s in slots && MatchesQuery(s, doctorId, day))
    ensures var matches := Filter(slots, (s: Slot) => MatchesQuery(s, doctorId, day));
      |matches| <= ListLimit ==> multiset(Available(slots, doctorId, day)) == multiset(matches)
    ensures var matches := Filter(slots, (s: Slot) => MatchesQuery(s, doctorId, day));
      var r := Available(slots, doctorId, day);
      forall s, t :: s in matches && s !in r && t in r ==> t.start <= s.start
  {
    var p := (s: Slot) => MatchesQuery(s, doctorId, day);
    var matches := Filter(slots, p);
    var sorted := SortByStart(matches);
    var r := Available(slots, doctorId, day);
    forall s | s in r ensures s in slots && MatchesQuery(s, doctorId, day) {
      assert s in sorted;
      assert s in multiset(sorted);
      assert s in multiset(matches);
    }
    PrefixHoldsEarliest(matches, sorted, r);
  }

  /** A prefix of a sorted arrangement of `all` holds its earliest slots: a
      slot of `all` left out of the prefix starts no earlier than any slot in
      it. */
  lemma PrefixHoldsEarliest(all: seq<Slot>, sorted: seq<Slot>, r: seq<Slot>)
    requires SortedByStart(sorted) && multiset(sorted) == multiset(all)
    requires r <= sorted
    ensures forall s, t :: s in all && s !in r && t in r ==> t.start <= s.start
  {
    forall s, t | s in all && s !in r && t in r ensures t.start <= s.start {
      assert s in multiset(all);
      assert s in multiset(sorted);
      var j :| 0 <= j < |sorted| && sorted[j] == s;
      var i :| 0 <= i < |r| && r[i] == t;
      assert r == sorted[..|r|];
      assert j >= |r|;
      assert sorted[i] == t;
    }
  }

  // ---------------------------------------------------------------------------
  // POST `/`: batch creation

  /** One requested slot. */
  datatype SlotInput = SlotInput(start: Millis, end: Millis)

  /** The requested times each slot was created from. */
  function InputsOf(s: seq<Slot>): (r: seq<SlotInput>)
    ensures |r| == |s|
    ensures forall i :: 0 <= i < |s| ==> r[i] == SlotInput(s[i].start, s[i].end)
  {
    seq(|s|, i requires 0 <= i < |s| => SlotInput(s[i].start, s[i].end))
  }

  /** Creating the entries in order, each insert skipping a taken pair: the
      collection afterwards and the list of created slots. */
  function CreateAll(slots: seq<Slot>, doctor: UserId, entries: seq<SlotInput>): (r: (seq<Slot>, seq<Slot>))
    decreases |entries|
  {
    if entries == [] then (slots, [])
    else
      var (mid, created) := CreateAll(slots, doctor, entries[..|entries| - 1]);
      var e := entries[|entries| - 1];
      var (after, one) := InsertSlot(mid, doctor, e.start, e.end);
      (after, if one.Ok? then created + [one.value] else created)
  }

  /** Batch creation keeps the unique index, only appends, and the created
      list is exactly what was appended: slots of the requesting doctor,
      unbooked, carrying the times of a subsequence of the entries (so in
      input order, at most one per entry). Afterwards every entry's (doctor,
      start) pair is taken. */
  lemma {:induction false} CreateAllSpec(slots: seq<Slot>, doctor: UserId, entries: seq<SlotInput>)
    requires SlotsValid(slots)
    ensures var (after, created) := CreateAll(slots, doctor, entries);
      SlotsValid(after) && after == slots + created && |created| <= |entries| &&
      (forall s :: s in created ==> s.doctorUser == doctor && !s.isBooked) &&
      IsSubsequence(InputsOf(created), entries) &&
      (forall k :: 0 <= k < |entries| ==> Taken(after, doctor, entries[k].start))
    decreases |entries|
  {
    if entries != [] {
      var init := entries[..|entries| - 1];
      var e := entries[|entries| - 1];
      assert entries == init + [e];
      CreateAllSpec(slots, doctor, init);
      var (mid, created) := CreateAll(slots, doctor, init);
      InsertSlotKeepsValid(mid, doctor, e.start, e.end);
      var (after, one) := InsertSlot(mid, doctor, e.start, e.end);
      if one.Ok? {
        assert InputsOf(created + [one.value]) == InputsOf(created) + [e];
        SubsequenceAppend(InputsOf(created), init, e);
      } else {
        SubsequenceExtend(InputsOf(created), init, e);
      }
      forall k | 0 <= k < |entries| ensures Taken(after, doctor, entries[k].start) {
        if k < |entries| - 1 {
          assert entries[k] == init[k];
          var i :| 0 <= i < |mid| && mid[i].doctorUser == doctor && mid[i].start == init[k].start;
          assert after[i] == mid[i];
        }
      }
    }
  }

  /** `createSchema`: 1 to 200 entries. */
  predicate BatchValid(entries: seq<SlotInput>)
  {
    1 <= |entries| <= 200
  }

  const NotApproved: Error := Error(403, "Doctor not approved")

  /** POST `/` (doctors only): 403 without an approved profile; otherwise
      creates the entries in order, skipping those whose start the doctor
      already has, and answers the created slots. */
  method CreateBatch(store: SlotStore, profiles: map<UserId, DoctorProfile>, me: User, entries: seq<SlotInput>)
    returns (res: Result<seq<Slot>>)
    requires store.Valid()
    modifies store
    ensures store.Valid()
    ensures me.role != DoctorRole ==> res == Err(AuthMiddleware.Forbidden)
    ensures me.role == DoctorRole && !BatchValid(entries) ==> res.Err? && res.error.status == 400
    ensures me.role == DoctorRole && BatchValid(entries) && !(me.id in profiles && profiles[me.id].approved) ==>
      res == Err(NotApproved)
    ensures res.Ok? <==> me.role == DoctorRole && BatchValid(entries) && me.id in profiles && profiles[me.id].approved
    ensures res.Ok? ==> (store.slots, res.value) == CreateAll(old(store.slots), me.id, entries)
    ensures res.Err? ==> store.slots == old(store.slots)
  {
    var gate := AuthMiddleware.RequireRole(Some(me.role), [DoctorRole]);
    if gate.Err? {
      return Err(gate.error);
    }
    if !BatchValid(entries) {
      return Err(Error(400, "Validation failed"));
    }
    if !(me.id in profiles && profiles[me.id].approved) {
      return Err(NotApproved);
    }
    ghost var slots0 := store.slots;
    var created: seq<Slot> := [];
    var i := 0;
    while i < |entries|
      invariant 0 <= i <= |entries|
      invariant store.Valid()
      invariant (store.slots, created) == CreateAll(slots0, me.id, entries[..i])
    {
      assert entries[..i + 1][..i] == entries[..i];
      var r := store.Create(me.id, entries[i].start, entries[i].end);
      if r.Ok? {
        created := created + [r.value];
      }
      i := i + 1;
    }
    assert entries[..i] == entries;
    res := Ok(created);
  }
}
