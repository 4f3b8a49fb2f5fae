/** The doctor's slot generator (client/src/pages/doctor/DoctorSlotsPage.jsx):
    `createSlots` cuts the span from the start time to the end time into
    back-to-back slots of `slotMins` minutes and posts them as one batch.
    The two times are the instants the page parses from the date and time
    inputs; parsing them is not part of this model. */
module DoctorSlotsPage {
  import opened Common
  import Slots

  /** What `createSlots` ends with: the batch it posts, or the message it
      shows instead. */
  datatype Outcome = Generated(slots: seq<Slots.SlotInput>) | Rejected(message: string)

  const EndBeforeStart: string := "End must be after start"
  const NoSlots: string := "No slots generated"

  /** `n` back-to-back slots of `step` milliseconds from `start`. */
  function Grid(start: Millis, step: int, n: nat): (r: seq<Slots.SlotInput>)
    ensures |r| == n
    ensures forall i :: 0 <= i < n ==> r[i] == Slots.SlotInput(start + i * step, start + (i + 1) * step)
  {
    seq(n, i requires 0 <= i < n => Slots.SlotInput(start + i * step, start + (i + 1) * step))
  }

  /** The whole slots that fit between `start` and `end`. */
  function SlotCount(start: Millis, end: Millis, step: int): (n: nat)
    requires step > 0
    ensures end <= start ==> n == 0
    ensures start + n * step <= end || n == 0
    ensures start + (n + 1) * step > end
  {
    if end <= start then 0 else (end - start) / step
  }

  /** What `createSlots` produces: the rejection when the end is not after
      the start, the rejection when not one slot fits, else the slots that
      fit. */
  function CreateSlots(start: Millis, end: Millis, slotMins: int): Outcome
    requires slotMins > 0
  {
    var step := slotMins * MillisPerMinute;
    if end <= start then Rejected(EndBeforeStart)
    else if SlotCount(start, end, step) == 0 then Rejected(NoSlots)
    else Generated(Grid(start, step, SlotCount(start, end, step)))
  }

  /** The generated slots start at the start time, each lasts `slotMins`,
      each begins where the previous one ended, none ends after the end
      time, and one more would overrun it. */
  lemma CreateSlotsSpec(start: Millis, end: Millis, slotMins: int)
    requires slotMins > 0
    ensures var r := CreateSlots(start, end, slotMins);
      var step := slotMins * MillisPerMinute;
      (r.Rejected? <==> end <= start || end - start < step) &&
      (end <= start ==> r == Rejected(EndBeforeStart)) &&
      (r.Generated? ==>
        |r.slots| > 0 && r.slots[0].start == start &&
        (forall i :: 0 <= i < |r.slots| ==> r.slots[i].end == r.slots[i].start + step && r.slots[i].end <= end) &&
        (forall i :: 0 < i < |r.slots| ==> r.slots[i].start == r.slots[i - 1].end) &&
        r.slots[|r.slots| - 1].end + step > end)
  {
    var step := slotMins * MillisPerMinute;
    var r := CreateSlots(start, end, slotMins);
    if r.Generated? {
      var n := |r.slots|;
      forall i | 0 <= i < n
        ensures r.slots[i].end == r.slots[i].start + step && r.slots[i].end <= end
      {
        Step(start, i, step);
        MonotoneSteps(i + 1, n, step);
      }
      forall i | 0 < i < n
        ensures r.slots[i].start == r.slots[i - 1].end
      {
      }
    }
  }

  /** `start + (i + 1) * step` is one step past `start + i * step`. */
  lemma Step(start: int, i: int, step: int)
    ensures start + (i + 1) * step == start + i * step + step
  {
  }

  lemma MonotoneSteps(a: nat, b: nat, step: int)
    requires a <= b && step > 0
    ensures a * step <= b * step
  {
  }

  /** `createSlots`: the while loop advancing `cur` by `slotMins` minutes
      and stopping at the first slot that would pass the end. `slotMins`
      must be positive, or the loop never ends; the input's minimum of 5 is
      not enforced by the page's code. */
  method Generate(start: Millis, end: Millis, slotMins: int) returns (r: Outcome)
    requires slotMins > 0
    ensures r == CreateSlots(start, end, slotMins)
  {
    if end <= start {
      return Rejected(EndBeforeStart);
    }
    var step := slotMins * MillisPerMinute;
    var slots: seq<Slots.SlotInput> := [];
    var cur := start;
    while cur < end
      invariant cur == start + |slots| * step && cur <= end
      invariant slots == Grid(start, step, |slots|)
      decreases end - cur
    {
      var nxt := cur + step;
      if nxt > end {
        break;
      }
      Step(start, |slots|, step);
      slots := slots + [Slots.SlotInput(cur, nxt)];
      cur := nxt;
    }
    assert start + (|slots| + 1) * step > end by {
      Step(start, |slots|, step);
    }
    DivUnique(end - start, step, |slots|);
    if |slots| == 0 {
      return Rejected(NoSlots);
    }
    r := Generated(slots);
  }

  /** The quotient is the one `k` with `k * step <= d < (k + 1) * step`. */
  lemma DivUnique(d: int, step: int, k: nat)
    requires step > 0 && k * step <= d < (k + 1) * step
    ensures k == d / step
  {
    var q := d / step;
    assert d == q * step + d % step;
    if k < q {
      MonotoneSteps(k + 1, q, step);
    } else if k > q {
      MonotoneSteps(q + 1, k, step);
    }
  }

  /** The server accepts the posted batch exactly when it holds at most 200
      slots, so a long span at a short slot length is refused whole. */
  lemma BatchAccepted(start: Millis, end: Millis, slotMins: int)
    requires slotMins > 0 && CreateSlots(start, end, slotMins).Generated?
    ensures Slots.BatchValid(CreateSlots(start, end, slotMins).slots) <==>
      (end - start) / (slotMins * MillisPerMinute) <= 200
  {
  }
}
