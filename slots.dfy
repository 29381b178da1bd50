/**
 * The slot calculator: for a range of instants, every slot start that lies,
 * with its whole duration, inside both the range and the business window of
 * its UTC day. Instants are integer milliseconds since the Unix epoch.
 */
module Slots {
  import opened Wrappers
  import opened Constants
  import opened SlotAlignment

  /** `slotKey(d)`: a slot is identified by its timestamp, so equal keys mean equal instants. */
  function SlotKey(t: int): int {
    t
  }

  /** Distinct slots have distinct keys, so a set of keys identifies the booked slots. */
  lemma SlotKeyInjective(a: int, b: int)
    ensures SlotKey(a) == SlotKey(b) <==> a == b
  {
  }

  /** `startOfDay` in UTC: the last midnight at or before `t`. */
  function StartOfDay(t: int): (r: int)
    ensures r % DayMs == 0 && r <= t < r + DayMs
  {
    t - t % DayMs
  }

  function Max(a: int, b: int): int { if a >= b then a else b }
  function Min(a: int, b: int): int { if a <= b then a else b }

  /**
   * `roundUpToSlot`: `Math.ceil(t / slotMs) * slotMs`, the smallest multiple of
   * `slotMs` at or after `t`. With `slotMs == 0` the quotient is not finite and
   * the source builds an Invalid Date, modelled as `None`.
   */
  function RoundUpToSlot(t: int, slotMs: int): (r: Option<int>)
    requires slotMs >= 0
    ensures r.Some? <==> slotMs > 0
    ensures r.Some? ==> IsAlignedInstant(r.value, slotMs) && t <= r.value < t + slotMs
  {
    if slotMs == 0 then None
    else
      var q := (-t) / slotMs;
      assert -t == q * slotMs + (-t) % slotMs;
      MultipleAligned(-q, slotMs);
      Some(-q * slotMs)
  }

  // ---- The specification of generateBusinessSlots ----

  /** Slot starts `t, t + slotMs, ...` while the slot still ends by `windowEnd`. */
  function DaySlots(t: int, windowEnd: int, slotMs: int): seq<int>
    requires slotMs > 0
    decreases windowEnd - t
  {
    if t + slotMs <= windowEnd then [t] + DaySlots(t + slotMs, windowEnd, slotMs) else []
  }

  /** The inner loop, from the rounded start (an Invalid Date emits nothing). */
  function WindowSlots(first: Option<int>, windowEnd: int, slotMs: int): seq<int>
    requires first.Some? ==> slotMs > 0
  {
    if first.None? then [] else DaySlots(first.value, windowEnd, slotMs)
  }

  /** The slots of one day: its business window cut to the range, start rounded up. */
  function DayWindowSlots(day: int, startDate: int, endDate: int, slotMs: int, businessStartMs: int, businessEndMs: int): seq<int>
    requires slotMs >= 0
  {
    var windowStart := Max(day + businessStartMs, startDate);
    var windowEnd := Min(day + businessEndMs, endDate);
    WindowSlots(RoundUpToSlot(windowStart, slotMs), windowEnd, slotMs)
  }

  /** The outer loop: this day and every following day that starts by `endDate`. */
  function SlotsFromDay(day: int, startDate: int, endDate: int, slotMs: int, businessStartMs: int, businessEndMs: int): seq<int>
    requires slotMs >= 0
    decreases if day <= endDate then endDate - day + 1 else 0
  {
    if day > endDate then
      []
    else
      DayWindowSlots(day, startDate, endDate, slotMs, businessStartMs, businessEndMs)
      + SlotsFromDay(day + DayMs, startDate, endDate, slotMs, businessStartMs, businessEndMs)
  }

  /** What `generateBusinessSlots` returns. */
  function BusinessSlots(startDate: int, endDate: int, slotMs: int, businessStartMs: int, businessEndMs: int): seq<int>
    requires slotMs >= 0
  {
    SlotsFromDay(StartOfDay(startDate), startDate, endDate, slotMs, businessStartMs, businessEndMs)
  }

  /**
   * `generateBusinessSlots`: nested loops over the UTC days and the slots of
   * each day, pushing every slot start. With a negative `slotMs` the source's
   * inner loop steps backward and its test keeps holding until the Date
   * leaves the valid time range, hence the precondition.
   */
  method GenerateBusinessSlots(startDate: int, endDate: int, slotMs: int, businessStartMs: int, businessEndMs: int)
    returns (slots: seq<int>)
    requires slotMs >= 0
    ensures slots == BusinessSlots(startDate, endDate, slotMs, businessStartMs, businessEndMs)
  {
    ghost var all := BusinessSlots(startDate, endDate, slotMs, businessStartMs, businessEndMs);
    slots := [];
    var day := StartOfDay(startDate);
    while day <= endDate
      invariant slots + SlotsFromDay(day, startDate, endDate, slotMs, businessStartMs, businessEndMs) == all
      decreases endDate - day
    {
      var businessStart := day + businessStartMs;
      var businessEnd := day + businessEndMs;
      var windowStart := Max(businessStart, startDate);
      var windowEnd := Min(businessEnd, endDate);
      ghost var later := SlotsFromDay(day + DayMs, startDate, endDate, slotMs, businessStartMs, businessEndMs);
      SlotsFromDayStep(slots, day, startDate, endDate, slotMs, businessStartMs, businessEndMs);
      var first := RoundUpToSlot(windowStart, slotMs);
      // An Invalid Date start (`slotMs == 0`) fails the inner loop's test at once.
      if first.Some? {
        var t := first.value;
        while t + slotMs <= windowEnd
          invariant slots + DaySlots(t, windowEnd, slotMs) + later == all
          decreases windowEnd - t
        {
          DaySlotsStep(slots, t, windowEnd, slotMs, later);
          slots := slots + [t];
          t := t + slotMs;
        }
        DaySlotsDone(slots, t, windowEnd, slotMs, later);
      }
      day := day + DayMs;
    }
  }

  /** One turn of the outer loop: a day's slots, then the following days'. */
  lemma SlotsFromDayStep(slots: seq<int>, day: int, startDate: int, endDate: int, slotMs: int, businessStartMs: int, businessEndMs: int)
    requires slotMs >= 0 && day <= endDate
    ensures slots + SlotsFromDay(day, startDate, endDate, slotMs, businessStartMs, businessEndMs)
         == slots + WindowSlots(RoundUpToSlot(Max(day + businessStartMs, startDate), slotMs), Min(day + businessEndMs, endDate), slotMs)
            + SlotsFromDay(day + DayMs, startDate, endDate, slotMs, businessStartMs, businessEndMs)
  {
  }

  /** One turn of the inner loop: the slot at `t` moves from what is left of the day to `slots`. */
  lemma DaySlotsStep(slots: seq<int>, t: int, windowEnd: int, slotMs: int, later: seq<int>)
    requires slotMs > 0 && t + slotMs <= windowEnd
    ensures slots + DaySlots(t, windowEnd, slotMs) + later
         == (slots + [t]) + DaySlots(t + slotMs, windowEnd, slotMs) + later
  {
  }

  /** The inner loop's exit: nothing is left of the day. */
  lemma DaySlotsDone(slots: seq<int>, t: int, windowEnd: int, slotMs: int, later: seq<int>)
    requires slotMs > 0 && windowEnd < t + slotMs
    ensures slots + DaySlots(t, windowEnd, slotMs) + later == slots + later
  {
  }

  // ---- Properties of the slots ----

  /** A slot as the source's comments describe it: aligned, inside the range and inside its day's business hours. */
  predicate IsBusinessSlot(x: int, startDate: int, endDate: int, slotMs: int, businessStartMs: int, businessEndMs: int) {
    && IsAlignedInstant(x, slotMs)
    && startDate <= x && x + slotMs <= endDate
    && StartOfDay(x) + businessStartMs <= x && x + slotMs <= StartOfDay(x) + businessEndMs
  }

  predicate StrictlyAscending(xs: seq<int>) {
    forall i, j :: 0 <= i < j < |xs| ==> xs[i] < xs[j]
  }

  /** From an aligned start, the day's slots are exactly the aligned instants whose slot fits before `windowEnd`. */
  lemma {:induction false} DaySlotsMember(t: int, windowEnd: int, slotMs: int, x: int)
    requires slotMs > 0 && t % slotMs == 0
    ensures x in DaySlots(t, windowEnd, slotMs) <==> (x % slotMs == 0 && t <= x && x + slotMs <= windowEnd)
    decreases windowEnd - t
  {
    if t + slotMs <= windowEnd {
      MultipleAligned(t / slotMs + 1, slotMs);
      assert (t / slotMs + 1) * slotMs == t + slotMs;
      DaySlotsMember(t + slotMs, windowEnd, slotMs, x);
      if x % slotMs == 0 && t < x {
        AlignedGap(t, x, slotMs);
      }
    }
  }

  /** The k-th slot of a day is `k` slots after the first, and the count is what fits. */
  lemma {:induction false} DaySlotsShape(t: int, windowEnd: int, slotMs: int)
    requires slotMs > 0
    ensures var r := DaySlots(t, windowEnd, slotMs);
      && (forall k :: 0 <= k < |r| ==> r[k] == t + k * slotMs)
      && (|r| == 0 || t + |r| * slotMs <= windowEnd)
      && windowEnd < t + (|r| + 1) * slotMs
    decreases windowEnd - t
  {
    var r := DaySlots(t, windowEnd, slotMs);
    if t + slotMs <= windowEnd {
      DaySlotsShape(t + slotMs, windowEnd, slotMs);
      var rest := DaySlots(t + slotMs, windowEnd, slotMs);
      assert r == [t] + rest;
      forall k | 0 < k < |r|
        ensures r[k] == t + k * slotMs
      {
        assert r[k] == rest[k - 1] == t + slotMs + (k - 1) * slotMs;
        assert (k - 1) * slotMs + slotMs == k * slotMs;
      }
      assert (|rest| + 1) * slotMs == |rest| * slotMs + slotMs;
      assert (|rest| + 2) * slotMs == (|rest| + 1) * slotMs + slotMs;
    }
  }

  /** The slots of one day, cut to the range: aligned, inside the window and inside the range. */
  lemma DayWindowMember(day: int, startDate: int, endDate: int, slotMs: int, businessStartMs: int, businessEndMs: int, x: int)
    requires slotMs > 0
    ensures x in DayWindowSlots(day, startDate, endDate, slotMs, businessStartMs, businessEndMs)
        <==> (&& x % slotMs == 0
              && day + businessStartMs <= x && startDate <= x
              && x + slotMs <= day + businessEndMs && x + slotMs <= endDate)
  {
    var windowStart := Max(day + businessStartMs, startDate);
    var windowEnd := Min(day + businessEndMs, endDate);
    var r := RoundUpToSlot(windowStart, slotMs).value;
    DaySlotsMember(r, windowEnd, slotMs, x);
    if x % slotMs == 0 && windowStart <= x && x < r {
      AlignedGap(x, r, slotMs);
    }
  }

  /** The day containing an instant whose slot fits inside a day's window is that day. */
  lemma StartOfDayWithin(d: int, x: int)
    requires d % DayMs == 0 && d <= x < d + DayMs
    ensures StartOfDay(x) == d
  {
    DivModUnique(x, DayMs, d / DayMs, x - d);
  }

  lemma {:induction false} SlotsFromDayMember(day: int, startDate: int, endDate: int, slotMs: int, businessStartMs: int, businessEndMs: int, x: int)
    requires slotMs > 0 && 0 <= businessStartMs && businessEndMs <= DayMs && day % DayMs == 0
    ensures x in SlotsFromDay(day, startDate, endDate, slotMs, businessStartMs, businessEndMs)
        <==> (IsBusinessSlot(x, startDate, endDate, slotMs, businessStartMs, businessEndMs) && day <= StartOfDay(x))
    decreases if day <= endDate then endDate - day + 1 else 0
  {
    if day <= endDate {
      DayWindowMember(day, startDate, endDate, slotMs, businessStartMs, businessEndMs, x);
      assert (day / DayMs + 1) * DayMs == day + DayMs;
      MultipleAligned(day / DayMs + 1, DayMs);
      SlotsFromDayMember(day + DayMs, startDate, endDate, slotMs, businessStartMs, businessEndMs, x);
      if day + businessStartMs <= x && x + slotMs <= day + businessEndMs {
        StartOfDayWithin(day, x);
      }
      if day < StartOfDay(x) {
        AlignedGap(day, StartOfDay(x), DayMs);
      }
    }
  }

  /** Membership: the output holds exactly the business slots of the range. */
  lemma BusinessSlotsMember(startDate: int, endDate: int, slotMs: int, businessStartMs: int, businessEndMs: int, x: int)
    requires slotMs > 0 && 0 <= businessStartMs && businessEndMs <= DayMs
    ensures x in BusinessSlots(startDate, endDate, slotMs, businessStartMs, businessEndMs)
        <==> IsBusinessSlot(x, startDate, endDate, slotMs, businessStartMs, businessEndMs)
  {
    var d0 := StartOfDay(startDate);
    SlotsFromDayMember(d0, startDate, endDate, slotMs, businessStartMs, businessEndMs, x);
    if startDate <= x && StartOfDay(x) < d0 {
      AlignedGap(StartOfDay(x), d0, DayMs);
    }
  }

  lemma AscendingConcat(a: seq<int>, b: seq<int>)
    requires StrictlyAscending(a) && StrictlyAscending(b)
    requires forall x, y :: x in a && y in b ==> x < y
    ensures StrictlyAscending(a + b)
  {
    forall i, j | 0 <= i < j < |a + b|
      ensures (a + b)[i] < (a + b)[j]
    {
      if i < |a| && j >= |a| {
        assert (a + b)[i] in a && (a + b)[j] in b;
      }
    }
  }

  lemma {:induction false} DaySlotsAscending(t: int, windowEnd: int, slotMs: int)
    requires slotMs > 0
    ensures StrictlyAscending(DaySlots(t, windowEnd, slotMs))
    decreases windowEnd - t
  {
    DaySlotsShape(t, windowEnd, slotMs);
    var r := DaySlots(t, windowEnd, slotMs);
    forall i, j | 0 <= i < j < |r|
      ensures r[i] < r[j]
    {
      MulLe(i + 1, j, slotMs);
      assert (i + 1) * slotMs == i * slotMs + slotMs;
    }
  }

  lemma {:induction false} SlotsFromDayAscending(day: int, startDate: int, endDate: int, slotMs: int, businessStartMs: int, businessEndMs: int)
    requires slotMs > 0 && 0 <= businessStartMs && businessEndMs <= DayMs
    ensures StrictlyAscending(SlotsFromDay(day, startDate, endDate, slotMs, businessStartMs, businessEndMs))
    ensures forall y :: y in SlotsFromDay(day, startDate, endDate, slotMs, businessStartMs, businessEndMs) ==> day <= y
    decreases if day <= endDate then endDate - day + 1 else 0
  {
    if day <= endDate {
      var here := DayWindowSlots(day, startDate, endDate, slotMs, businessStartMs, businessEndMs);
      var later := SlotsFromDay(day + DayMs, startDate, endDate, slotMs, businessStartMs, businessEndMs);
      SlotsFromDayAscending(day + DayMs, startDate, endDate, slotMs, businessStartMs, businessEndMs);
      var windowStart := Max(day + businessStartMs, startDate);
      var windowEnd := Min(day + businessEndMs, endDate);
      DaySlotsAscending(RoundUpToSlot(windowStart, slotMs).value, windowEnd, slotMs);
      forall x | x in here
        ensures day <= x && x < day + DayMs
      {
        DayWindowMember(day, startDate, endDate, slotMs, businessStartMs, businessEndMs, x);
      }
      AscendingConcat(here, later);
    }
  }

  /** Under a business window inside the day and positive slots, the output is strictly ascending. */
  lemma BusinessSlotsAscending(startDate: int, endDate: int, slotMs: int, businessStartMs: int, businessEndMs: int)
    requires slotMs > 0 && 0 <= businessStartMs && businessEndMs <= DayMs
    ensures StrictlyAscending(BusinessSlots(startDate, endDate, slotMs, businessStartMs, businessEndMs))
  {
    SlotsFromDayAscending(StartOfDay(startDate), startDate, endDate, slotMs, businessStartMs, businessEndMs);
  }

  /** The first slot of a day is the smallest aligned instant at or after both the window start and the range start. */
  lemma DayWindowFirst(day: int, startDate: int, endDate: int, slotMs: int, businessStartMs: int, businessEndMs: int)
    requires slotMs > 0
    ensures var r := DayWindowSlots(day, startDate, endDate, slotMs, businessStartMs, businessEndMs);
      && var ws := Max(day + businessStartMs, startDate);
      && (forall k :: 0 <= k < |r| ==> r[k] == r[0] + k * slotMs)
      && (|r| > 0 ==> IsAlignedInstant(r[0], slotMs) && ws <= r[0] < ws + slotMs)
  {
    var windowStart := Max(day + businessStartMs, startDate);
    var windowEnd := Min(day + businessEndMs, endDate);
    DaySlotsShape(RoundUpToSlot(windowStart, slotMs).value, windowEnd, slotMs);
  }

  lemma DayWindowEmpty(day: int, startDate: int, endDate: int, slotMs: int, businessStartMs: int, businessEndMs: int)
    requires slotMs >= 0
    requires endDate < startDate || slotMs == 0 || businessEndMs <= businessStartMs
    ensures DayWindowSlots(day, startDate, endDate, slotMs, businessStartMs, businessEndMs) == []
  {
  }

  lemma {:induction false} SlotsFromDayEmpty(day: int, startDate: int, endDate: int, slotMs: int, businessStartMs: int, businessEndMs: int)
    requires slotMs >= 0
    requires endDate < startDate || slotMs == 0 || businessEndMs <= businessStartMs
    ensures SlotsFromDay(day, startDate, endDate, slotMs, businessStartMs, businessEndMs) == []
    decreases if day <= endDate then endDate - day + 1 else 0
  {
    if day <= endDate {
      DayWindowEmpty(day, startDate, endDate, slotMs, businessStartMs, businessEndMs);
      SlotsFromDayEmpty(day + DayMs, startDate, endDate, slotMs, businessStartMs, businessEndMs);
    }
  }

  /** A reversed range, a zero slot length or an empty business window yields no slots. */
  lemma BusinessSlotsEmpty(startDate: int, endDate: int, slotMs: int, businessStartMs: int, businessEndMs: int)
    requires slotMs >= 0
    requires endDate < startDate || slotMs == 0 || businessEndMs <= businessStartMs
    ensures BusinessSlots(startDate, endDate, slotMs, businessStartMs, businessEndMs) == []
  {
    SlotsFromDayEmpty(StartOfDay(startDate), startDate, endDate, slotMs, businessStartMs, businessEndMs);
  }

  /** Rounding up leaves an instant that is already on a boundary where it is. */
  lemma RoundUpAligned(t: int, slotMs: int)
    requires slotMs > 0 && t % slotMs == 0
    ensures RoundUpToSlot(t, slotMs) == Some(t)
  {
    var r := RoundUpToSlot(t, slotMs).value;
    if t < r {
      AlignedGap(t, r, slotMs);
    }
  }

  // ---- The scenarios of the slot tests, with 30-minute slots and hours 09:00-18:00 ----

  /** 2025-01-10T00:00:00.000Z. */
  const Jan10: int := 1_736_467_200_000

  /** A full day, 00:00 to 23:59, has 18 slots from 09:00 to 17:30. */
  lemma FullDayScenario()
    ensures var r := BusinessSlots(Jan10, Jan10 + 23 * HourMs + 59 * MinuteMs, 30 * MinuteMs, 9 * HourMs, 18 * HourMs);
      && |r| == 18
      && r[0] == Jan10 + 9 * HourMs
      && r[17] == Jan10 + 17 * HourMs + 30 * MinuteMs
  {
    var slotMs := 30 * MinuteMs;
    var endDate := Jan10 + 23 * HourMs + 59 * MinuteMs;
    assert StartOfDay(Jan10) == Jan10;
    RoundUpAligned(Jan10 + 9 * HourMs, slotMs);
    assert SlotsFromDay(Jan10 + DayMs, Jan10, endDate, slotMs, 9 * HourMs, 18 * HourMs) == [];
    assert DayWindowSlots(Jan10, Jan10, endDate, slotMs, 9 * HourMs, 18 * HourMs)
        == DaySlots(Jan10 + 9 * HourMs, Jan10 + 18 * HourMs, slotMs);
    assert BusinessSlots(Jan10, endDate, slotMs, 9 * HourMs, 18 * HourMs)
        == DayWindowSlots(Jan10, Jan10, endDate, slotMs, 9 * HourMs, 18 * HourMs) + [];
    DaySlotsShape(Jan10 + 9 * HourMs, Jan10 + 18 * HourMs, slotMs);
  }

  /** The range 10:10 to 12:40 starts at 10:30 and ends with the slot at 12:00. */
  lemma PartialWindowScenario()
    ensures var r := BusinessSlots(Jan10 + 10 * HourMs + 10 * MinuteMs, Jan10 + 12 * HourMs + 40 * MinuteMs, 30 * MinuteMs, 9 * HourMs, 18 * HourMs);
      && |r| == 4
      && r[0] == Jan10 + 10 * HourMs + 30 * MinuteMs
      && r[3] == Jan10 + 12 * HourMs
  {
    var slotMs := 30 * MinuteMs;
    var startDate := Jan10 + 10 * HourMs + 10 * MinuteMs;
    var endDate := Jan10 + 12 * HourMs + 40 * MinuteMs;
    assert StartOfDay(startDate) == Jan10;
    var first := RoundUpToSlot(startDate, slotMs).value;
    assert first == Jan10 + 10 * HourMs + 30 * MinuteMs;
    assert SlotsFromDay(Jan10 + DayMs, startDate, endDate, slotMs, 9 * HourMs, 18 * HourMs) == [];
    assert DayWindowSlots(Jan10, startDate, endDate, slotMs, 9 * HourMs, 18 * HourMs)
        == DaySlots(first, endDate, slotMs);
    assert BusinessSlots(startDate, endDate, slotMs, 9 * HourMs, 18 * HourMs)
        == DayWindowSlots(Jan10, startDate, endDate, slotMs, 9 * HourMs, 18 * HourMs) + [];
    DaySlotsShape(first, endDate, slotMs);
  }

  /** Two full days give 18 slots each. */
  lemma TwoDayScenario()
    ensures |BusinessSlots(Jan10, Jan10 + DayMs + 23 * HourMs + 59 * MinuteMs, 30 * MinuteMs, 9 * HourMs, 18 * HourMs)| == 36
  {
    var slotMs := 30 * MinuteMs;
    var endDate := Jan10 + DayMs + 23 * HourMs + 59 * MinuteMs;
    var jan11 := Jan10 + DayMs;
    assert StartOfDay(Jan10) == Jan10;
    RoundUpAligned(Jan10 + 9 * HourMs, slotMs);
    RoundUpAligned(jan11 + 9 * HourMs, slotMs);
    assert SlotsFromDay(jan11 + DayMs, Jan10, endDate, slotMs, 9 * HourMs, 18 * HourMs) == [];
    assert DayWindowSlots(Jan10, Jan10, endDate, slotMs, 9 * HourMs, 18 * HourMs)
        == DaySlots(Jan10 + 9 * HourMs, Jan10 + 18 * HourMs, slotMs);
    assert DayWindowSlots(jan11, Jan10, endDate, slotMs, 9 * HourMs, 18 * HourMs)
        == DaySlots(jan11 + 9 * HourMs, jan11 + 18 * HourMs, slotMs);
    assert SlotsFromDay(jan11, Jan10, endDate, slotMs, 9 * HourMs, 18 * HourMs)
        == DayWindowSlots(jan11, Jan10, endDate, slotMs, 9 * HourMs, 18 * HourMs) + [];
    assert BusinessSlots(Jan10, endDate, slotMs, 9 * HourMs, 18 * HourMs)
        == DayWindowSlots(Jan10, Jan10, endDate, slotMs, 9 * HourMs, 18 * HourMs)
         + SlotsFromDay(jan11, Jan10, endDate, slotMs, 9 * HourMs, 18 * HourMs);
    DaySlotsShape(Jan10 + 9 * HourMs, Jan10 + 18 * HourMs, slotMs);
    DaySlotsShape(jan11 + 9 * HourMs, jan11 + 18 * HourMs, slotMs);
  }
}
