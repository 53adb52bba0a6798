/** The search for the next slot in which a mandate may be presented. */
module MandateSlot {
  import opened Domain
  import opened Rows
  import opened Policy

  const HALF_HOUR: int := 30 * MINUTE
  const MAX_STEPS: nat := 96
  const IST_OFFSET_HOURS := 5.5

  // ------------------------------------------------------------------ the hour of the day

  function UtcHour(t: Time): nat { (t / HOUR) % 24 }

  function UtcMinute(t: Time): nat { (t / MINUTE) % 60 }

  /** Hour of the day in IST, with the minutes as a fraction. */
  function IstHour(t: Time): real {
    var hour := UtcHour(t) as real + UtcMinute(t) as real / 60.0 + IST_OFFSET_HOURS;
    if hour >= 24.0 then hour - 24.0 else hour
  }

  predicate InExecutionWindow(t: Time) {
    !(10.0 <= IstHour(t) < 13.0)
  }

  lemma MinutesOfDay(t: Time)
    ensures (t / MINUTE) % 1440 == 60 * UtcHour(t) + UtcMinute(t)
  {
    var m := t / MINUTE;
    assert t / HOUR == m / 60;
    assert m == 60 * (m / 60) + m % 60;
    assert m / 60 == 24 * (m / 60 / 24) + (m / 60) % 24;
  }

  lemma ShiftedMinute(m: int)
    ensures (m + 330) % 1440 == if m % 1440 + 330 >= 1440 then m % 1440 + 330 - 1440 else m % 1440 + 330
  {
  }

  lemma HourFraction(hour: nat, minute: nat)
    ensures (hour as real + minute as real / 60.0 + IST_OFFSET_HOURS) * 60.0 == (60 * hour + minute + 330) as real
  {
  }

  /** The fractional hour and the minute of the day are the same clock. */
  lemma IstHourIsMinute(t: Time)
    ensures IstHour(t) * 60.0 == IstMinuteOfDay(t) as real
  {
    MinutesOfDay(t);
    ShiftedMinute(t / MINUTE);
    HourFraction(UtcHour(t), UtcMinute(t));
  }

  /** The slot search and the policy gate agree on when a mandate may be presented. */
  lemma WindowAgreesWithGate(t: Time)
    ensures InExecutionWindow(t) <==> !InPeakWindow(t)
  {
    IstHourIsMinute(t);
    var x, m := IstHour(t), IstMinuteOfDay(t);
    assert 10.0 <= x <==> 600.0 <= m as real;
    assert x < 13.0 <==> m as real < 780.0;
  }

  // ------------------------------------------------------------------------- the search

  /** Day of the month of a day number. Any calendar will do whose months have at least 28 and at
      most 31 days. */
  type Calendar = int -> int

  ghost predicate ValidCalendar(cal: Calendar) {
    forall d :: 1 <= cal(d) <= 31 && (cal(d + 1) == cal(d) + 1 || (cal(d) >= 28 && cal(d + 1) == 1))
  }

  function UtcDay(t: Time): int { t / DAY }

  predicate SalaryDay(day: int) { 1 <= day < 4 || day >= 25 }

  /** The slot, and whether the search ended on it rather than by running out of steps. */
  datatype Slot = Slot(at: Time, found: bool)

  function Search(cal: Calendar, candidate: Time, preferSalary: bool, steps: nat): Slot
    decreases steps
  {
    if steps == 0 then Slot(candidate, false)
    else if !InExecutionWindow(candidate) then Search(cal, candidate + HALF_HOUR, preferSalary, steps - 1)
    else if preferSalary && !SalaryDay(cal(UtcDay(candidate))) then Search(cal, candidate + DAY, preferSalary, steps - 1)
    else Slot(candidate, true)
  }

  method NextValidPresentationSlot(cal: Calendar, after: Time, preferSalary: bool) returns (slot: Time)
    ensures slot == Search(cal, after, preferSalary, MAX_STEPS).at
  {
    slot := after;
    var i := 0;
    while i < MAX_STEPS
      invariant 0 <= i <= MAX_STEPS
      invariant Search(cal, slot, preferSalary, MAX_STEPS - i) == Search(cal, after, preferSalary, MAX_STEPS)
    {
      if InExecutionWindow(slot) {
        if preferSalary {
          if SalaryDay(cal(UtcDay(slot))) {
            return;
          }
          slot := slot + DAY;
        } else {
          return;
        }
      } else {
        slot := slot + HALF_HOUR;
      }
      i := i + 1;
    }
  }

  // ----------------------------------------------------------------- what it finds

  lemma WholeMinutes(t: Time, minutes: nat)
    ensures (t + minutes * MINUTE) / MINUTE == t / MINUTE + minutes
  {
  }

  lemma LaterMinute(m: int, minutes: nat)
    ensures (m + minutes) % 1440 == (m % 1440 + minutes) % 1440
  {
  }

  lemma MinuteAfter(t: Time, halves: nat)
    ensures IstMinuteOfDay(t + halves * HALF_HOUR) == (IstMinuteOfDay(t) + 30 * halves) % 1440
  {
    WholeMinutes(t, 30 * halves);
    LaterMinute(t / MINUTE + 330, 30 * halves);
  }

  lemma MinuteNextDay(t: Time, days: nat)
    ensures IstMinuteOfDay(t + days * DAY) == IstMinuteOfDay(t)
  {
    assert days * DAY == days * 1440 * MINUTE;
    assert (t + days * 1440 * MINUTE) / MINUTE == t / MINUTE + days * 1440;
    SameDayMinute(t / MINUTE + 330, days);
  }

  lemma {:induction false} SameDayMinute(m: int, days: nat)
    ensures (m + days * 1440) % 1440 == m % 1440
  {
    if days > 0 {
      SameDayMinute(m, days - 1);
      assert m + days * 1440 == (m + (days - 1) * 1440) + 1440;
    }
  }

  /** How many half hours it takes to leave the peak window. */
  function HalvesToLeave(t: Time): nat {
    if InPeakWindow(t) then (780 - IstMinuteOfDay(t) + 29) / 30 else 0
  }

  predicate PeakAfter(t: Time, halves: nat) { !InExecutionWindow(t + halves * HALF_HOUR) }

  lemma PeakUntil(t: Time, k: nat)
    requires k <= HalvesToLeave(t)
    ensures PeakAfter(t, k) <==> k < HalvesToLeave(t)
  {
    MinuteAfter(t, k);
    WindowAgreesWithGate(t + k * HALF_HOUR);
  }

  /** That many half hours lead out of the peak window, and none fewer do. */
  lemma LeavesPeak(t: Time)
    ensures HalvesToLeave(t) <= 6
    ensures InExecutionWindow(t + HalvesToLeave(t) * HALF_HOUR)
    ensures forall k: nat :: k < HalvesToLeave(t) ==> PeakAfter(t, k)
  {
    PeakUntil(t, HalvesToLeave(t));
    forall k: nat | k < HalvesToLeave(t) ensures PeakAfter(t, k) { PeakUntil(t, k); }
  }

  /** Half-hour steps through the peak window do nothing else. */
  lemma {:induction false} SearchLeavesPeak(cal: Calendar, t: Time, preferSalary: bool, n: nat, steps: nat)
    requires n <= steps
    requires forall k: nat :: k < n ==> PeakAfter(t, k)
    ensures Search(cal, t, preferSalary, steps) == Search(cal, t + n * HALF_HOUR, preferSalary, steps - n)
    decreases n
  {
    if n > 0 {
      assert PeakAfter(t, 0);
      var next := t + HALF_HOUR;
      forall k: nat | k < n - 1 ensures PeakAfter(next, k) {
        assert PeakAfter(t, k + 1);
        assert next + k * HALF_HOUR == t + (k + 1) * HALF_HOUR;
      }
      SearchLeavesPeak(cal, next, preferSalary, n - 1, steps - 1);
      assert next + (n - 1) * HALF_HOUR == t + n * HALF_HOUR;
    }
  }

  predicate PaysAfter(cal: Calendar, t: Time, days: nat) {
    SalaryDay(cal(UtcDay(t + days * DAY)))
  }

  predicate NoPayBefore(cal: Calendar, t: Time, days: nat) {
    forall d: nat :: d < days ==> !PaysAfter(cal, t, d)
  }

  /** Whole days do not lead back into the peak window. */
  lemma {:induction false} SearchWaitsForSalary(cal: Calendar, t: Time, days: nat, steps: nat)
    requires InExecutionWindow(t) && days < steps
    requires PaysAfter(cal, t, days) && NoPayBefore(cal, t, days)
    ensures Search(cal, t, true, steps) == Slot(t + days * DAY, true)
    decreases days
  {
    if days == 0 {
      assert t + 0 * DAY == t;
    } else {
      assert !PaysAfter(cal, t, 0);
      MinuteNextDay(t, 1);
      WindowAgreesWithGate(t);
      WindowAgreesWithGate(t + DAY);
      var next := t + DAY;
      forall d: nat ensures PaysAfter(cal, next, d) == PaysAfter(cal, t, d + 1) {
        assert next + d * DAY == t + (d + 1) * DAY;
      }
      assert PaysAfter(cal, next, days - 1);
      SearchWaitsForSalary(cal, next, days - 1, steps - 1);
      assert next + (days - 1) * DAY == t + days * DAY;
    }
  }

  lemma {:induction false} DaysPass(cal: Calendar, d: int, n: nat)
    requires ValidCalendar(cal) && cal(d) + n <= 28
    ensures cal(d + n) == cal(d) + n
  {
    if n > 0 {
      DaysPass(cal, d, n - 1);
      assert cal(d + (n - 1) + 1) == cal(d + (n - 1)) + 1;
      assert d + (n - 1) + 1 == d + n;
    }
  }

  /** How many days it takes to reach the salary window of the month. */
  function DaysToSalary(cal: Calendar, t: Time): nat {
    var day := cal(UtcDay(t));
    if 4 <= day < 25 then 25 - day else 0
  }

  lemma ReachesSalary(cal: Calendar, t: Time)
    requires ValidCalendar(cal)
    ensures DaysToSalary(cal, t) <= 21 && PaysAfter(cal, t, DaysToSalary(cal, t))
    ensures NoPayBefore(cal, t, DaysToSalary(cal, t))
  {
    var n, today := DaysToSalary(cal, t), UtcDay(t);
    forall d: nat | d <= n ensures PaysAfter(cal, t, d) <==> d == n {
      assert UtcDay(t + d * DAY) == today + d;
      if n > 0 { DaysPass(cal, today, d); }
    }
  }

  /** The slot is found within 28 of the 96 steps: the least number of half hours that leaves the
      peak window, and then, if asked for, the least number of days that reaches the salary window. */
  lemma SlotIsFound(cal: Calendar, after: Time, preferSalary: bool, steps: nat)
    requires ValidCalendar(cal) && steps >= 28
    ensures var start := after + HalvesToLeave(after) * HALF_HOUR;
            Search(cal, after, preferSalary, steps)
            == Slot(if preferSalary then start + DaysToSalary(cal, start) * DAY else start, true)
  {
    var n := HalvesToLeave(after);
    var start := after + n * HALF_HOUR;
    LeavesPeak(after);
    SearchLeavesPeak(cal, after, preferSalary, n, steps);
    if preferSalary {
      ReachesSalary(cal, start);
      SearchWaitsForSalary(cal, start, DaysToSalary(cal, start), steps - n);
    }
  }

  /** No fewer half hours lead out of the peak window, and no fewer days to the salary window. */
  predicate Least(cal: Calendar, after: Time, preferSalary: bool, halves: nat, days: nat) {
    && (forall k: nat :: k < halves ==> PeakAfter(after, k))
    && (if preferSalary then NoPayBefore(cal, after + halves * HALF_HOUR, days) else days == 0)
  }

  lemma SlotIsLeast(cal: Calendar, after: Time, preferSalary: bool) returns (halves: nat, days: nat)
    requires ValidCalendar(cal)
    ensures halves <= 6 && days <= 21 && Least(cal, after, preferSalary, halves, days)
    ensures Search(cal, after, preferSalary, MAX_STEPS) == Slot(after + halves * HALF_HOUR + days * DAY, true)
    ensures InExecutionWindow(after + halves * HALF_HOUR)
    ensures preferSalary ==> PaysAfter(cal, after + halves * HALF_HOUR, days)
  {
    halves := HalvesToLeave(after);
    var start := after + halves * HALF_HOUR;
    SlotIsFound(cal, after, preferSalary, MAX_STEPS);
    LeavesPeak(after);
    ReachesSalary(cal, start);
    days := if preferSalary then DaysToSalary(cal, start) else 0;
  }

  /** What the slot promises: it is never before the request, outside the peak window by the gate's
      own rule, in the salary window if asked for, and no earlier step of the search qualified. */
  lemma SlotIsValidAndLeast(cal: Calendar, after: Time, preferSalary: bool)
    requires ValidCalendar(cal)
    ensures var slot := Search(cal, after, preferSalary, MAX_STEPS);
            && slot.found && slot.at >= after
            && !InPeakWindow(slot.at)
            && (preferSalary ==> SalaryDay(cal(UtcDay(slot.at))))
            && exists halves: nat, days: nat ::
                 halves <= 6 && days <= 21 && Least(cal, after, preferSalary, halves, days)
                 && slot.at == after + halves * HALF_HOUR + days * DAY
  {
    var halves, days := SlotIsLeast(cal, after, preferSalary);
    WindowAgreesWithGate(after + halves * HALF_HOUR);
    MinuteNextDay(after + halves * HALF_HOUR, days);
  }

  lemma WindowRule(spec: PolicySpec, ask: Ask)
    ensures OutsideExecutionWindow in Gate(spec, ask).reasons ==> OutsideWindow(spec, ask)
  {
    assert OutsideExecutionWindow in MandateBlocks(spec, ask) ==> OutsideWindow(spec, ask);
    assert OutsideExecutionWindow !in SwitchBlocks(spec, ask);
    assert OutsideExecutionWindow !in ContactBlocks(spec, ask);
    assert OutsideExecutionWindow !in BudgetBlocks(spec, ask);
    assert OutsideExecutionWindow !in Approvals(spec, ask);
  }

  /** A retry scheduled for the slot passes the execution-window guard of every policy. */
  lemma SlotPassesGate(cal: Calendar, after: Time, preferSalary: bool, spec: PolicySpec, ask: Ask)
    requires ValidCalendar(cal) && ask.now == Search(cal, after, preferSalary, MAX_STEPS).at
    ensures !OutsideWindow(spec, ask) && OutsideExecutionWindow !in Gate(spec, ask).reasons
  {
    SlotIsValidAndLeast(cal, after, preferSalary);
    WindowRule(spec, ask);
  }
}
