/**
 * Calendar days as plain day numbers. Day 0 is 1970-01-01, a Thursday, so the
 * weekday numbering is that of a JavaScript Date's getDay: 0 is Sunday and 6
 * is Saturday.
 */
module Calendar {

  type Day = int

  const SUNDAY := 0
  const SATURDAY := 6

  /** 2025-01-02 and 2026-02-20, the first and last day of the sample range. */
  const SAMPLE_FIRST_DAY: Day := 20090
  const SAMPLE_LAST_DAY: Day := 20504

  function Weekday(d: Day): (w: int)
    ensures 0 <= w < 7
  {
    (d + 4) % 7
  }

  /**
   * Day 0 (1970-01-01) is a Thursday; the sample range runs from a Thursday
   * to a Friday; stepping one day moves to the next weekday, Saturday to Sunday.
   */
  lemma WeekdayAnchors(d: Day)
    ensures Weekday(0) == 4
    ensures Weekday(SAMPLE_FIRST_DAY) == 4 && Weekday(SAMPLE_LAST_DAY) == 5
    ensures Weekday(d + 1) == if Weekday(d) == SATURDAY then SUNDAY else Weekday(d) + 1
  {
  }

  /** Saturday and Sunday, the days the generator skips. */
  predicate IsWeekend(d: Day) {
    Weekday(d) == SUNDAY || Weekday(d) == SATURDAY
  }

  /**
   * The days from `first` to `last` (both included) that are neither a
   * Saturday nor a Sunday, in calendar order.
   */
  function BusinessDays(first: Day, last: Day): (r: seq<Day>)
    ensures |r| <= if last < first then 0 else last - first + 1
    decreases last - first
  {
    if last < first then []
    else BusinessDays(first, last - 1) + (if IsWeekend(last) then [] else [last])
  }

  predicate BusinessDaysIn(r: seq<Day>, first: Day, last: Day) {
    forall i :: 0 <= i < |r| ==> first <= r[i] <= last && !IsWeekend(r[i])
  }

  predicate Increasing(r: seq<Day>) {
    forall i, j :: 0 <= i < j < |r| ==> r[i] < r[j]
  }

  /** Only business days of the range are visited, each once, in calendar order. */
  lemma {:induction false} BusinessDaysOrdered(first: Day, last: Day)
    ensures BusinessDaysIn(BusinessDays(first, last), first, last)
    ensures Increasing(BusinessDays(first, last))
    decreases last - first
  {
    if first <= last {
      BusinessDaysOrdered(first, last - 1);
      var prev := BusinessDays(first, last - 1);
      var r := BusinessDays(first, last);
      assert r == prev + (if IsWeekend(last) then [] else [last]);
      assert forall i :: 0 <= i < |prev| ==> r[i] == prev[i];
    }
  }

  /** Every business day of the range is visited. */
  lemma {:induction false} BusinessDayIncluded(first: Day, last: Day, d: Day)
    requires first <= d <= last && !IsWeekend(d)
    ensures d in BusinessDays(first, last)
    decreases last - first
  {
    if d < last {
      BusinessDayIncluded(first, last - 1, d);
    }
  }

  /** A range that starts on a business day starts its business days with it. */
  lemma FirstBusinessDay(first: Day, last: Day)
    requires first <= last && !IsWeekend(first)
    ensures |BusinessDays(first, last)| > 0 && BusinessDays(first, last)[0] == first
  {
    BusinessDayIncluded(first, last, first);
    BusinessDaysOrdered(first, last);
  }

  /** The business days of a range are those of its first part followed by those of the rest. */
  lemma {:induction false} BusinessDaysSplit(first: Day, mid: Day, last: Day)
    requires first - 1 <= mid <= last
    ensures BusinessDays(first, last) == BusinessDays(first, mid) + BusinessDays(mid + 1, last)
    decreases last - mid
  {
    if mid < last {
      BusinessDaysSplit(first, mid, last - 1);
      var tail := if IsWeekend(last) then [] else [last];
      assert BusinessDays(mid + 1, last) == BusinessDays(mid + 1, last - 1) + tail;
      assert BusinessDays(first, mid) + BusinessDays(mid + 1, last - 1) + tail
        == BusinessDays(first, mid) + (BusinessDays(mid + 1, last - 1) + tail);
    } else {
      assert BusinessDays(mid + 1, last) == [];
    }
  }

  /** The business days from `d` on are `d` itself, unless it is a weekend day, then those after it. */
  lemma BusinessDaysFront(d: Day, last: Day)
    requires d <= last
    ensures BusinessDays(d, last) == (if IsWeekend(d) then [] else [d]) + BusinessDays(d + 1, last)
  {
    BusinessDaysSplit(d, d, last);
    assert BusinessDays(d, d - 1) == [];
  }

  /** `weeks` whole weeks hold five business days each. */
  lemma BusinessDaysOfWeeks(first: Day, weeks: nat)
    ensures |BusinessDays(first, first + 7 * weeks - 1)| == 5 * weeks
  {
    var k := 0;
    assert BusinessDays(first, first - 1) == [];
    while k < weeks
      invariant 0 <= k <= weeks
      invariant |BusinessDays(first, first + 7 * k - 1)| == 5 * k
    {
      BusinessDaysSplit(first, first + 7 * k - 1, first + 7 * k + 6);
      WeekHasFiveBusinessDays(first + 7 * k);
      k := k + 1;
    }
  }

  /** The sample range, a Thursday to a Friday 59 weeks later, holds 297 business days. */
  lemma SampleRangeBusinessDays()
    ensures |BusinessDays(SAMPLE_FIRST_DAY, SAMPLE_LAST_DAY)| == 297
  {
    BusinessDaysOfWeeks(SAMPLE_FIRST_DAY, 59);
    BusinessDaysSplit(SAMPLE_FIRST_DAY, SAMPLE_FIRST_DAY + 7 * 59 - 1, SAMPLE_LAST_DAY);
    assert BusinessDays(20503, 20504) == [20503, 20504];
  }

  /** Extending a range by one day adds one business day, or none for a weekend day. */
  lemma CountStep(first: Day, last: Day)
    requires first <= last
    ensures |BusinessDays(first, last)| == |BusinessDays(first, last - 1)| + (if IsWeekend(last) then 0 else 1)
  {
  }

  lemma WeekdayShift(d: Day, k: int)
    requires 0 <= k < 7
    ensures Weekday(d + k) == (Weekday(d) + k) % 7
  {
  }

  /** Any seven consecutive days hold exactly five business days. */
  lemma WeekHasFiveBusinessDays(first: Day)
    ensures |BusinessDays(first, first + 6)| == 5
  {
    var k := 0;
    while k < 7
      invariant 0 <= k <= 7
      invariant |BusinessDays(first, first + k - 1)| == k - WeekendDays(first, k)
    {
      CountStep(first, first + k);
      k := k + 1;
    }
    TwoWeekendDaysAWeek(first);
  }

  /** How many of the `k` days from `first` on fall on a weekend. */
  function WeekendDays(first: Day, k: nat): nat
  {
    if k == 0 then 0
    else WeekendDays(first, k - 1) + (if IsWeekend(first + k - 1) then 1 else 0)
  }

  lemma TwoWeekendDaysAWeek(first: Day)
    ensures WeekendDays(first, 7) == 2
  {
    var w := Weekday(first);
    WeekdayShift(first, 1);
    WeekdayShift(first, 2);
    WeekdayShift(first, 3);
    WeekdayShift(first, 4);
    WeekdayShift(first, 5);
    WeekdayShift(first, 6);
    assert WeekendDays(first, 7) == WeekendDays(first, 6) + (if IsWeekend(first + 6) then 1 else 0);
    assert WeekendDays(first, 6) == WeekendDays(first, 5) + (if IsWeekend(first + 5) then 1 else 0);
    assert WeekendDays(first, 5) == WeekendDays(first, 4) + (if IsWeekend(first + 4) then 1 else 0);
    assert WeekendDays(first, 4) == WeekendDays(first, 3) + (if IsWeekend(first + 3) then 1 else 0);
    assert WeekendDays(first, 3) == WeekendDays(first, 2) + (if IsWeekend(first + 2) then 1 else 0);
    assert WeekendDays(first, 2) == WeekendDays(first, 1) + (if IsWeekend(first + 1) then 1 else 0);
    assert WeekendDays(first, 1) == (if IsWeekend(first) then 1 else 0);
  }
}
