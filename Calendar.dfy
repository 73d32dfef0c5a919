/** The non-leap calendar the visiting schedule is laid out on. */
module Calendar {

  /** A key of the schedule: (month, day). */
  type Date = (int, int)

  /** Month lengths of a non-leap year, January first. */
  const MonthDays: seq<nat> := [31, 28, 31, 30, 31, 30, 31, 31, 30, 31, 30, 31]

  /** Every month has between 28 and 31 days. */
  lemma MonthLengths()
    ensures forall i :: 0 <= i < 12 ==> 28 <= MonthDays[i] <= 31
  {
    assert MonthDays == [31, 28, 31, 30, 31, 30, 31, 31, 30, 31, 30, 31];
  }

  predicate IsCalendarDate(d: Date) {
    1 <= d.0 <= 12 && 1 <= d.1 <= MonthDays[d.0 - 1]
  }

  /** Strict calendar order: month first, then day. */
  predicate Before(a: Date, b: Date) {
    a.0 < b.0 || (a.0 == b.0 && a.1 < b.1)
  }

  /** The number of days in months 1..m. */
  function DaysThrough(m: nat): (days: nat)
    requires m <= 12
  {
    if m == 0 then 0 else DaysThrough(m - 1) + MonthDays[m - 1]
  }

  /** (month, 1), (month, 2), ..., (month, n). */
  function MonthDates(month: int, n: nat): (r: seq<Date>)
    ensures |r| == n
    ensures forall i :: 0 <= i < n ==> r[i] == (month, i + 1)
  {
    seq(n, i => (month, i + 1))
  }

  /** Every date of months 1..m, month by month and day by day. */
  function DatesThrough(m: nat): (dates: seq<Date>)
    requires m <= 12
  {
    if m == 0 then [] else DatesThrough(m - 1) + MonthDates(m, MonthDays[m - 1])
  }

  /** One more day of month m + 1 extends the listing by that date. */
  lemma DatesStep(m: nat, day: nat)
    requires m < 12 && 1 <= day
    ensures (m + 1, day) !in DatesThrough(m) + MonthDates(m + 1, day - 1)
    ensures DatesThrough(m) + MonthDates(m + 1, day) == DatesThrough(m) + MonthDates(m + 1, day - 1) + [(m + 1, day)]
  {
    DatesThroughMembers(m);
    assert MonthDates(m + 1, day) == MonthDates(m + 1, day - 1) + [(m + 1, day)];
  }

  /** DatesThrough(m) holds exactly the dates of months 1..m. */
  lemma {:induction false} DatesThroughMembers(m: nat)
    requires m <= 12
    ensures forall d: Date :: d in DatesThrough(m) <==> IsCalendarDate(d) && d.0 <= m
  {
    if m > 0 {
      DatesThroughMembers(m - 1);
      var days := MonthDates(m, MonthDays[m - 1]);
      assert forall d: Date :: d in days <==> d.0 == m && 1 <= d.1 <= MonthDays[m - 1] by {
        forall d: Date | d.0 == m && 1 <= d.1 <= MonthDays[m - 1]
          ensures d in days
        {
          assert days[d.1 - 1] == d;
        }
      }
    }
  }

  /** Every date listed for months 1..m lies in one of those months. */
  lemma {:induction false} DatesThroughMonthBound(m: nat)
    requires m <= 12
    ensures forall k :: 0 <= k < |DatesThrough(m)| ==> DatesThrough(m)[k].0 <= m
  {
    if m > 0 {
      DatesThroughMonthBound(m - 1);
      var prev := DatesThrough(m - 1);
      var days := MonthDates(m, MonthDays[m - 1]);
      assert DatesThrough(m) == prev + days;
      forall k | 0 <= k < |DatesThrough(m)|
        ensures DatesThrough(m)[k].0 <= m
      {
        if k < |prev| {
          assert DatesThrough(m)[k] == prev[k];
        } else {
          assert DatesThrough(m)[k] == days[k - |prev|];
        }
      }
    }
  }

  /** DatesThrough(m) is in strict calendar order, so no date repeats. */
  lemma {:induction false} DatesThroughOrdered(m: nat)
    requires m <= 12
    ensures forall i, j :: 0 <= i < j < |DatesThrough(m)| ==> Before(DatesThrough(m)[i], DatesThrough(m)[j])
  {
    if m > 0 {
      DatesThroughOrdered(m - 1);
      DatesThroughMonthBound(m - 1);
      var prev := DatesThrough(m - 1);
      var days := MonthDates(m, MonthDays[m - 1]);
      var all := DatesThrough(m);
      assert all == prev + days;
      forall i, j | 0 <= i < j < |all|
        ensures Before(all[i], all[j])
      {
        if j < |prev| {
          assert all[i] == prev[i] && all[j] == prev[j];
        } else if i < |prev| {
          assert all[i] == prev[i] && all[j] == days[j - |prev|];
        } else {
          assert all[i] == days[i - |prev|] && all[j] == days[j - |prev|];
        }
      }
    }
  }

  /** DatesThrough(m) has one entry per day of months 1..m. */
  lemma {:induction false} DatesThroughLength(m: nat)
    requires m <= 12
    ensures |DatesThrough(m)| == DaysThrough(m)
  {
    if m > 0 {
      DatesThroughLength(m - 1);
    }
  }

  /** Months 1..m (m at least 1) start with the 31 days of January. */
  lemma {:induction false} DatesThroughStart(m: nat)
    requires 1 <= m <= 12
    ensures |DatesThrough(m)| >= 31
    ensures forall k :: 0 <= k < 31 ==> DatesThrough(m)[k] == (1, k + 1)
  {
    if m > 1 {
      DatesThroughStart(m - 1);
    }
  }

  /** Running totals of the month lengths: a non-leap year has 365 days. */
  lemma YearLength()
    ensures DaysThrough(11) == 334 && DaysThrough(12) == 365
  {
    assert DaysThrough(1) == 31;
    assert DaysThrough(2) == 59;
    assert DaysThrough(3) == 90;
    assert DaysThrough(4) == 120;
    assert DaysThrough(5) == 151;
    assert DaysThrough(6) == 181;
    assert DaysThrough(7) == 212;
    assert DaysThrough(8) == 243;
    assert DaysThrough(9) == 273;
    assert DaysThrough(10) == 304;
  }

  /** The listing of the whole year has 365 entries. */
  lemma YearSize()
    ensures |DatesThrough(12)| == 365
  {
    YearLength();
    DatesThroughLength(12);
  }

  /** The listing of months 1..m ends with the last day of month m. */
  lemma DatesThroughLast(m: nat)
    requires 1 <= m <= 12
    ensures |DatesThrough(m)| == DaysThrough(m)
    ensures DatesThrough(m)[DaysThrough(m) - 1] == (m, MonthDays[m - 1])
  {
    MonthLengths();
    DatesThroughLength(m);
    DatesThroughLength(m - 1);
    var days := MonthDates(m, MonthDays[m - 1]);
    assert DatesThrough(m) == DatesThrough(m - 1) + days;
    assert DatesThrough(m)[DaysThrough(m) - 1] == days[MonthDays[m - 1] - 1];
  }

  /** The year has 365 dates, January 1st first and December 31st last. */
  lemma YearDates()
    ensures |DatesThrough(12)| == 365
    ensures DatesThrough(12)[0] == (1, 1) && DatesThrough(12)[364] == (12, 31)
    ensures forall d :: d in DatesThrough(12) <==> IsCalendarDate(d)
  {
    YearLength();
    DatesThroughLast(12);
    DatesThroughMembers(12);
    DatesThroughStart(12);
  }
}
