/** The month-over-month spending chart
    (src/components/charts/SpendingComparison.tsx): each month's daily
    amounts are added up by day of month, turned into a running total over
    the month's days, and the two running totals are laid side by side, one
    point per day. Amounts are integer cents. */
module SpendingComparison {
  import opened Common
  import opened Numbers

  datatype DailyData = DailyData(date: string, amount: int)

  /** A chart point; the current month's value is absent past today. */
  datatype ChartPoint = ChartPoint(day: int, current: Option<int>, previous: int)

  /** `getDate(parseISO(date))` for a `yyyy-MM-dd` date: the day of month,
      or nothing when the date does not parse. */
  function DayOf(date: string): (r: Option<int>)
    ensures r.Some? ==> 1 <= r.value <= 31
  {
    if |date| >= 10 && IsDigit(date[8]) && IsDigit(date[9]) then
      var d := 10 * DigitVal(date[8]) + DigitVal(date[9]);
      if 1 <= d <= 31 then Some(d) else None
    else None
  }

  /** `m.get(d) ?? 0`. */
  function Get(m: map<int, int>, d: int): int
  {
    if d in m then m[d] else 0
  }

  /** The `byDay` map after the first loop has read `data`. */
  function ByDay(data: seq<DailyData>): map<int, int>
  {
    if data == [] then map[]
    else
      var m := ByDay(data[..|data| - 1]);
      var last := data[|data| - 1];
      match DayOf(last.date)
      case None => m
      case Some(d) => m[d := Get(m, d) + last.amount]
  }

  /** The amounts dated on day `d`, added up. */
  function DaySum(data: seq<DailyData>, d: int): int
  {
    if data == [] then 0
    else DaySum(data[..|data| - 1], d) + (if DayOf(data[|data| - 1].date) == Some(d) then data[|data| - 1].amount else 0)
  }

  /** The amounts dated on days 1 to `d`, added up. */
  function UpTo(data: seq<DailyData>, d: int): int
  {
    if data == [] then 0
    else
      var day := DayOf(data[|data| - 1].date);
      UpTo(data[..|data| - 1], d) + (if day.Some? && day.value <= d then data[|data| - 1].amount else 0)
  }

  /** `byDay[d]` is the sum of the amounts dated on day `d`. */
  lemma {:induction false} ByDayMeaning(data: seq<DailyData>, d: int)
    ensures Get(ByDay(data), d) == DaySum(data, d)
  {
    if data != [] {
      ByDayMeaning(data[..|data| - 1], d);
    }
  }

  /** The `running` total after day `d`. */
  function Running(byDay: map<int, int>, d: int): int
    decreases d
  {
    if d <= 0 then 0 else Running(byDay, d - 1) + Get(byDay, d)
  }

  /** The `cumulative` map after the second loop has run to day `n`. */
  function Cumulative(byDay: map<int, int>, n: int): map<int, int>
    decreases n
  {
    if n <= 0 then map[] else Cumulative(byDay, n - 1)[n := Running(byDay, n)]
  }

  /** `buildCumulativeSeries`. */
  method BuildCumulativeSeries(data: seq<DailyData>, daysInMonth: int) returns (cumulative: map<int, int>)
    ensures cumulative == Cumulative(ByDay(data), daysInMonth)
  {
    var byDay: map<int, int> := map[];
    for i := 0 to |data|
      invariant byDay == ByDay(data[..i])
    {
      var d := data[i];
      assert data[..i + 1][..i] == data[..i];
      var day := DayOf(d.date);
      if day.Some? {
        byDay := byDay[day.value := (if day.value in byDay then byDay[day.value] else 0) + d.amount];
      }
    }
    assert data[..|data|] == data;
    cumulative := map[];
    var running := 0;
    var day := 1;
    while day <= daysInMonth
      invariant daysInMonth <= 0 ==> day == 1
      invariant 1 <= day && (daysInMonth > 0 ==> day <= daysInMonth + 1)
      invariant running == Running(byDay, day - 1)
      invariant cumulative == Cumulative(byDay, day - 1)
      decreases daysInMonth - day
    {
      running := running + (if day in byDay then byDay[day] else 0);
      cumulative := cumulative[day := running];
      day := day + 1;
    }
  }

  /** The running total to day `d` is the sum of the amounts dated on days
      1 to `d`. */
  lemma {:induction false} RunningMeaning(data: seq<DailyData>, d: int)
    ensures Running(ByDay(data), d) == UpTo(data, d)
    decreases if d < 0 then 0 else d
  {
    if d <= 0 {
      UpToNothing(data, d);
    } else {
      RunningMeaning(data, d - 1);
      ByDayMeaning(data, d);
      UpToStep(data, d);
    }
  }

  lemma {:induction false} UpToNothing(data: seq<DailyData>, d: int)
    requires d <= 0
    ensures UpTo(data, d) == 0
  {
    if data != [] {
      UpToNothing(data[..|data| - 1], d);
    }
  }

  lemma {:induction false} UpToStep(data: seq<DailyData>, d: int)
    ensures UpTo(data, d) == UpTo(data, d - 1) + DaySum(data, d)
  {
    if data != [] {
      UpToStep(data[..|data| - 1], d);
    }
  }

  /** The cumulative map has a key exactly for the days 1 to `n`, and its
      value at `d` is the running total to `d`. */
  lemma {:induction false} CumulativeKeys(byDay: map<int, int>, n: int, d: int)
    ensures d in Cumulative(byDay, n) <==> 1 <= d <= n
    ensures d in Cumulative(byDay, n) ==> Cumulative(byDay, n)[d] == Running(byDay, d)
    decreases if n < 0 then 0 else n
  {
    if n > 0 {
      CumulativeKeys(byDay, n - 1, d);
    }
  }

  /** Hence the series read at day `d` is the amounts dated on days 1 to `d`
      within the month, and 0 outside it. */
  lemma SeriesMeaning(data: seq<DailyData>, daysInMonth: int, d: int)
    ensures Get(Cumulative(ByDay(data), daysInMonth), d) == (if 1 <= d <= daysInMonth then UpTo(data, d) else 0)
  {
    CumulativeKeys(ByDay(data), daysInMonth, d);
    RunningMeaning(data, d);
  }

  /** An amount dated past the month's last day, or not dated at all,
      changes nothing in the series. */
  lemma {:induction false} LateAmountsIgnored(data: seq<DailyData>, x: DailyData, daysInMonth: int)
    requires DayOf(x.date).None? || DayOf(x.date).value > daysInMonth
    ensures Cumulative(ByDay(data + [x]), daysInMonth) == Cumulative(ByDay(data), daysInMonth)
  {
    assert (data + [x])[..|data|] == data;
    SameUpTo(ByDay(data + [x]), ByDay(data), daysInMonth);
  }

  /** Two `byDay` maps that agree on days 1 to `n` give the same series. */
  lemma {:induction false} SameUpTo(a: map<int, int>, b: map<int, int>, n: int)
    requires forall d :: 1 <= d <= n ==> Get(a, d) == Get(b, d)
    ensures Cumulative(a, n) == Cumulative(b, n)
    ensures Running(a, n) == Running(b, n)
    decreases if n < 0 then 0 else n
  {
    if n > 0 {
      SameUpTo(a, b, n - 1);
    }
  }

  /** With no negative amounts the running total never goes down. */
  lemma {:induction false} RunningGrows(data: seq<DailyData>, d: int, e: int)
    requires forall x :: x in data ==> x.amount >= 0
    requires d <= e
    ensures Running(ByDay(data), d) <= Running(ByDay(data), e)
    decreases e - d
  {
    if d < e {
      RunningGrows(data, d, e - 1);
      if e > 0 {
        ByDayMeaning(data, e);
        DaySumNonNegative(data, e);
      }
    }
  }

  lemma {:induction false} DaySumNonNegative(data: seq<DailyData>, d: int)
    requires forall x :: x in data ==> x.amount >= 0
    ensures DaySum(data, d) >= 0
  {
    if data != [] {
      assert data[|data| - 1] in data;
      DaySumNonNegative(data[..|data| - 1], d);
    }
  }

  /** The point for `day`: the current month's value is left out past
      `currentDayOfMonth`; a day missing from a series reads as 0. */
  function PointAt(day: int, currentCum: map<int, int>, previousCum: map<int, int>, currentDayOfMonth: Option<int>): ChartPoint
  {
    ChartPoint(day,
      if currentDayOfMonth.Some? && day > currentDayOfMonth.value then None else Some(Get(currentCum, day)),
      Get(previousCum, day))
  }

  /** The `chartData` loop, one point per day from 1 to `maxDays`. */
  method ChartPoints(currentCum: map<int, int>, previousCum: map<int, int>, maxDays: int, currentDayOfMonth: Option<int>)
    returns (chartData: seq<ChartPoint>)
    ensures |chartData| == (if maxDays > 0 then maxDays else 0)
    ensures forall k :: 0 <= k < |chartData| ==> chartData[k] == PointAt(k + 1, currentCum, previousCum, currentDayOfMonth)
  {
    chartData := [];
    var day := 1;
    while day <= maxDays
      invariant 1 <= day && (maxDays > 0 ==> day <= maxDays + 1) && (maxDays <= 0 ==> day == 1)
      invariant |chartData| == day - 1
      invariant forall k :: 0 <= k < |chartData| ==> chartData[k] == PointAt(k + 1, currentCum, previousCum, currentDayOfMonth)
      decreases maxDays - day
    {
      var currentVal := if currentDayOfMonth.Some? && day > currentDayOfMonth.value then None
        else Some(if day in currentCum then currentCum[day] else 0);
      chartData := chartData + [ChartPoint(day, currentVal, if day in previousCum then previousCum[day] else 0)];
      day := day + 1;
    }
  }

  /** The chart as a whole. */
  method Chart(currentData: seq<DailyData>, previousData: seq<DailyData>, currentDaysInMonth: int,
               previousDaysInMonth: int, currentDayOfMonth: Option<int>)
    returns (chartData: seq<ChartPoint>)
    ensures var maxDays := Max(currentDaysInMonth, previousDaysInMonth);
      |chartData| == (if maxDays > 0 then maxDays else 0)
    ensures forall k :: 0 <= k < |chartData| ==> chartData[k] == PointAt(k + 1,
      Cumulative(ByDay(currentData), currentDaysInMonth), Cumulative(ByDay(previousData), previousDaysInMonth), currentDayOfMonth)
  {
    var maxDays := Max(currentDaysInMonth, previousDaysInMonth);
    var currentCum := BuildCumulativeSeries(currentData, currentDaysInMonth);
    var previousCum := BuildCumulativeSeries(previousData, previousDaysInMonth);
    chartData := ChartPoints(currentCum, previousCum, maxDays, currentDayOfMonth);
  }

  /** Read through the data: at day `d` the previous month shows what was
      spent on its days 1 to `d`, and the current month the same up to
      today; a month shorter than the chart shows 0 past its last day. */
  lemma PointMeaning(currentData: seq<DailyData>, previousData: seq<DailyData>, currentDaysInMonth: int,
                     previousDaysInMonth: int, currentDayOfMonth: Option<int>, d: int)
    ensures var p := PointAt(d, Cumulative(ByDay(currentData), currentDaysInMonth),
                             Cumulative(ByDay(previousData), previousDaysInMonth), currentDayOfMonth);
      && p.previous == (if 1 <= d <= previousDaysInMonth then UpTo(previousData, d) else 0)
      && (p.current.None? <==> currentDayOfMonth.Some? && d > currentDayOfMonth.value)
      && (p.current.Some? ==> p.current.value == (if 1 <= d <= currentDaysInMonth then UpTo(currentData, d) else 0))
  {
    SeriesMeaning(previousData, previousDaysInMonth, d);
    SeriesMeaning(currentData, currentDaysInMonth, d);
  }

  /** A 30-day previous month charted beside a 31-day current month: its
      running total of 100 on day 30 falls back to 0 on day 31. */
  lemma PreviousDropsToZero()
    ensures var prev := Cumulative(ByDay([DailyData("2024-04-01", 100)]), 30);
      && PointAt(30, map[], prev, None).previous == 100
      && PointAt(31, map[], prev, None).previous == 0
  {
    var data := [DailyData("2024-04-01", 100)];
    assert DayOf(data[0].date) == Some(1);
    assert data[..0] == [];
    SeriesMeaning(data, 30, 30);
    SeriesMeaning(data, 30, 31);
  }

  /** The point with each month held at its final total past its last day. */
  function HeldPointAt(day: int, currentCum: map<int, int>, previousCum: map<int, int>,
                       currentDaysInMonth: int, previousDaysInMonth: int, currentDayOfMonth: Option<int>): ChartPoint
  {
    ChartPoint(day,
      if currentDayOfMonth.Some? && day > currentDayOfMonth.value then None
      else Some(Get(currentCum, Min(day, currentDaysInMonth))),
      Get(previousCum, Min(day, previousDaysInMonth)))
  }

  /** With the month held at its total, a series with no negative amounts
      never goes down across the whole chart, and it ends on the month's
      total. */
  lemma HeldPreviousGrows(previousData: seq<DailyData>, previousDaysInMonth: int, d: int, e: int)
    requires forall x :: x in previousData ==> x.amount >= 0
    requires 1 <= d <= e && previousDaysInMonth >= 1
    ensures var cum := Cumulative(ByDay(previousData), previousDaysInMonth);
      && HeldPointAt(d, map[], cum, 0, previousDaysInMonth, None).previous
        <= HeldPointAt(e, map[], cum, 0, previousDaysInMonth, None).previous
      && (e >= previousDaysInMonth ==>
        HeldPointAt(e, map[], cum, 0, previousDaysInMonth, None).previous == UpTo(previousData, previousDaysInMonth))
  {
    var n := previousDaysInMonth;
    SeriesMeaning(previousData, n, Min(d, n));
    SeriesMeaning(previousData, n, Min(e, n));
    RunningMeaning(previousData, Min(d, n));
    RunningMeaning(previousData, Min(e, n));
    RunningGrows(previousData, Min(d, n), Min(e, n));
  }
}
