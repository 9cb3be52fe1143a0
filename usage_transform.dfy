/** The usage transform: one upstream usage-query response becomes a
    `Dashboard` of daily rows, billing-cycle summaries, the current and
    previous cycle and a rolling window of the last 30 days.

    Quantities are exact reals. Upstream numbers arrive already coerced to
    numbers; a missing or null value is `None`. Date strings that the
    transform parses are handed to an explicit `parse` function, whose
    `None` stands for an invalid date. */
module UsageTransform {
  import opened Wrappers
  import opened DateOrder

  // ---------------------------------------------------------------------
  // The upstream payload (only the fields the transform reads)
  // ---------------------------------------------------------------------

  datatype ApiDailyUsage = ApiDailyUsage(
    date: string,
    priorityGB: Option<real>,
    standardGB: Option<real>,
    nonBillableGB: Option<real>)

  datatype ApiOverageLine = ApiOverageLine(
    pricePerGB: Option<real>,
    overageAmountGB: Option<real>,
    overagePrice: Option<real>,
    productId: Option<string>)

  /** `overageLines` is `None` when the field is missing or not an array;
      an element is `None` when it is null or undefined. */
  datatype ApiBillingCycle = ApiBillingCycle(
    startDate: string,
    endDate: string,
    dailyDataUsage: Option<seq<ApiDailyUsage>>,
    overageLines: Option<seq<Option<ApiOverageLine>>>,
    totalPriorityGB: Option<real>,
    totalStandardGB: Option<real>,
    totalNonBillableGB: Option<real>)

  datatype ApiResultItem = ApiResultItem(
    serviceLineNumber: string,
    accountNumber: string,
    lastUpdated: string,
    billingCycles: Option<seq<ApiBillingCycle>>)

  datatype ApiContent = ApiContent(results: Option<seq<Option<ApiResultItem>>>)

  datatype ApiResponse = ApiResponse(content: Option<ApiContent>)

  // ---------------------------------------------------------------------
  // The dashboard model
  // ---------------------------------------------------------------------

  datatype DailyRow = DailyRow(
    date: string,
    priorityGB: real,
    standardGB: real,
    nonBillableGB: real,
    totalGB: real)

  datatype Overage = Overage(
    pricePerGB: Option<real>,
    overageAmountGB: Option<real>,
    overagePrice: Option<real>,
    productId: Option<string>)

  /** Total, average per day and peak day of a list of daily rows. */
  datatype Summary = Summary(
    totalGB: real,
    avgPerDayGB: real,
    peakDayGB: real,
    peakDayDate: Option<string>)

  datatype CycleSummary = CycleSummary(
    startDate: string,
    endDate: string,
    totalPriorityGB: real,
    totalStandardGB: real,
    totalNonBillableGB: real,
    totalGB: real,
    avgPerDayGB: real,
    peakDayGB: real,
    peakDayDate: Option<string>,
    overage: Option<Overage>,
    daily: seq<DailyRow>)
  {
    function Stats(): Summary { Summary(totalGB, avgPerDayGB, peakDayGB, peakDayDate) }
  }

  datatype Last30Days = Last30Days(
    totalGB: real,
    avgPerDayGB: real,
    peakDayGB: real,
    peakDayDate: Option<string>,
    daily: seq<DailyRow>)
  {
    function Stats(): Summary { Summary(totalGB, avgPerDayGB, peakDayGB, peakDayDate) }
  }

  datatype CycleRange = CycleRange(startDate: string, endDate: string)

  datatype Dashboard = Dashboard(
    serviceLineNumber: string,
    accountNumber: string,
    lastUpdated: string,
    currentCycle: Option<CycleSummary>,
    previousCycle: Option<CycleSummary>,
    last30Days: Last30Days,
    cycles: seq<CycleRange>)

  // ---------------------------------------------------------------------
  // Rounding to two decimals
  // ---------------------------------------------------------------------

  /** `x` is a whole number of hundredths. */
  predicate IsCents(x: real) {
    (x * 100.0).Floor as real == x * 100.0
  }

  /** `r` is `x` rounded to hundredths, an exact half going up. */
  predicate RoundsTo(x: real, r: real) {
    IsCents(r) && x - 0.005 < r <= x + 0.005
  }

  /** Multiply by 100, round to the nearest integer (halves toward plus
      infinity, as `Math.round` does), divide by 100. */
  function Round2(x: real): (r: real)
    ensures RoundsTo(x, r)
  {
    var k := (x * 100.0 + 0.5).Floor;
    assert (k as real / 100.0) * 100.0 == k as real;
    k as real / 100.0
  }

  /** `RoundsTo` pins the result down: `Round2` is the only rounding. */
  lemma RoundsToUnique(x: real, a: real, b: real)
    requires RoundsTo(x, a) && RoundsTo(x, b)
    ensures a == b
  {
    var ka, kb := (a * 100.0).Floor, (b * 100.0).Floor;
    assert -1.0 < (ka - kb) as real < 1.0;
    assert ka == kb;
  }

  lemma Round2Idempotent(x: real)
    ensures Round2(Round2(x)) == Round2(x)
  {
    var r := Round2(x);
    assert RoundsTo(r, r);
    RoundsToUnique(r, r, Round2(r));
  }

  /** An exact half rounds up, also below zero. */
  lemma Round2HalvesGoUp()
    ensures Round2(0.005) == 0.01
    ensures Round2(-0.005) == 0.0
    ensures Round2(-0.015) == -0.01
  {
  }

  // ---------------------------------------------------------------------
  // Daily rows
  // ---------------------------------------------------------------------

  /** `value ?? 0` */
  function OrZero(v: Option<real>): (r: real)
    ensures v.None? ==> r == 0.0
    ensures v.Some? ==> r == v.value
  {
    if v.Some? then v.value else 0.0
  }

  /** The first ten characters of an ISO date-time, or all of a shorter
      string: the date part, not reparsed. */
  function ToIsoDateOnly(iso: string): (r: string)
    ensures r <= iso
    ensures |r| == Min(10, |iso|)
  {
    if |iso| <= 10 then iso else iso[..10]
  }

  function NormalizeDaily(d: ApiDailyUsage): (row: DailyRow)
    ensures row.date <= d.date && |row.date| == Min(10, |d.date|)
    ensures RoundsTo(OrZero(d.priorityGB), row.priorityGB)
    ensures RoundsTo(OrZero(d.standardGB), row.standardGB)
    ensures RoundsTo(OrZero(d.nonBillableGB), row.nonBillableGB)
    ensures RoundsTo(OrZero(d.priorityGB) + OrZero(d.standardGB) + OrZero(d.nonBillableGB), row.totalGB)
  {
    var priorityGB := OrZero(d.priorityGB);
    var standardGB := OrZero(d.standardGB);
    var nonBillableGB := OrZero(d.nonBillableGB);
    DailyRow(
      ToIsoDateOnly(d.date),
      Round2(priorityGB),
      Round2(standardGB),
      Round2(nonBillableGB),
      Round2(priorityGB + standardGB + nonBillableGB))
  }

  /** The total is rounded from the unrounded inputs, so it can differ from
      the sum of the three rounded fields, but by one hundredth at most. */
  lemma NormalizedTotalDrift(d: ApiDailyUsage)
    ensures var row := NormalizeDaily(d);
      -0.01 <= row.totalGB - (row.priorityGB + row.standardGB + row.nonBillableGB) <= 0.01
  {
    var row := NormalizeDaily(d);
    var kt := (row.totalGB * 100.0).Floor;
    var kp := (row.priorityGB * 100.0).Floor;
    var ks := (row.standardGB * 100.0).Floor;
    var kn := (row.nonBillableGB * 100.0).Floor;
    var k := kt - kp - ks - kn;
    assert (row.totalGB - (row.priorityGB + row.standardGB + row.nonBillableGB)) * 100.0 == k as real;
    assert -2 < k < 2;
  }

  /** The drift happens: two fields of 0.004 each round to 0, their sum to 0.01. */
  lemma NormalizedTotalNotSumOfFields()
    ensures var row := NormalizeDaily(ApiDailyUsage("2024-01-01", Some(0.004), Some(0.004), None));
      row.priorityGB == 0.0 && row.standardGB == 0.0 && row.nonBillableGB == 0.0 && row.totalGB == 0.01
  {
  }

  // ---------------------------------------------------------------------
  // Totals, average and peak of a list of rows
  // ---------------------------------------------------------------------

  /** `daily.reduce((a, r) => a + r.totalGB, 0)` */
  function SumTotals(rows: seq<DailyRow>): (total: real)
    ensures rows == [] ==> total == 0.0
    ensures |rows| == 1 ==> total == rows[0].totalGB
  {
    if rows == [] then 0.0
    else
      var last := |rows| - 1;
      SumTotals(rows[..last]) + rows[last].totalGB
  }

  /** Usage is never negative in the sum when no day is negative. */
  lemma {:induction false} SumTotalsNonNegative(rows: seq<DailyRow>)
    requires forall i | 0 <= i < |rows| :: rows[i].totalGB >= 0.0
    ensures SumTotals(rows) >= 0.0
    decreases |rows|
  {
    if rows != [] {
      SumTotalsNonNegative(rows[..|rows| - 1]);
    }
  }

  /** `Math.max(1, daily.length)` */
  function DayCount(rows: seq<DailyRow>): (n: real)
    ensures n >= 1.0
    ensures |rows| > 0 ==> n == |rows| as real
  {
    if |rows| == 0 then 1.0 else |rows| as real
  }

  /** Row `k` is the first row holding the largest total, and that total is
      above zero. */
  predicate IsFirstPeak(rows: seq<DailyRow>, k: int) {
    0 <= k < |rows| && rows[k].totalGB > 0.0 &&
    (forall j | 0 <= j < |rows| :: rows[j].totalGB <= rows[k].totalGB) &&
    (forall j | 0 <= j < k :: rows[j].totalGB < rows[k].totalGB)
  }

  /** The row a left-to-right scan with a strict `>` against a running peak
      that starts at 0 ends on, or `None` when no row beats 0. */
  function PeakIndex(rows: seq<DailyRow>): (k: Option<nat>)
    ensures k.None? <==> forall i | 0 <= i < |rows| :: rows[i].totalGB <= 0.0
    ensures k.Some? ==> IsFirstPeak(rows, k.value)
  {
    if rows == [] then None
    else
      var last := |rows| - 1;
      var p := PeakIndex(rows[..last]);
      var best := if p.Some? then rows[p.value].totalGB else 0.0;
      if rows[last].totalGB > best then Some(last) else p
  }

  lemma FirstPeakUnique(rows: seq<DailyRow>, k1: int, k2: int)
    requires IsFirstPeak(rows, k1) && IsFirstPeak(rows, k2)
    ensures k1 == k2
  {
  }

  /** What a summary of `rows` is: the rounded sum of the daily totals, the
      rounded average over at least one day, and the first row with the
      largest positive total (peak 0 and no date when no row is positive). */
  ghost predicate SummaryOf(rows: seq<DailyRow>, s: Summary) {
    RoundsTo(SumTotals(rows), s.totalGB) &&
    RoundsTo(s.totalGB / DayCount(rows), s.avgPerDayGB) &&
    (s.peakDayDate.None? <==> forall i | 0 <= i < |rows| :: rows[i].totalGB <= 0.0) &&
    (s.peakDayDate.None? ==> s.peakDayGB == 0.0) &&
    (s.peakDayDate.Some? ==>
      exists k | 0 <= k < |rows| ::
        IsFirstPeak(rows, k) && s.peakDayDate.value == rows[k].date && RoundsTo(rows[k].totalGB, s.peakDayGB))
  }

  /** `SummaryOf` leaves exactly one summary for each list of rows. */
  lemma SummaryOfUnique(rows: seq<DailyRow>, a: Summary, b: Summary)
    requires SummaryOf(rows, a) && SummaryOf(rows, b)
    ensures a == b
  {
    RoundsToUnique(SumTotals(rows), a.totalGB, b.totalGB);
    RoundsToUnique(a.totalGB / DayCount(rows), a.avgPerDayGB, b.avgPerDayGB);
    if a.peakDayDate.Some? {
      var ka :| 0 <= ka < |rows| && IsFirstPeak(rows, ka) && a.peakDayDate.value == rows[ka].date
        && RoundsTo(rows[ka].totalGB, a.peakDayGB);
      var kb :| 0 <= kb < |rows| && IsFirstPeak(rows, kb) && b.peakDayDate.value == rows[kb].date
        && RoundsTo(rows[kb].totalGB, b.peakDayGB);
      FirstPeakUnique(rows, ka, kb);
      RoundsToUnique(rows[ka].totalGB, a.peakDayGB, b.peakDayGB);
    }
  }

  /** The value `summarizeDaily` returns, as a function of its input. */
  function Summarize(rows: seq<DailyRow>): (s: Summary)
    ensures SummaryOf(rows, s)
  {
    var totalGB := Round2(SumTotals(rows));
    var p := PeakIndex(rows);
    assert (0.0 * 100.0 + 0.5).Floor == 0;
    Summary(
      totalGB,
      Round2(totalGB / DayCount(rows)),
      Round2(if p.Some? then rows[p.value].totalGB else 0.0),
      if p.Some? then Some(rows[p.value].date) else None)
  }

  /** No rows: total, average and peak 0 and no peak date. */
  lemma SummarizeEmpty()
    ensures Summarize([]) == Summary(0.0, 0.0, 0.0, None)
  {
  }

  /** `summarizeDaily`: the total by reduction, then one pass that keeps the
      running peak and its date. */
  method SummarizeDaily(daily: seq<DailyRow>) returns (s: Summary)
    ensures s == Summarize(daily)
  {
    var totalGB := Round2(SumTotals(daily));
    var avgPerDayGB := Round2(totalGB / DayCount(daily));
    var peakDayGB := 0.0;
    var peakDayDate: Option<string> := None;
    ghost var peak: Option<nat> := None;
    for i := 0 to |daily|
      invariant peak == PeakIndex(daily[..i])
      invariant peak.Some? ==> peak.value < i
      invariant peakDayGB == (if peak.Some? then daily[peak.value].totalGB else 0.0)
      invariant peakDayDate == (if peak.Some? then Some(daily[peak.value].date) else None)
    {
      assert daily[..i + 1][..i] == daily[..i];
      if daily[i].totalGB > peakDayGB {
        peakDayGB := daily[i].totalGB;
        peakDayDate := Some(daily[i].date);
        peak := Some(i);
      }
    }
    assert daily[..|daily|] == daily;
    s := Summary(totalGB, avgPerDayGB, Round2(peakDayGB), peakDayDate);
  }

  lemma {:induction false} SumTotalsAppend(a: seq<DailyRow>, b: seq<DailyRow>)
    ensures SumTotals(a + b) == SumTotals(a) + SumTotals(b)
    decreases |b|
  {
    if b != [] {
      var last := |b| - 1;
      assert (a + b)[..|a + b| - 1] == a + b[..last];
      SumTotalsAppend(a, b[..last]);
    } else {
      assert a + b == a;
    }
  }

  /** The sum read from the front: the first row's total plus the sum of
      the rest, the same value the left-to-right `reduce` accumulates. */
  lemma SumTotalsFirst(rows: seq<DailyRow>)
    requires rows != []
    ensures SumTotals(rows) == rows[0].totalGB + SumTotals(rows[1..])
  {
    assert rows == [rows[0]] + rows[1..];
    SumTotalsAppend([rows[0]], rows[1..]);
  }

  /** Taking row `k` out of a list takes its total out of the sum. */
  lemma SumTotalsRemove(b: seq<DailyRow>, k: nat)
    requires k < |b|
    ensures SumTotals(b) == SumTotals(b[..k] + b[k + 1..]) + b[k].totalGB
  {
    var pre, tail := b[..k], b[k..];
    assert b == pre + tail;
    SumTotalsAppend(pre, tail);
    SumTotalsFirst(tail);
    assert tail[1..] == b[k + 1..];
    SumTotalsAppend(pre, b[k + 1..]);
  }

  /** The exact sum of the totals does not depend on the order of the rows. */
  lemma {:induction false} SumTotalsPermutation(a: seq<DailyRow>, b: seq<DailyRow>)
    requires multiset(a) == multiset(b)
    ensures SumTotals(a) == SumTotals(b)
    decreases |a|
  {
    if a == [] {
      assert |b| == |multiset(b)| == 0;
    } else {
      var last := |a| - 1;
      var x := a[last];
      assert a == a[..last] + [x];
      assert x in multiset(b);
      var k :| 0 <= k < |b| && b[k] == x;
      var rest := b[..k] + b[k + 1..];
      assert multiset(a[..last]) == multiset(rest) by {
        assert b == b[..k] + [x] + b[k + 1..];
        assert multiset(a[..last]) == multiset(a) - multiset{x};
        assert multiset(rest) == multiset(b) - multiset{x};
      }
      SumTotalsPermutation(a[..last], rest);
      SumTotalsRemove(b, k);
    }
  }

  // ---------------------------------------------------------------------
  // One billing cycle
  // ---------------------------------------------------------------------

  /** The first overage line, with every missing field set to null; absent
      when there is no array, it is empty, or its first element is null. */
  function PickOverageFromCycle(cycle: ApiBillingCycle): (o: Option<Overage>)
    ensures o.None? <==>
      cycle.overageLines.None? || |cycle.overageLines.value| == 0 || cycle.overageLines.value[0].None?
    ensures o.Some? ==>
      var line := cycle.overageLines.value[0].value;
      o.value.pricePerGB == line.pricePerGB && o.value.overageAmountGB == line.overageAmountGB &&
      o.value.overagePrice == line.overagePrice && o.value.productId == line.productId
  {
    var line := if cycle.overageLines.Some? && |cycle.overageLines.value| > 0
                then cycle.overageLines.value[0] else None;
    match line
    case None => None
    case Some(l) => Some(Overage(l.pricePerGB, l.overageAmountGB, l.overagePrice, l.productId))
  }

  /** `cycle.dailyDataUsage ?? []` */
  function DailyUsageOf(cycle: ApiBillingCycle): (usage: seq<ApiDailyUsage>)
    ensures cycle.dailyDataUsage.None? ==> usage == []
    ensures cycle.dailyDataUsage.Some? ==> usage == cycle.dailyDataUsage.value
  {
    if cycle.dailyDataUsage.Some? then cycle.dailyDataUsage.value else []
  }

  function BuildCycleSummary(cycle: ApiBillingCycle): (c: CycleSummary)
    ensures c.startDate == cycle.startDate && c.endDate == cycle.endDate
    ensures |c.daily| == |DailyUsageOf(cycle)|
    ensures forall i | 0 <= i < |c.daily| :: c.daily[i] == NormalizeDaily(DailyUsageOf(cycle)[i])
    ensures c.totalPriorityGB == OrZero(cycle.totalPriorityGB)
    ensures c.totalStandardGB == OrZero(cycle.totalStandardGB)
    ensures c.totalNonBillableGB == OrZero(cycle.totalNonBillableGB)
    ensures SummaryOf(c.daily, c.Stats())
    ensures c.overage == PickOverageFromCycle(cycle)
  {
    var usage := DailyUsageOf(cycle);
    var daily := seq(|usage|, i requires 0 <= i < |usage| => NormalizeDaily(usage[i]));
    var s := Summarize(daily);
    CycleSummary(
      cycle.startDate, cycle.endDate,
      OrZero(cycle.totalPriorityGB), OrZero(cycle.totalStandardGB), OrZero(cycle.totalNonBillableGB),
      s.totalGB, s.avgPerDayGB, s.peakDayGB, s.peakDayDate,
      PickOverageFromCycle(cycle),
      daily)
  }

  // ---------------------------------------------------------------------
  // Current and previous cycle
  // ---------------------------------------------------------------------

  /** `now` lies in the half-open interval `[start, end)` of the cycle; an
      unparseable date compares false. */
  predicate Contains(c: ApiBillingCycle, now: int, parse: string -> Option<int>)
    ensures Contains(c, now, parse) ==> parse(c.startDate).Some? && parse(c.endDate).Some?
    ensures Contains(c, now, parse) ==> parse(c.startDate).value <= now < parse(c.endDate).value
    ensures parse(c.endDate) == Some(now) ==> !Contains(c, now, parse)
    ensures parse(c.startDate) == Some(now) && parse(c.endDate).Some? && now < parse(c.endDate).value ==>
      Contains(c, now, parse)
  {
    var s := parse(c.startDate);
    var e := parse(c.endDate);
    s.Some? && e.Some? && s.value <= now < e.value
  }

  /** Cycle `k` contains `now` and no earlier cycle does. */
  predicate IsFirstContaining(cycles: seq<ApiBillingCycle>, k: int, now: int, parse: string -> Option<int>) {
    0 <= k < |cycles| && Contains(cycles[k], now, parse) &&
    forall j | 0 <= j < k :: !Contains(cycles[j], now, parse)
  }

  /** `Array.prototype.find` from position `from` on. */
  function FindFrom(cycles: seq<ApiBillingCycle>, now: int, parse: string -> Option<int>, from: nat): (r: Option<ApiBillingCycle>)
    requires from <= |cycles|
    ensures r.None? <==> forall i | from <= i < |cycles| :: !Contains(cycles[i], now, parse)
    ensures r.Some? ==> Contains(r.value, now, parse)
    decreases |cycles| - from
  {
    if from == |cycles| then None
    else if Contains(cycles[from], now, parse) then Some(cycles[from])
    else FindFrom(cycles, now, parse, from + 1)
  }

  /** `findCurrentCycle`: the first cycle containing `now`, or null. */
  function FindCurrentCycle(cycles: seq<ApiBillingCycle>, now: int, parse: string -> Option<int>): (r: Option<ApiBillingCycle>)
    ensures r.None? <==> forall i | 0 <= i < |cycles| :: !Contains(cycles[i], now, parse)
    ensures r.Some? ==> Contains(r.value, now, parse)
  {
    FindFrom(cycles, now, parse, 0)
  }

  /** `Array.prototype.indexOf`: the first position holding `x`, or -1. */
  function IndexOf<T(==)>(s: seq<T>, x: T): (j: int)
    ensures -1 <= j < |s|
    ensures j == -1 <==> x !in s
    ensures j >= 0 ==> s[j] == x && forall i | 0 <= i < j :: s[i] != x
  {
    if s == [] then -1
    else if s[0] == x then 0
    else
      var j := IndexOf(s[1..], x);
      if j == -1 then -1 else j + 1
  }

  /** `currentIdx`: the position of the cycle `findCurrentCycle` returned, -1
      when it returned null. */
  function CurrentIndex(cycles: seq<ApiBillingCycle>, now: int, parse: string -> Option<int>): (k: int)
    ensures -1 <= k < |cycles|
  {
    var found := FindCurrentCycle(cycles, now, parse);
    if found.Some? then IndexOf(cycles, found.value) else -1
  }

  /** `find` followed by `indexOf` yields the lowest position whose cycle
      contains `now`, and -1 exactly when no cycle does. */
  lemma {:induction false} CurrentIndexIsFirstContaining(cycles: seq<ApiBillingCycle>, now: int, parse: string -> Option<int>)
    ensures CurrentIndex(cycles, now, parse) == -1 <==> forall i | 0 <= i < |cycles| :: !Contains(cycles[i], now, parse)
    ensures CurrentIndex(cycles, now, parse) != -1 ==> IsFirstContaining(cycles, CurrentIndex(cycles, now, parse), now, parse)
  {
    var found := FindCurrentCycle(cycles, now, parse);
    if found.Some? {
      var c := found.value;
      var k :| 0 <= k < |cycles| && Contains(cycles[k], now, parse) &&
        forall j | 0 <= j < k :: !Contains(cycles[j], now, parse)
        by { FindFromIsFirst(cycles, now, parse, 0); }
      FindFromIsFirst(cycles, now, parse, 0);
      assert c == cycles[k];
      var j := IndexOf(cycles, c);
      assert c in cycles;
      assert j <= k;
      assert Contains(cycles[j], now, parse);
    }
  }

  /** What `FindFrom` returns is the first containing cycle at or after `from`. */
  lemma {:induction false} FindFromIsFirst(cycles: seq<ApiBillingCycle>, now: int, parse: string -> Option<int>, from: nat)
    requires from <= |cycles|
    ensures var r := FindFrom(cycles, now, parse, from);
      r.Some? ==> exists k | from <= k < |cycles| ::
        r.value == cycles[k] && Contains(cycles[k], now, parse) &&
        forall j | from <= j < k :: !Contains(cycles[j], now, parse)
    decreases |cycles| - from
  {
    if from < |cycles| && !Contains(cycles[from], now, parse) {
      FindFromIsFirst(cycles, now, parse, from + 1);
      var r := FindFrom(cycles, now, parse, from + 1);
      if r.Some? {
        var k :| from + 1 <= k < |cycles| && r.value == cycles[k] && Contains(cycles[k], now, parse) &&
          forall j | from + 1 <= j < k :: !Contains(cycles[j], now, parse);
        assert forall j | from <= j < k :: !Contains(cycles[j], now, parse);
      }
    }
  }

  // ---------------------------------------------------------------------
  // The rolling window
  // ---------------------------------------------------------------------

  /** `cycles.flatMap(c => c.daily)` */
  function AllDaily(cycles: seq<CycleSummary>): (rows: seq<DailyRow>)
    ensures cycles == [] ==> rows == []
    ensures |cycles| == 1 ==> rows == cycles[0].daily
  {
    if cycles == [] then [] else cycles[0].daily + AllDaily(cycles[1..])
  }

  /** The pool holds every row of every cycle, as often as the cycle holds
      it, and nothing that is in no cycle. */
  lemma {:induction false} AllDailyHoldsEveryRow(cycles: seq<CycleSummary>)
    ensures forall i | 0 <= i < |cycles| :: multiset(cycles[i].daily) <= multiset(AllDaily(cycles))
    ensures forall x | x in AllDaily(cycles) :: exists i | 0 <= i < |cycles| :: x in cycles[i].daily
    decreases |cycles|
  {
    if cycles != [] {
      var rest := AllDaily(cycles[1..]);
      AllDailyHoldsEveryRow(cycles[1..]);
      assert multiset(AllDaily(cycles)) == multiset(cycles[0].daily) + multiset(rest);
      forall i | 0 < i < |cycles|
        ensures multiset(cycles[i].daily) <= multiset(AllDaily(cycles))
      {
        assert cycles[1..][i - 1] == cycles[i];
      }
      forall x | x in AllDaily(cycles)
        ensures exists i | 0 <= i < |cycles| :: x in cycles[i].daily
      {
        if x !in cycles[0].daily {
          assert x in rest;
          var k :| 0 <= k < |cycles| - 1 && x in cycles[1..][k].daily;
          assert cycles[k + 1] == cycles[1..][k];
        }
      }
    }
  }

  lemma {:induction false} AllDailyAppend(a: seq<CycleSummary>, b: seq<CycleSummary>)
    ensures AllDaily(a + b) == AllDaily(a) + AllDaily(b)
    decreases |a|
  {
    if a == [] {
      assert a + b == b;
    } else {
      assert (a + b)[1..] == a[1..] + b;
      AllDailyAppend(a[1..], b);
    }
  }

  /** The pool holds every cycle's rows, cycle after cycle in upstream order:
      those of the cycles before `i`, then cycle `i`'s own, then the rest. */
  lemma AllDailySplit(cycles: seq<CycleSummary>, i: nat)
    requires i < |cycles|
    ensures AllDaily(cycles) == AllDaily(cycles[..i]) + cycles[i].daily + AllDaily(cycles[i + 1..])
  {
    var pre, rest := cycles[..i], cycles[i..];
    assert cycles == pre + rest;
    AllDailyAppend(pre, rest);
    assert rest[0] == cycles[i] && rest[1..] == cycles[i + 1..];
  }

  /** Each row's date sorts at or before the next row's. */
  predicate SortedByDate(s: seq<DailyRow>) {
    forall i | 0 < i < |s| :: LexLe(s[i - 1].date, s[i].date)
  }

  /** Inserts `x` before the first row whose date is not smaller, so that it
      stays ahead of rows with the same date. */
  function InsertByDate(x: DailyRow, ys: seq<DailyRow>): (r: seq<DailyRow>)
    ensures |r| == |ys| + 1
    ensures multiset(r) == multiset{x} + multiset(ys)
    ensures r[0] == x || (|ys| > 0 && r[0] == ys[0])
    ensures SortedByDate(ys) ==> SortedByDate(r)
  {
    if ys == [] || LexLe(x.date, ys[0].date) then
      [x] + ys
    else
      LexLeTotal(x.date, ys[0].date);
      assert ys == [ys[0]] + ys[1..];
      [ys[0]] + InsertByDate(x, ys[1..])
  }

  /** The comparator sort `a.date.localeCompare(b.date)` on a copy of the
      rows, as a stable insertion sort. */
  function SortByDate(s: seq<DailyRow>): (r: seq<DailyRow>)
    ensures |r| == |s|
    ensures multiset(r) == multiset(s)
    ensures SortedByDate(r)
  {
    if s == [] then []
    else
      assert s == [s[0]] + s[1..];
      InsertByDate(s[0], SortByDate(s[1..]))
  }

  /** In a sorted list every row sorts at or before every later row. */
  lemma {:induction false} SortedPairwise(s: seq<DailyRow>, i: nat, j: nat)
    requires SortedByDate(s) && i <= j < |s|
    ensures LexLe(s[i].date, s[j].date)
    decreases j - i
  {
    if i == j {
      LexLeReflexive(s[i].date);
    } else {
      SortedPairwise(s, i, j - 1);
      LexLeTransitive(s[i].date, s[j - 1].date, s[j].date);
    }
  }

  /** The rolling window over the pooled rows: sort a copy by date, keep the
      last 30 (or all, when fewer) and summarise them. */
  function RollingWindow(pool: seq<DailyRow>): (w: Last30Days)
    ensures |w.daily| == Min(30, |pool|)
    ensures w.daily == SortByDate(pool)[|pool| - |w.daily|..]
    ensures SortedByDate(w.daily)
    ensures multiset(w.daily) <= multiset(pool)
    ensures SummaryOf(w.daily, w.Stats())
  {
    var sorted := SortByDate(pool);
    var start := Max(0, |sorted| - 30);
    var last30 := sorted[start..];
    assert sorted == sorted[..start] + last30;
    assert multiset(sorted) == multiset(sorted[..start]) + multiset(last30);
    var s := Summarize(last30);
    Last30Days(s.totalGB, s.avgPerDayGB, s.peakDayGB, s.peakDayDate, last30)
  }

  /** The window holds the latest dates: every pooled row it leaves out
      sorts at or before every row it keeps. */
  lemma RollingWindowHoldsLatest(pool: seq<DailyRow>)
    ensures var sorted := SortByDate(pool);
      var start := |pool| - |RollingWindow(pool).daily|;
      forall i, j | 0 <= i < start <= j < |pool| :: LexLe(sorted[i].date, sorted[j].date)
  {
    var sorted := SortByDate(pool);
    var start := |pool| - |RollingWindow(pool).daily|;
    forall i, j | 0 <= i < start <= j < |pool|
      ensures LexLe(sorted[i].date, sorted[j].date)
    {
      SortedPairwise(sorted, i, j);
    }
  }

  /** With at most 30 rows in the pool, the window holds every one of them and
      its total is the rounded exact sum of them all, in whatever order. */
  lemma RollingWindowCoversSmallPool(pool: seq<DailyRow>)
    requires |pool| <= 30
    ensures var w := RollingWindow(pool);
      multiset(w.daily) == multiset(pool) && RoundsTo(SumTotals(pool), w.totalGB)
  {
    var w := RollingWindow(pool);
    assert w.daily == SortByDate(pool);
    SumTotalsPermutation(w.daily, pool);
  }

  // ---------------------------------------------------------------------
  // The dashboard
  // ---------------------------------------------------------------------

  /** `apiJson.content?.results?.[0]`, `None` when missing or null. */
  function FirstResult(resp: ApiResponse): (item: Option<ApiResultItem>)
    ensures item.None? <==>
      resp.content.None? || resp.content.value.results.None? ||
      |resp.content.value.results.value| == 0 || resp.content.value.results.value[0].None?
    ensures item.Some? ==> Some(item.value) == resp.content.value.results.value[0]
  {
    if resp.content.Some? && resp.content.value.results.Some? && |resp.content.value.results.value| > 0
    then resp.content.value.results.value[0]
    else None
  }

  /** `item.billingCycles ?? []` */
  function CyclesOf(item: ApiResultItem): (cycles: seq<ApiBillingCycle>)
    ensures item.billingCycles.None? ==> cycles == []
    ensures item.billingCycles.Some? ==> cycles == item.billingCycles.value
  {
    if item.billingCycles.Some? then item.billingCycles.value else []
  }

  /** `cyclesRaw.map(buildCycleSummary)` */
  function Summaries(cycles: seq<ApiBillingCycle>): (r: seq<CycleSummary>)
    ensures |r| == |cycles|
    ensures forall i | 0 <= i < |cycles| :: r[i] == BuildCycleSummary(cycles[i])
  {
    seq(|cycles|, i requires 0 <= i < |cycles| => BuildCycleSummary(cycles[i]))
  }

  /** Every daily row of every cycle, in upstream order. */
  function Pool(cycles: seq<ApiBillingCycle>): seq<DailyRow> {
    AllDaily(Summaries(cycles))
  }

  /** The start and end date of each cycle, in upstream order. */
  function CycleRanges(cycles: seq<ApiBillingCycle>): (r: seq<CycleRange>)
    ensures |r| == |cycles|
    ensures forall i | 0 <= i < |cycles| :: r[i] == CycleRange(cycles[i].startDate, cycles[i].endDate)
  {
    var summaries := Summaries(cycles);
    seq(|summaries|, i requires 0 <= i < |summaries| => CycleRange(summaries[i].startDate, summaries[i].endDate))
  }

  /** `currentCycle` and `previousCycle`: the summary at `currentIdx` and the
      one just before it by position. */
  function CurrentAndPrevious(cycles: seq<ApiBillingCycle>, now: int, parse: string -> Option<int>)
    : (r: (Option<CycleSummary>, Option<CycleSummary>))
    ensures r.0.None? <==> forall i | 0 <= i < |cycles| :: !Contains(cycles[i], now, parse)
    ensures r.0.None? ==> r.1.None?
  {
    var summaries := Summaries(cycles);
    var currentIdx := CurrentIndex(cycles, now, parse);
    CurrentIndexIsFirstContaining(cycles, now, parse);
    (if currentIdx >= 0 then Some(summaries[currentIdx]) else None,
     if currentIdx > 0 then Some(summaries[currentIdx - 1]) else None)
  }

  /** When cycle `k` is the first to contain `now`, the pair is its summary
      and that of the cycle just before it, if any. */
  lemma CurrentAndPreviousAt(cycles: seq<ApiBillingCycle>, now: int, parse: string -> Option<int>, k: int)
    requires IsFirstContaining(cycles, k, now, parse)
    ensures var r := CurrentAndPrevious(cycles, now, parse);
      r.0 == Some(BuildCycleSummary(cycles[k])) &&
      r.1 == (if k > 0 then Some(BuildCycleSummary(cycles[k - 1])) else None)
  {
    CurrentIndexIsFirstContaining(cycles, now, parse);
    var idx := CurrentIndex(cycles, now, parse);
    assert idx != -1 && IsFirstContaining(cycles, idx, now, parse);
    assert idx == k;
  }

  function BuildDashboardFromResponse(resp: ApiResponse, now: int, parse: string -> Option<int>): (r: Result<Dashboard, string>)
    ensures r.Err? <==> FirstResult(resp).None?
    ensures r.Ok? ==>
      var item := FirstResult(resp).value;
      r.value.serviceLineNumber == item.serviceLineNumber &&
      r.value.accountNumber == item.accountNumber &&
      r.value.lastUpdated == item.lastUpdated &&
      r.value.cycles == CycleRanges(CyclesOf(item)) &&
      r.value.last30Days == RollingWindow(Pool(CyclesOf(item))) &&
      (r.value.currentCycle, r.value.previousCycle) == CurrentAndPrevious(CyclesOf(item), now, parse)
  {
    match FirstResult(resp)
    case None => Err("No results[0] in response")
    case Some(item) =>
      var cyclesRaw := CyclesOf(item);
      var summaries := Summaries(cyclesRaw);
      var (currentCycle, previousCycle) := CurrentAndPrevious(cyclesRaw, now, parse);
      Ok(Dashboard(
        item.serviceLineNumber,
        item.accountNumber,
        item.lastUpdated,
        currentCycle,
        previousCycle,
        RollingWindow(AllDaily(summaries)),
        CycleRanges(cyclesRaw)))
  }
}
