/** The statistics engine: per-cycle lengths and gaps, their averages and
    spreads, the irregularity warning, and the chart series. */
module Statistics {

  import opened Wrappers
  import opened Days
  import opened Records

  /** `xs.reduce((a, b) => a + b, 0)`. */
  function Sum(xs: seq<int>): (r: int)
    ensures |xs| == 1 ==> r == xs[0]
    ensures (forall i :: 0 <= i < |xs| ==> xs[i] >= 0) ==> r >= 0
  {
    if xs == [] then 0 else xs[0] + Sum(xs[1..])
  }

  /** `Math.max(...xs)` of a non-empty list: an element no smaller than any other. */
  function Max(xs: seq<int>): (m: int)
    requires |xs| > 0
    ensures forall i :: 0 <= i < |xs| ==> xs[i] <= m
    ensures exists i :: 0 <= i < |xs| && xs[i] == m
  {
    if |xs| == 1 then xs[0]
    else
      var rest := Max(xs[1..]);
      assert forall i :: 1 <= i < |xs| ==> xs[i] == xs[1..][i - 1];
      if xs[0] >= rest then xs[0] else rest
  }

  /** `Math.min(...xs)` of a non-empty list: an element no larger than any other. */
  function Min(xs: seq<int>): (m: int)
    requires |xs| > 0
    ensures forall i :: 0 <= i < |xs| ==> m <= xs[i]
    ensures exists i :: 0 <= i < |xs| && xs[i] == m
  {
    if |xs| == 1 then xs[0]
    else
      var rest := Min(xs[1..]);
      assert forall i :: 1 <= i < |xs| ==> xs[i] == xs[1..][i - 1];
      if xs[0] <= rest then xs[0] else rest
  }

  /** `cycles.map(c => c.length)`. */
  function Lengths(cs: seq<Cycle>): (ls: seq<int>)
    ensures |ls| == |cs|
    ensures forall i :: 0 <= i < |cs| ==> ls[i] == cs[i].data.length
  {
    seq(|cs|, i requires 0 <= i < |cs| => cs[i].data.length)
  }

  /** The gap before cycle `i + 1`: `calculateDaysBetweenCycles` from the end
      of cycle `i` to the start of cycle `i + 1`. */
  function GapAfter(cs: seq<Cycle>, i: nat): int
    requires i + 1 < |cs|
  {
    DaysBetween(cs[i].data.endDate, cs[i + 1].data.startDate)
  }

  /** `cycles.slice(1).map((c, i) => calculateDaysBetweenCycles(cycles[i].endDate, c.startDate))`. */
  function Intervals(cs: seq<Cycle>): (gs: seq<int>)
    ensures |gs| == if cs == [] then 0 else |cs| - 1
    ensures forall i :: 0 <= i < |gs| ==> gs[i] == cs[i + 1].data.startDate - cs[i].data.endDate - 1
  {
    if |cs| <= 1 then []
    else seq(|cs| - 1, i requires 0 <= i < |cs| - 1 => GapAfter(cs, i))
  }

  /** An average kept exact, as a total and a count; with no values it is 0,
      as `avgInterval` is when there are no intervals. */
  datatype Mean = Mean(total: int, count: nat) {
    function Value(): real {
      if count == 0 then 0.0 else total as real / count as real
    }
  }

  /** The `stats` object before its averages are rounded to one decimal. */
  datatype Stats = Stats(
    avgLength: Mean,
    avgInterval: Mean,
    lengthVariation: int,
    intervalVariation: int,
    totalCycles: nat)

  /** `stats`: nothing for an empty collection; otherwise averages over the
      n lengths and the n - 1 intervals, the spreads (largest minus
      smallest, 0 without intervals) and the count. */
  function ComputeStats(cs: seq<Cycle>): (r: Option<Stats>)
    ensures r.None? <==> cs == []
    ensures r.Some? ==>
      && r.value.totalCycles == |cs|
      && r.value.avgLength.count == |cs|
      && r.value.avgInterval.count == |cs| - 1
      && r.value.avgLength == Mean(Sum(Lengths(cs)), |cs|)
      && r.value.avgInterval == Mean(Sum(Intervals(cs)), |cs| - 1)
      && r.value.lengthVariation >= 0
      && r.value.intervalVariation >= 0
  {
    if |cs| == 0 then None
    else
      var lengths := Lengths(cs);
      var intervals := Intervals(cs);
      var minL, maxL := Min(lengths), Max(lengths);
      assert minL <= lengths[0] <= maxL;
      Some(Stats(
        Mean(Sum(lengths), |lengths|),
        Mean(Sum(intervals), |intervals|),
        maxL - minL,
        if |intervals| > 0 then
          var minI, maxI := Min(intervals), Max(intervals);
          assert minI <= intervals[0] <= maxI;
          maxI - minI
        else 0,
        |cs|))
  }

  /** The irregularity warning: shown when there are statistics and the
      lengths spread over more than 7 days or the intervals over more than 10. */
  predicate IsIrregular(stats: Option<Stats>): (r: bool)
    ensures r ==> stats.Some?
  {
    stats.Some? && (stats.value.lengthVariation > 7 || stats.value.intervalVariation > 10)
  }

  /** With a single cycle there is no interval: the average interval and its
      spread are 0, and the average length is that cycle's length. */
  lemma SingleCycleStats(c: Cycle)
    ensures var st := ComputeStats([c]).value;
      && st.avgInterval.Value() == 0.0
      && st.intervalVariation == 0
      && st.lengthVariation == 0
      && st.avgLength.Value() == c.data.length as real
      && st.totalCycles == 1
  {
    assert Lengths([c]) == [c.data.length];
    assert Sum([c.data.length]) == c.data.length + Sum([]);
  }

  /** Each spread is the largest difference between two of its values. */
  lemma {:induction false} SpreadIsLargestDifference(xs: seq<int>, bound: int)
    requires |xs| > 0
    ensures Max(xs) - Min(xs) > bound <==>
      exists i, j :: 0 <= i < |xs| && 0 <= j < |xs| && xs[i] - xs[j] > bound
  {
    var hi :| 0 <= hi < |xs| && xs[hi] == Max(xs);
    var lo :| 0 <= lo < |xs| && xs[lo] == Min(xs);
    if Max(xs) - Min(xs) > bound {
      assert xs[hi] - xs[lo] > bound;
    }
  }

  /** Two cycles whose lengths differ by more than `bound` days. */
  predicate LengthsDifferBy(cs: seq<Cycle>, bound: int) {
    exists i, j :: 0 <= i < |cs| && 0 <= j < |cs| && cs[i].data.length - cs[j].data.length > bound
  }

  /** Two intervals that differ by more than `bound` days. */
  predicate GapsDifferBy(cs: seq<Cycle>, bound: int) {
    exists i, j :: 0 <= i < |cs| - 1 && 0 <= j < |cs| - 1 && GapAfter(cs, i) - GapAfter(cs, j) > bound
  }

  lemma LengthSpread(cs: seq<Cycle>, bound: int)
    requires cs != []
    ensures ComputeStats(cs).value.lengthVariation > bound <==> LengthsDifferBy(cs, bound)
  {
    var lengths := Lengths(cs);
    SpreadIsLargestDifference(lengths, bound);
    if LengthsDifferBy(cs, bound) {
      var i, j :| 0 <= i < |cs| && 0 <= j < |cs| && cs[i].data.length - cs[j].data.length > bound;
      assert lengths[i] - lengths[j] > bound;
    }
  }

  /** The interval variation is the spread of the intervals, 0 without any. */
  lemma IntervalVariationIsSpread(cs: seq<Cycle>)
    requires cs != []
    ensures var intervals := Intervals(cs);
      ComputeStats(cs).value.intervalVariation == if |intervals| > 0 then Max(intervals) - Min(intervals) else 0
  {
  }

  /** The spread of the intervals exceeds `bound` iff two intervals differ by more. */
  lemma IntervalSpread(cs: seq<Cycle>, bound: int)
    requires |cs| >= 2
    ensures Max(Intervals(cs)) - Min(Intervals(cs)) > bound <==> GapsDifferBy(cs, bound)
  {
    var intervals := Intervals(cs);
    SpreadIsLargestDifference(intervals, bound);
    if GapsDifferBy(cs, bound) {
      var i, j :| 0 <= i < |cs| - 1 && 0 <= j < |cs| - 1 && GapAfter(cs, i) - GapAfter(cs, j) > bound;
      assert intervals[i] - intervals[j] > bound;
    }
  }

  lemma GapSpread(cs: seq<Cycle>, bound: int)
    requires cs != [] && bound >= 0
    ensures ComputeStats(cs).value.intervalVariation > bound <==> GapsDifferBy(cs, bound)
  {
    IntervalVariationIsSpread(cs);
    if |cs| >= 2 {
      IntervalSpread(cs, bound);
    }
  }

  /** The warning is raised exactly when two cycles differ in length by more
      than 7 days or two intervals differ by more than 10 days. */
  lemma IrregularIff(cs: seq<Cycle>)
    ensures IsIrregular(ComputeStats(cs)) <==> LengthsDifferBy(cs, 7) || GapsDifferBy(cs, 10)
  {
    if cs != [] {
      LengthSpread(cs, 7);
      GapSpread(cs, 10);
    }
  }

  /** The total of a list lies between its length times its smallest and
      its length times its largest element. */
  lemma {:induction false} SumBounds(xs: seq<int>, lo: int, hi: int)
    requires forall i :: 0 <= i < |xs| ==> lo <= xs[i] <= hi
    ensures lo * |xs| <= Sum(xs) <= hi * |xs|
    decreases |xs|
  {
    if xs != [] {
      assert forall i :: 0 <= i < |xs| - 1 ==> xs[1..][i] == xs[i + 1];
      SumBounds(xs[1..], lo, hi);
      assert lo * |xs| == lo + lo * (|xs| - 1);
      assert hi * |xs| == hi + hi * (|xs| - 1);
    }
  }

  /** The average length lies between the shortest and the longest cycle. */
  lemma AverageLengthBetweenExtremes(cs: seq<Cycle>)
    requires cs != []
    ensures var st := ComputeStats(cs).value;
      var lengths := Lengths(cs);
      Min(lengths) * |cs| <= st.avgLength.total <= Max(lengths) * |cs|
  {
    SumBounds(Lengths(cs), Min(Lengths(cs)), Max(Lengths(cs)));
  }

  /** The average interval lies between the shortest and the longest
      interval. */
  lemma AverageIntervalBetweenExtremes(cs: seq<Cycle>)
    requires |cs| >= 2
    ensures var st := ComputeStats(cs).value;
      var intervals := Intervals(cs);
      Min(intervals) * (|cs| - 1) <= st.avgInterval.total <= Max(intervals) * (|cs| - 1)
  {
    var intervals := Intervals(cs);
    SumBounds(intervals, Min(intervals), Max(intervals));
  }

  /** One point of the chart series. */
  datatype ChartPoint = ChartPoint(
    number: nat,
    duration: int,
    intervalBefore: Option<int>,
    totalLength: int)

  /** `chartData`, entry `i`: its 1-based number, its length, the gap before
      it (none for the first cycle) and its length plus that gap when the gap
      is a non-zero number. */
  function PointAt(cs: seq<Cycle>, i: nat): (pt: ChartPoint)
    requires i < |cs|
    ensures pt.number == i + 1 && pt.duration == cs[i].data.length
    ensures pt.intervalBefore.None? <==> i == 0
    ensures i > 0 ==> pt.intervalBefore.value == cs[i].data.startDate - cs[i - 1].data.endDate - 1
    ensures pt.totalLength == cs[i].data.length + pt.intervalBefore.GetOr(0)
  {
    var gap := if i > 0 then Some(DaysBetween(cs[i - 1].data.endDate, cs[i].data.startDate)) else None;
    var total := if gap.Some? && gap.value != 0 then cs[i].data.length + gap.value else cs[i].data.length;
    ChartPoint(i + 1, cs[i].data.length, gap, total)
  }

  /** `chartData`: one point per cycle, in collection order. */
  function ChartData(cs: seq<Cycle>): (pts: seq<ChartPoint>)
    ensures |pts| == |cs|
    ensures forall i :: 0 <= i < |cs| ==> pts[i] == PointAt(cs, i)
  {
    seq(|cs|, i requires 0 <= i < |cs| => PointAt(cs, i))
  }

  /** The chart and the statistics use the same gaps, and a point's total
      length is its length plus its gap whether or not the gap is zero. */
  lemma ChartAgreesWithStats(cs: seq<Cycle>, i: nat)
    requires i < |cs|
    ensures var pt := ChartData(cs)[i];
      && pt.number == i + 1
      && (i == 0 ==> pt.intervalBefore == None && pt.totalLength == cs[0].data.length)
      && (i > 0 ==> pt.intervalBefore == Some(Intervals(cs)[i - 1]))
      && (i > 0 ==> pt.totalLength == cs[i].data.length + Intervals(cs)[i - 1])
  {
  }

  /** When a cycle's stored length matches its dates, its chart total is the
      number of days from the end of the previous cycle to its own end. */
  lemma ChartTotalSpansEnds(cs: seq<Cycle>, i: nat)
    requires 0 < i < |cs|
    requires cs[i].data.length == CycleLength(cs[i].data.startDate, cs[i].data.endDate)
    ensures ChartData(cs)[i].totalLength == cs[i].data.endDate - cs[i - 1].data.endDate
  {
  }
}
