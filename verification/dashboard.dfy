/**
 * The dashboard's aggregation of the reading log (newest first): the
 * latest reading, the mean of each property over the whole log, the
 * chronological chart series, and the gating of the trend chart and the
 * recent-readings list.
 */
module Dashboard {
  import opened SoilData
  import opened Sequences

  /** One chart point: its 1-based chronological position and the three values. */
  datatype ChartPoint = ChartPoint(
    reading: nat,
    date: string,
    nitrogen: real,
    ph: real,
    moisture: real)

  /** Unrounded means of the three properties. */
  datatype Averages = Averages(nitrogen: real, ph: real, moisture: real)

  /** What the dashboard shows: nothing for an empty log, else the aggregates. */
  datatype Summary =
    | NoData
    | Summary(
        latest: SoilReading,
        averages: Averages,
        chart: seq<ChartPoint>,
        showTrend: bool,
        recent: seq<SoilReading>)

  /** The most recent readings the list shows. */
  const RecentCount: nat := 5

  function Point(index: nat, s: SoilReading): ChartPoint
  {
    ChartPoint(index, s.date, s.nitrogen, s.ph, s.moisture)
  }

  /** The chart series: the log reversed, numbered from 1. */
  function ChartData(log: seq<SoilReading>): (c: seq<ChartPoint>)
    ensures |c| == |log|
    ensures forall i | 0 <= i < |c| :: c[i] == Point(i + 1, log[|log| - 1 - i])
  {
    var chronological := Reverse(log);
    seq(|chronological|, i requires 0 <= i < |chronological| => Point(i + 1, chronological[i]))
  }

  /** The sum of property `p` over `log`, folded from the front as `reduce` does. */
  function Sum(log: seq<SoilReading>, p: Property): real
  {
    if |log| == 0 then 0.0 else Sum(log[..|log| - 1], p) + Value(log[|log| - 1], p)
  }

  /** The unrounded arithmetic mean of property `p` over a non-empty log. */
  function Mean(log: seq<SoilReading>, p: Property): (m: real)
    requires |log| > 0
    ensures m * (|log| as real) == Sum(log, p)
  {
    Sum(log, p) / (|log| as real)
  }

  /** The `reduce` loop of the averages, accumulating from index 0. */
  method Total(log: seq<SoilReading>, p: Property) returns (sum: real)
    ensures sum == Sum(log, p)
  {
    sum := 0.0;
    var i := 0;
    while i < |log|
      invariant 0 <= i <= |log|
      invariant sum == Sum(log[..i], p)
    {
      assert log[..i + 1][..i] == log[..i];
      sum := sum + Value(log[i], p);
      i := i + 1;
    }
    assert log[..|log|] == log;
  }

  /** The smallest value of property `p` in a non-empty log. */
  function MinValue(log: seq<SoilReading>, p: Property): (r: real)
    requires |log| > 0
    ensures exists i | 0 <= i < |log| :: r == Value(log[i], p)
    ensures forall i | 0 <= i < |log| :: r <= Value(log[i], p)
  {
    if |log| == 1 then Value(log[0], p)
    else
      var rest := MinValue(log[1..], p);
      assert forall i | 1 <= i < |log| :: log[i] == log[1..][i - 1];
      if Value(log[0], p) <= rest then Value(log[0], p) else rest
  }

  /** The largest value of property `p` in a non-empty log. */
  function MaxValue(log: seq<SoilReading>, p: Property): (r: real)
    requires |log| > 0
    ensures exists i | 0 <= i < |log| :: r == Value(log[i], p)
    ensures forall i | 0 <= i < |log| :: Value(log[i], p) <= r
  {
    if |log| == 1 then Value(log[0], p)
    else
      var rest := MaxValue(log[1..], p);
      assert forall i | 1 <= i < |log| :: log[i] == log[1..][i - 1];
      if rest <= Value(log[0], p) then Value(log[0], p) else rest
  }

  /** Bounds on every value bound the sum by the same bounds times the length. */
  lemma {:induction false} SumBounds(log: seq<SoilReading>, p: Property, lo: real, hi: real)
    requires forall i | 0 <= i < |log| :: lo <= Value(log[i], p) <= hi
    ensures lo * (|log| as real) <= Sum(log, p) <= hi * (|log| as real)
    decreases |log|
  {
    if |log| > 0 {
      var init := log[..|log| - 1];
      assert forall i | 0 <= i < |init| :: init[i] == log[i];
      SumBounds(init, p, lo, hi);
      var k := |init| as real;
      assert (|log| as real) == k + 1.0;
      assert lo * (k + 1.0) == lo * k + lo;
      assert hi * (k + 1.0) == hi * k + hi;
    }
  }

  /** Dividing bounds of the form `lo * n <= sum <= hi * n` by a positive `n`. */
  lemma QuotientBounds(sum: real, n: real, lo: real, hi: real)
    requires n > 0.0
    requires lo * n <= sum <= hi * n
    ensures lo <= sum / n <= hi
  {
    var q := sum / n;
    assert q * n == sum;
  }

  /** Bounds on every value of a non-empty log bound its mean. */
  lemma MeanBounds(log: seq<SoilReading>, p: Property, lo: real, hi: real)
    requires |log| > 0
    requires forall i | 0 <= i < |log| :: lo <= Value(log[i], p) <= hi
    ensures lo <= Mean(log, p) <= hi
  {
    SumBounds(log, p, lo, hi);
    QuotientBounds(Sum(log, p), |log| as real, lo, hi);
  }

  /** Each mean lies between that property's minimum and maximum over the log. */
  lemma MeanBetweenMinAndMax(log: seq<SoilReading>, p: Property)
    requires |log| > 0
    ensures MinValue(log, p) <= Mean(log, p) <= MaxValue(log, p)
  {
    var lo, hi := MinValue(log, p), MaxValue(log, p);
    assert forall i | 0 <= i < |log| :: lo <= Value(log[i], p) <= hi;
    MeanBounds(log, p, lo, hi);
  }

  /** The dashboard's view of the log. */
  function Summarize(log: seq<SoilReading>): (r: Summary)
    ensures r.NoData? <==> |log| == 0
    ensures r.Summary? ==>
      && r.latest == log[0]
      && r.averages == Averages(Mean(log, Nitrogen), Mean(log, Ph), Mean(log, Moisture))
      && |r.chart| == |log|
  {
    if |log| == 0 then NoData
    else
      Summary(
        log[0],
        Averages(Mean(log, Nitrogen), Mean(log, Ph), Mean(log, Moisture)),
        ChartData(log),
        |log| > 1,
        Take(log, RecentCount))
  }

  /** The trend chart is shown only when there is more than one reading. */
  lemma TrendChartGating(log: seq<SoilReading>)
    ensures Summarize(log).Summary? ==> (Summarize(log).showTrend <==> |log| > 1)
    ensures |log| == 1 ==> !Summarize(log).showTrend && |Summarize(log).chart| == 1
  {
  }

  /** The recent-readings list is the first five log entries (fewer if the log is shorter), newest first. */
  lemma RecentReadingsList(log: seq<SoilReading>)
    requires |log| > 0
    ensures var recent := Summarize(log).recent;
      && |recent| == (if |log| < RecentCount then |log| else RecentCount)
      && recent[0] == log[0]
      && forall i | 0 <= i < |recent| :: recent[i] == log[i]
  {
  }

  /** The chart runs from the oldest reading (first) to the newest (last). */
  lemma ChartOldestFirst(log: seq<SoilReading>)
    requires |log| > 0
    ensures var c := ChartData(log);
      && c[0] == Point(1, log[|log| - 1])
      && c[|c| - 1] == Point(|log|, log[0])
  {
  }

  /** The chart is the reversed log, numbered 1, 2, ... in chronological order. */
  lemma ChartIsReversedLog(log: seq<SoilReading>)
    ensures forall i | 0 <= i < |log| :: ChartData(log)[i] == Point(i + 1, Reverse(log)[i])
    ensures forall i | 0 <= i < |log| :: ChartData(log)[i].reading == i + 1
  {
  }

  /** Two readings with nitrogen 2.0 and 4.0 average to 3.0. */
  lemma MeanExample(a: SoilReading, b: SoilReading)
    requires a.nitrogen == 2.0 && b.nitrogen == 4.0
    ensures Mean([b, a], Nitrogen) == 3.0
  {
    var log := [b, a];
    assert log[..1] == [b] && [b][..0] == [];
    assert Sum([b], Nitrogen) == 4.0;
    assert Sum(log, Nitrogen) == 6.0;
  }
}
