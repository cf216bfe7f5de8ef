/** The chart cards (frontend/components/charts-section.tsx): the last-12
    window plotted by the three line charts, the per-channel averages of the
    bar chart, and which of skeleton, "No data available" or chart each card
    shows. Readings are exact reals: the two-decimal rounding and the
    time-of-day formatting of the timestamp are not modelled. */
module ChartsSection {
  import opened Common

  /** How many of the most recent metrics the line charts plot. */
  const WINDOW := 12

  datatype Channel = Cpu | Memory | Network

  /** One point of the line charts. */
  datatype Point = Point(time: string, cpu: real, memory: real, network: real)

  /** One bar of the average chart. */
  datatype Bar = Bar(name: string, value: real)

  /** What a card shows. */
  datatype Panel = Skeleton | NoData | Chart

  function Reading(m: Metric, c: Channel): real {
    match c
    case Cpu => m.cpuUsage
    case Memory => m.memoryUsage
    case Network => m.networkTraffic
  }

  function ToPoint(m: Metric): Point {
    Point(m.timestamp, m.cpuUsage, m.memoryUsage, m.networkTraffic)
  }

  /** `metrics.slice(-12)`: the whole array when it is shorter. */
  function LastWindow(ms: seq<Metric>): (r: seq<Metric>)
    ensures |r| == Min(WINDOW, |ms|)
    ensures ms == ms[..|ms| - |r|] + r
  {
    if |ms| <= WINDOW then ms else ms[|ms| - WINDOW..]
  }

  /** `chartData`: the window mapped point by point, order kept. */
  function ChartData(ms: seq<Metric>): (r: seq<Point>)
    ensures |r| == Min(WINDOW, |ms|)
    ensures forall i :: 0 <= i < |r| ==> r[i] == ToPoint(ms[|ms| - |r| + i])
    ensures r == [] <==> ms == []
  {
    var w := LastWindow(ms);
    seq(|w|, i requires 0 <= i < |w| => ToPoint(w[i]))
  }

  function Sum(ms: seq<Metric>, c: Channel): real
    decreases |ms|
  {
    if ms == [] then 0.0 else Sum(ms[..|ms| - 1], c) + Reading(ms[|ms| - 1], c)
  }

  /** The mean of one channel, 0 for no metrics (`avgMetrics`). */
  function Average(ms: seq<Metric>, c: Channel): real {
    if |ms| > 0 then Sum(ms, c) / (|ms| as real) else 0.0
  }

  /** Readings all at least `lo` sum to at least `|ms|` times `lo`. */
  lemma {:induction false} SumAtLeast(ms: seq<Metric>, c: Channel, lo: real)
    requires forall i :: 0 <= i < |ms| ==> lo <= Reading(ms[i], c)
    ensures (|ms| as real) * lo <= Sum(ms, c)
    decreases |ms|
  {
    if ms != [] {
      var init := ms[..|ms| - 1];
      SumAtLeast(init, c, lo);
      var k := |init| as real;
      assert (k + 1.0) * lo == k * lo + lo;
    }
  }

  /** Readings all at most `hi` sum to at most `|ms|` times `hi`. */
  lemma {:induction false} SumAtMost(ms: seq<Metric>, c: Channel, hi: real)
    requires forall i :: 0 <= i < |ms| ==> Reading(ms[i], c) <= hi
    ensures Sum(ms, c) <= (|ms| as real) * hi
    decreases |ms|
  {
    if ms != [] {
      var init := ms[..|ms| - 1];
      SumAtMost(init, c, hi);
      var k := |init| as real;
      assert (k + 1.0) * hi == k * hi + hi;
    }
  }

  /** Each average lies between the smallest and the largest reading. */
  lemma AverageWithinBounds(ms: seq<Metric>, c: Channel, lo: real, hi: real)
    requires ms != []
    requires forall i :: 0 <= i < |ms| ==> lo <= Reading(ms[i], c) <= hi
    ensures lo <= Average(ms, c) <= hi
  {
    SumAtLeast(ms, c, lo);
    SumAtMost(ms, c, hi);
    var n := |ms| as real;
    assert Sum(ms, c) / n >= lo by {
      assert Sum(ms, c) >= n * lo;
    }
    assert Sum(ms, c) / n <= hi by {
      assert Sum(ms, c) <= n * hi;
    }
  }

  /** `averageData`: CPU, Memory, Network, in that order, all 0 for no
      metrics. */
  function AverageData(ms: seq<Metric>): (r: seq<Bar>)
    ensures |r| == 3
    ensures r[0].name == "CPU" && r[1].name == "Memory" && r[2].name == "Network"
    ensures ms == [] ==> r[0].value == 0.0 && r[1].value == 0.0 && r[2].value == 0.0
    ensures r[0].value == Average(ms, Cpu) && r[1].value == Average(ms, Memory) && r[2].value == Average(ms, Network)
  {
    [Bar("CPU", Average(ms, Cpu)), Bar("Memory", Average(ms, Memory)), Bar("Network", Average(ms, Network))]
  }

  /** A line-chart card: skeleton while loading, then a chart iff there are
      points to plot. */
  function LinePanel(loading: bool, ms: seq<Metric>): (p: Panel)
    ensures p == Skeleton <==> loading
    ensures p == NoData <==> !loading && ms == []
    ensures p == Chart <==> !loading && ms != []
  {
    if loading then Skeleton else if |ChartData(ms)| > 0 then Chart else NoData
  }

  /** The average card tests `metrics.length` rather than the window. */
  function AveragePanel(loading: bool, ms: seq<Metric>): (p: Panel)
    ensures p == Skeleton <==> loading
    ensures p == NoData <==> !loading && ms == []
  {
    if loading then Skeleton else if |ms| > 0 then Chart else NoData
  }

  /** The two different emptiness tests never disagree: all four cards show
      the same branch. */
  lemma PanelsAgree(loading: bool, ms: seq<Metric>)
    ensures LinePanel(loading, ms) == AveragePanel(loading, ms)
  {
  }
}
