/** The `trends` memo of apps/dashboard/src/App.tsx and the labels the
    dashboard shows for it: the average of the newest five snapshots against
    the average of the (up to) five before them, for cpu and for memory. */
module Trends {
  import opened Telemetry

  datatype Trend = Up | Down | Neutral

  datatype TrendPair = TrendPair(cpu: Trend, memory: Trend)

  /** The two series a trend is computed for. */
  datatype Series = Cpu | Memory

  function Value(m: Metrics, s: Series): real {
    match s
    case Cpu => m.cpu
    case Memory => m.memory
  }

  function TrendOf(p: TrendPair, s: Series): Trend {
    match s
    case Cpu => p.cpu
    case Memory => p.memory
  }

  function Max(a: int, b: int): int {
    if a >= b then a else b
  }

  /** How `Array.prototype.slice` resolves one bound: a negative bound
      counts from the end, and either kind is clipped to [0, len]. */
  function SliceIndex(i: int, len: nat): (k: nat)
    ensures k <= len
    ensures i >= 0 ==> k == Min(i, len)
    ensures i < 0 ==> k == Max(len + i, 0)
  {
    if i < 0 then (if len + i < 0 then 0 else len + i)
    else if i < len then i else len
  }

  /** `s.slice(begin, end)`. */
  function Slice<T>(s: seq<T>, begin: int, end: int): (r: seq<T>)
    ensures |r| == Max(SliceIndex(end, |s|) - SliceIndex(begin, |s|), 0)
    ensures forall i :: 0 <= i < |r| ==> r[i] == s[SliceIndex(begin, |s|) + i]
  {
    var b, e := SliceIndex(begin, |s|), SliceIndex(end, |s|);
    if b < e then s[b..e] else []
  }

  /** `history.slice(-5)`: the newest five. */
  function Recent(h: seq<Metrics>): (r: seq<Metrics>)
    ensures r == LastN(h, 5)
  {
    Slice(h, -5, |h|)
  }

  /** `history.slice(-10, -5)`: the up to five before the newest five. */
  function Older(h: seq<Metrics>): (r: seq<Metrics>)
    ensures |h| <= 5 ==> r == []
    ensures |h| > 5 ==> r == h[Max(|h| - 10, 0)..|h| - 5]
  {
    Slice(h, -10, -5)
  }

  /** The smallest value of the series over a non-empty history. */
  function MinValue(s: seq<Metrics>, series: Series): (r: real)
    requires |s| > 0
    ensures forall i :: 0 <= i < |s| ==> r <= Value(s[i], series)
  {
    if |s| == 1 then Value(s[0], series)
    else
      var p := s[..|s| - 1];
      var rest, last := MinValue(p, series), Value(s[|s| - 1], series);
      assert forall i :: 0 <= i < |p| ==> p[i] == s[i];
      if last < rest then last else rest
  }

  /** The largest value of the series over a non-empty history. */
  function MaxValue(s: seq<Metrics>, series: Series): (r: real)
    requires |s| > 0
    ensures forall i :: 0 <= i < |s| ==> Value(s[i], series) <= r
  {
    if |s| == 1 then Value(s[0], series)
    else
      var p := s[..|s| - 1];
      var rest, last := MaxValue(p, series), Value(s[|s| - 1], series);
      assert forall i :: 0 <= i < |p| ==> p[i] == s[i];
      if last > rest then last else rest
  }

  /** n copies of x added up: n * x without a product. */
  function Times(n: nat, x: real): (r: real)
    ensures r == n as real * x
  {
    if n == 0 then 0.0 else Times(n - 1, x) + x
  }

  lemma {:induction false} TimesMono(n: nat, a: real, b: real)
    requires a <= b
    ensures Times(n, a) <= Times(n, b)
  {
    if n > 0 {
      TimesMono(n - 1, a, b);
    }
  }

  /** `s.reduce((a, b) => a + b.<series>, 0)`, summed from the left. */
  function Sum(s: seq<Metrics>, series: Series): (r: real)
    ensures s != [] ==> Times(|s|, MinValue(s, series)) <= r <= Times(|s|, MaxValue(s, series))
  {
    if s == [] then 0.0
    else
      var p := s[..|s| - 1];
      var v := Value(s[|s| - 1], series);
      if p == [] then v
      else
        TimesMono(|p|, MinValue(s, series), MinValue(p, series));
        TimesMono(|p|, MaxValue(p, series), MaxValue(s, series));
        Sum(p, series) + v
  }

  /** Both extremes are values the series actually takes. */
  lemma {:induction false} ExtremesAttained(s: seq<Metrics>, series: Series)
    requires |s| > 0
    ensures exists i :: 0 <= i < |s| && MinValue(s, series) == Value(s[i], series)
    ensures exists i :: 0 <= i < |s| && MaxValue(s, series) == Value(s[i], series)
  {
    if |s| == 1 {
      assert MinValue(s, series) == Value(s[0], series) == MaxValue(s, series);
    } else {
      var p, last := s[..|s| - 1], |s| - 1;
      ExtremesAttained(p, series);
      var i :| 0 <= i < |p| && MinValue(p, series) == Value(p[i], series);
      var j :| 0 <= j < |p| && MaxValue(p, series) == Value(p[j], series);
      assert p[i] == s[i] && p[j] == s[j];
      var lo := if MinValue(s, series) == MinValue(p, series) then i else last;
      var hi := if MaxValue(s, series) == MaxValue(p, series) then j else last;
      assert MinValue(s, series) == Value(s[lo], series);
      assert MaxValue(s, series) == Value(s[hi], series);
    }
  }

  /** Dividing a sum of n terms that lies in [n * lo, n * hi] by n. */
  lemma DivBounds(x: real, n: nat, lo: real, hi: real)
    requires n > 0 && Times(n, lo) <= x <= Times(n, hi)
    ensures lo <= x / n as real <= hi
  {
  }

  /** `sum / length`: the mean of a non-empty window. */
  function Average(s: seq<Metrics>, series: Series): (r: real)
    requires |s| > 0
    ensures MinValue(s, series) <= r <= MaxValue(s, series)
  {
    DivBounds(Sum(s, series), |s|, MinValue(s, series), MaxValue(s, series));
    Sum(s, series) / |s| as real
  }

  /** The nested ternary: more than 2 points above is up, more than 2 below is down. */
  function Classify(recent: real, older: real): (t: Trend)
    ensures t == Up <==> recent > older + 2.0
    ensures t == Down <==> recent < older - 2.0
    ensures t == Neutral <==> older - 2.0 <= recent <= older + 2.0
  {
    if recent > older + 2.0 then Up else if recent < older - 2.0 then Down else Neutral
  }

  /** The `trends` memo. */
  function ComputeTrends(history: seq<Metrics>): (r: TrendPair)
    ensures |history| <= 5 ==> r == TrendPair(Neutral, Neutral)
  {
    if |history| < 2 then TrendPair(Neutral, Neutral)
    else
      var recent, older := Recent(history), Older(history);
      if |recent| == 0 || |older| == 0 then TrendPair(Neutral, Neutral)
      else TrendPair(Classify(Average(recent, Cpu), Average(older, Cpu)),
                     Classify(Average(recent, Memory), Average(older, Memory)))
  }

  /** With more than five snapshots each series follows the ±2 rule on the
      newest five against the up to five before them. */
  lemma TrendRule(h: seq<Metrics>, s: Series)
    requires |h| > 5
    ensures var recent, older := h[|h| - 5..], h[Max(|h| - 10, 0)..|h| - 5];
      var t := TrendOf(ComputeTrends(h), s);
      (t == Up <==> Average(recent, s) > Average(older, s) + 2.0) &&
      (t == Down <==> Average(recent, s) < Average(older, s) - 2.0) &&
      (t == Neutral <==> Average(older, s) - 2.0 <= Average(recent, s) <= Average(older, s) + 2.0)
  {
    assert Recent(h) == h[|h| - 5..];
  }

  /** Only the newest ten snapshots matter. */
  lemma DependsOnLastTen(h: seq<Metrics>)
    ensures ComputeTrends(h) == ComputeTrends(LastN(h, 10))
  {
    if |h| > 10 {
      var t := LastN(h, 10);
      assert t == h[|h| - 10..];
      assert Recent(t) == t[5..] == h[|h| - 5..] == Recent(h);
      assert Older(t) == t[..5] == h[|h| - 10..|h| - 5] == Older(h);
    }
  }

  /** Sums of a series agree on histories that agree on that series. */
  lemma {:induction false} SumDependsOnSeries(a: seq<Metrics>, b: seq<Metrics>, s: Series)
    requires |a| == |b|
    requires forall i :: 0 <= i < |a| ==> Value(a[i], s) == Value(b[i], s)
    ensures Sum(a, s) == Sum(b, s)
  {
    if a != [] {
      SumDependsOnSeries(a[..|a| - 1], b[..|b| - 1], s);
    }
  }

  /** The cpu trend reads only cpu values and the memory trend only memory
      values: changing one series never changes the other's trend. */
  lemma SeriesIndependent(a: seq<Metrics>, b: seq<Metrics>, s: Series)
    requires |a| == |b|
    requires forall i :: 0 <= i < |a| ==> Value(a[i], s) == Value(b[i], s)
    ensures TrendOf(ComputeTrends(a), s) == TrendOf(ComputeTrends(b), s)
  {
    if |a| > 5 {
      var n := |a|;
      SumDependsOnSeries(a[n - 5..], b[n - 5..], s);
      SumDependsOnSeries(a[Max(n - 10, 0)..n - 5], b[Max(n - 10, 0)..n - 5], s);
      TrendRule(a, s);
      TrendRule(b, s);
    }
  }

  /** The `trendValue` label of a stat card. */
  function Label(t: Trend): (l: string)
    ensures t == Up <==> l == "Increasing"
    ensures t == Down <==> l == "Decreasing"
    ensures t == Neutral <==> l == "Stable"
  {
    assert "Increasing"[0] != "Decreasing"[0];
    assert |"Stable"| != |"Increasing"| == |"Decreasing"|;
    match t
    case Up => "Increasing"
    case Down => "Decreasing"
    case Neutral => "Stable"
  }
}
