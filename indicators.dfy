/**
 * The lightweight indicators of the aggregator: trend, RSI, ATR and the
 * average bar range. They work on real-valued prices; Python's
 * `round(x, k)` is modelled as rounding half up to `k` decimals.
 */
module Indicators {
  import opened Wrappers
  import opened Seqs

  // ---------------------------------------------------------------------
  // Arithmetic helpers
  // ---------------------------------------------------------------------

  function Sum(s: seq<real>): real {
    if s == [] then 0.0 else Sum(s[..|s| - 1]) + s[|s| - 1]
  }

  /** `Series.mean()` of a non-empty series. */
  function Mean(s: seq<real>): real
    requires s != []
  {
    Sum(s) / (|s| as real)
  }

  lemma {:induction false} SumNonNegative(s: seq<real>)
    requires forall i :: 0 <= i < |s| ==> s[i] >= 0.0
    ensures Sum(s) >= 0.0
  {
    if s != [] {
      SumNonNegative(s[..|s| - 1]);
    }
  }

  lemma {:induction false} SumConstant(s: seq<real>, v: real)
    requires forall i :: 0 <= i < |s| ==> s[i] == v
    ensures Sum(s) == (|s| as real) * v
  {
    if s != [] {
      SumConstant(s[..|s| - 1], v);
    }
  }

  lemma MeanNonNegative(s: seq<real>)
    requires s != []
    requires forall i :: 0 <= i < |s| ==> s[i] >= 0.0
    ensures Mean(s) >= 0.0
  {
    SumNonNegative(s);
  }

  lemma {:induction false} SumAtMost(s: seq<real>, hi: real)
    requires forall i :: 0 <= i < |s| ==> s[i] <= hi
    ensures Sum(s) <= (|s| as real) * hi
  {
    if s != [] {
      SumAtMost(s[..|s| - 1], hi);
    }
  }

  lemma {:induction false} SumAtLeast(s: seq<real>, lo: real)
    requires forall i :: 0 <= i < |s| ==> lo <= s[i]
    ensures (|s| as real) * lo <= Sum(s)
  {
    if s != [] {
      SumAtLeast(s[..|s| - 1], lo);
    }
  }

  /** The mean of values between `lo` and `hi` lies between them. */
  lemma MeanBetween(s: seq<real>, lo: real, hi: real)
    requires s != []
    requires forall i :: 0 <= i < |s| ==> lo <= s[i] <= hi
    ensures lo <= Mean(s) <= hi
  {
    SumAtMost(s, hi);
    SumAtLeast(s, lo);
    DivBetween(Sum(s), |s| as real, lo, hi);
  }

  lemma DivBetween(x: real, n: real, lo: real, hi: real)
    requires n > 0.0 && n * lo <= x <= n * hi
    ensures lo <= x / n <= hi
  {
    assert x / n - lo == (x - n * lo) / n;
    assert x / n - hi == (x - n * hi) / n;
  }

  lemma MeanConstant(s: seq<real>, v: real)
    requires s != []
    requires forall i :: 0 <= i < |s| ==> s[i] == v
    ensures Mean(s) == v
  {
    SumConstant(s, v);
  }

  function Pow10(k: nat): (r: nat)
    ensures r >= 1
  {
    if k == 0 then 1 else 10 * Pow10(k - 1)
  }

  /** `round(x, digits)`, rounding half up. */
  function RoundTo(x: real, digits: nat): real {
    var scale := Pow10(digits) as real;
    (x * scale + 0.5).Floor as real / scale
  }

  /** Rounding a non-negative value gives a non-negative value. */
  lemma RoundNonNegative(x: real, digits: nat)
    requires x >= 0.0
    ensures RoundTo(x, digits) >= 0.0
  {
    var scale := Pow10(digits) as real;
    assert x * scale >= 0.0;
    assert (x * scale + 0.5).Floor >= 0;
  }

  /** Rounding to two decimals keeps a percentage between 0 and 100. */
  lemma RoundPercent(x: real)
    requires 0.0 <= x <= 100.0
    ensures 0.0 <= RoundTo(x, 2) <= 100.0
  {
    assert Pow10(2) == 100;
    assert 0.0 <= x * 100.0 <= 10000.0;
    var f := (x * 100.0 + 0.5).Floor;
    assert 0 <= f <= 10000;
  }

  /** `k / n` for a part `k` of a non-empty whole `n`. */
  function Ratio(k: nat, n: nat): (r: real)
    requires 0 < n && k <= n
    ensures 0.0 <= r <= 1.0
    ensures r == 0.0 <==> k == 0
    ensures r == 1.0 <==> k == n
  {
    k as real / n as real
  }

  function MaxReal(a: real, b: real): real { if a >= b then a else b }
  function MinReal(a: real, b: real): real { if a <= b then a else b }
  function AbsReal(x: real): real { if x < 0.0 then -x else x }

  // ---------------------------------------------------------------------
  // Missing values and rolling windows
  // ---------------------------------------------------------------------

  /** `Series.dropna()`: the present values, in order. */
  function Somes<T>(s: seq<Option<T>>): (r: seq<T>)
    ensures |r| <= |s|
    ensures forall v :: v in r ==> Some(v) in s
  {
    if s == [] then []
    else
      var r := Somes(s[..|s| - 1]);
      assert forall o :: o in s[..|s| - 1] ==> o in s;
      r + (if s[|s| - 1].Some? then [s[|s| - 1].value] else [])
  }

  /** When the missing entries are exactly a prefix, `dropna` keeps the rest in order. */
  lemma {:induction false} SomesSuffix<T>(s: seq<Option<T>>, k: nat)
    requires k <= |s|
    requires forall i :: 0 <= i < k ==> s[i].None?
    requires forall i :: k <= i < |s| ==> s[i].Some?
    ensures |Somes(s)| == |s| - k
    ensures forall j :: 0 <= j < |s| - k ==> Somes(s)[j] == s[k + j].value
  {
    if s != [] {
      var p := s[..|s| - 1];
      if k == |s| {
        SomesSuffix(p, k - 1);
      } else {
        SomesSuffix(p, k);
      }
    }
  }

  /**
   * `x.rolling(window, min_periods).mean()` on a series without gaps: the
   * mean of the last `window` values up to each index, missing while fewer
   * than `minPeriods` values are available.
   */
  function RollingMean(x: seq<real>, window: nat, minPeriods: nat): (r: seq<Option<real>>)
    requires window >= 1
    ensures |r| == |x|
    ensures forall i :: 0 <= i < |x| ==> r[i] == RollingAt(x, window, minPeriods, i)
  {
    seq(|x|, i requires 0 <= i < |x| => RollingAt(x, window, minPeriods, i))
  }

  function RollingAt(x: seq<real>, window: nat, minPeriods: nat, i: nat): Option<real>
    requires window >= 1 && i < |x|
  {
    var lo := if i + 1 >= window then i + 1 - window else 0;
    if i + 1 - lo >= minPeriods then Some(Mean(x[lo..i + 1])) else None
  }

  /**
   * With `1 <= minPeriods <= window <= ...`, the defined rolling means start at
   * index `minPeriods - 1`: the first is the mean of the first `minPeriods`
   * values and the last the mean of the last `window` values.
   */
  lemma RollingEnds(x: seq<real>, window: nat, minPeriods: nat)
    requires 1 <= minPeriods <= window
    requires minPeriods <= |x|
    ensures var m := Somes(RollingMean(x, window, minPeriods));
      && |m| == |x| - minPeriods + 1
      && m[0] == Mean(x[..minPeriods])
      && m[|m| - 1] == Mean(Tail(x, window))
  {
    var r := RollingMean(x, window, minPeriods);
    RollingDefined(x, window, minPeriods);
    SomesSuffix(r, minPeriods - 1);
    RollingFirst(x, window, minPeriods);
    RollingLast(x, window, minPeriods);
  }

  lemma RollingDefined(x: seq<real>, window: nat, minPeriods: nat)
    requires 1 <= minPeriods <= window
    ensures var r := RollingMean(x, window, minPeriods);
      && (forall i :: 0 <= i < minPeriods - 1 && i < |x| ==> r[i].None?)
      && (forall i :: minPeriods - 1 <= i < |x| ==> r[i].Some?)
  {
  }

  lemma RollingFirst(x: seq<real>, window: nat, minPeriods: nat)
    requires 1 <= minPeriods <= window
    requires minPeriods <= |x|
    ensures RollingAt(x, window, minPeriods, minPeriods - 1) == Some(Mean(x[..minPeriods]))
  {
    assert x[0..minPeriods] == x[..minPeriods];
  }

  lemma RollingLast(x: seq<real>, window: nat, minPeriods: nat)
    requires 1 <= minPeriods <= window
    requires minPeriods <= |x|
    ensures RollingAt(x, window, minPeriods, |x| - 1) == Some(Mean(Tail(x, window)))
  {
    var lo := if |x| >= window then |x| - window else 0;
    assert x[lo..|x|] == Tail(x, window);
  }

  // ---------------------------------------------------------------------
  // detect_trend
  // ---------------------------------------------------------------------

  datatype Trend = Up | Down | Sideways

  /** The label written into the analysis document. */
  function TrendName(t: Trend): (name: string)
    ensures |name| >= 2
  {
    match t
    case Up => "UP"
    case Down => "DOWN"
    case Sideways => "SIDEWAYS"
  }

  const TrendThreshold: real := 0.002

  function TrendWindow(n: nat): nat {
    var m := if n < 20 then n else 20;
    if m < 3 then 3 else m
  }

  function TrendMinPeriods(window: nat): nat {
    if window / 2 < 2 then 2 else window / 2
  }

  /** The relative change between the first and the last rolling mean, or 0. */
  function SlopeRatio(c: seq<real>): real {
    var window := TrendWindow(|c|);
    var m := Somes(RollingMean(c, window, TrendMinPeriods(window)));
    if |m| >= 2 && m[0] != 0.0 then (m[|m| - 1] - m[0]) / m[0] else 0.0
  }

  /** `0.6 * drift + 0.4 * slope`: what the thresholds are applied to. */
  function Blended(c: seq<real>): real
    requires |c| >= 2 && c[0] != 0.0
  {
    0.6 * ((c[|c| - 1] - c[0]) / c[0]) + 0.4 * SlopeRatio(c)
  }

  /** `detect_trend(closes)`; missing closes are dropped first. */
  function DetectTrend(closes: seq<Option<real>>): Trend {
    var c := Somes(closes);
    if |c| < 2 || c[0] == 0.0 then Sideways
    else if Blended(c) > TrendThreshold then Up
    else if Blended(c) < -TrendThreshold then Down
    else Sideways
  }

  /** Fewer than two closes, or a first close of 0, is always sideways. */
  lemma TrendInsufficient(closes: seq<Option<real>>)
    requires |Somes(closes)| < 2 || Somes(closes)[0] == 0.0
    ensures DetectTrend(closes) == Sideways
  {
  }

  /** Otherwise the trend is UP exactly above the threshold and DOWN exactly below its negative. */
  lemma TrendThresholds(closes: seq<Option<real>>)
    requires var c := Somes(closes); |c| >= 2 && c[0] != 0.0
    ensures var b := Blended(Somes(closes));
      && (DetectTrend(closes) == Up <==> b > TrendThreshold)
      && (DetectTrend(closes) == Down <==> b < -TrendThreshold)
      && (DetectTrend(closes) == Sideways <==> -TrendThreshold <= b <= TrendThreshold)
  {
  }

  /**
   * The slope compares the mean of the first `min_periods` closes with the
   * mean of the last `window` closes.
   */
  lemma SlopeRatioMeans(c: seq<real>)
    requires |c| >= 2
    ensures var window := TrendWindow(|c|);
      var mp := TrendMinPeriods(window);
      var first := Mean(c[..mp]);
      SlopeRatio(c) == if |c| >= mp + 1 && first != 0.0 then (Mean(Tail(c, window)) - first) / first else 0.0
  {
    var window := TrendWindow(|c|);
    RollingEnds(c, window, TrendMinPeriods(window));
  }

  /** A flat, non-zero series is sideways. */
  lemma FlatIsSideways(closes: seq<Option<real>>, v: real)
    requires v != 0.0
    requires forall i :: 0 <= i < |closes| ==> closes[i] == Some(v)
    ensures DetectTrend(closes) == Sideways
  {
    var c := Somes(closes);
    SomesSuffix(closes, 0);
    if |c| >= 2 {
      assert forall i :: 0 <= i < |c| ==> c[i] == v;
      FlatBlended(c, v);
    }
  }

  /** Neither the drift nor the slope of a flat series moves. */
  lemma FlatBlended(c: seq<real>, v: real)
    requires |c| >= 2 && v != 0.0
    requires forall i :: 0 <= i < |c| ==> c[i] == v
    ensures Blended(c) == 0.0
  {
    FlatSlope(c, v);
    assert c[|c| - 1] - c[0] == 0.0;
  }

  /** The rolling means of a flat series are all equal: no slope. */
  lemma FlatSlope(c: seq<real>, v: real)
    requires |c| >= 2
    requires forall i :: 0 <= i < |c| ==> c[i] == v
    ensures SlopeRatio(c) == 0.0
  {
    SlopeRatioMeans(c);
    var window := TrendWindow(|c|);
    var mp := TrendMinPeriods(window);
    MeanConstant(c[..mp], v);
    MeanConstant(Tail(c, window), v);
  }

  /** `detect_trend([100, 100.5, 101, 102])` is UP. */
  lemma TrendExample()
    ensures DetectTrend([Some(100.0), Some(100.5), Some(101.0), Some(102.0)]) == Up
  {
    var c := [100.0, 100.5, 101.0, 102.0];
    ExampleCloses();
    ExampleSlope();
    assert Blended(c) == 0.6 * (2.0 / 100.0) + 0.4 * (0.625 / 100.25);
  }

  lemma ExampleCloses()
    ensures Somes([Some(100.0), Some(100.5), Some(101.0), Some(102.0)]) == [100.0, 100.5, 101.0, 102.0]
  {
    var closes := [Some(100.0), Some(100.5), Some(101.0), Some(102.0)];
    SomesSuffix(closes, 0);
  }

  lemma ExampleSlope()
    ensures SlopeRatio([100.0, 100.5, 101.0, 102.0]) == 0.625 / 100.25
  {
    var c := [100.0, 100.5, 101.0, 102.0];
    var c1, c2, c3 := [100.0], [100.0, 100.5], [100.0, 100.5, 101.0];
    assert c1[..0] == [];
    assert Sum(c1) == 100.0;
    assert c2[..1] == c1;
    assert Sum(c2) == 200.5;
    assert c3[..2] == c2;
    assert Sum(c3) == 301.5;
    assert c[..3] == c3;
    assert Sum(c) == 403.5;
    assert c[..2] == c2;
    assert Mean(c2) == 100.25;
    assert Mean(c) == 100.875;
    assert TrendWindow(4) == 4 && TrendMinPeriods(4) == 2;
    SlopeRatioMeans(c);
    assert Tail(c, 4) == c;
  }

  // ---------------------------------------------------------------------
  // compute_rsi
  // ---------------------------------------------------------------------

  const RsiPeriod := 14

  /** `closes.diff()` without its leading gap: `d[k] == c[k+1] - c[k]`. */
  function Deltas(c: seq<real>): (d: seq<real>)
    ensures |d| == if |c| == 0 then 0 else |c| - 1
  {
    if |c| < 2 then [] else seq(|c| - 1, k requires 0 <= k < |c| - 1 => c[k + 1] - c[k])
  }

  function Gains(d: seq<real>): (g: seq<real>)
    ensures |g| == |d|
  {
    seq(|d|, k requires 0 <= k < |d| => MaxReal(d[k], 0.0))
  }

  function Losses(d: seq<real>): (l: seq<real>)
    ensures |l| == |d|
  {
    seq(|d|, k requires 0 <= k < |d| => MaxReal(-d[k], 0.0))
  }

  /**
   * `x.ewm(alpha=1/14, adjust=False).mean()`: the first value starts the
   * average, every later one moves it by a fraction 1/14 towards itself.
   */
  function Wilder(x: seq<real>): (y: seq<real>)
    ensures |y| == |x|
  {
    if x == [] then []
    else if |x| == 1 then [x[0]]
    else
      var y := Wilder(x[..|x| - 1]);
      y + [(1.0 - 1.0 / RsiPeriod as real) * y[|y| - 1] + (1.0 / RsiPeriod as real) * x[|x| - 1]]
  }

  /** Averages of non-negative values are non-negative, and a positive one stays positive. */
  lemma {:induction false} WilderNonNegative(x: seq<real>)
    requires forall i :: 0 <= i < |x| ==> x[i] >= 0.0
    ensures forall i :: 0 <= i < |x| ==> Wilder(x)[i] >= 0.0
    ensures x != [] && (forall i :: 0 <= i < |x| ==> x[i] > 0.0) ==> Wilder(x)[|x| - 1] > 0.0
  {
    if |x| >= 2 {
      WilderNonNegative(x[..|x| - 1]);
    }
  }

  /** An all-zero series averages to zero throughout. */
  lemma {:induction false} WilderZero(x: seq<real>)
    requires forall i :: 0 <= i < |x| ==> x[i] == 0.0
    ensures forall i :: 0 <= i < |x| ==> Wilder(x)[i] == 0.0
  {
    if |x| >= 2 {
      WilderZero(x[..|x| - 1]);
    }
  }

  /** `100 - 100 / (1 + gain / loss)` for a positive average loss. */
  function RsiValue(gain: real, loss: real): real
    requires loss > 0.0 && 1.0 + gain / loss != 0.0
  {
    100.0 - 100.0 / (1.0 + gain / loss)
  }

  lemma RsiValueBounds(gain: real, loss: real)
    requires gain >= 0.0 && loss > 0.0
    ensures 1.0 + gain / loss != 0.0
    ensures 0.0 <= RsiValue(gain, loss) < 100.0
  {
    var rs := gain / loss;
    assert rs >= 0.0;
    assert 0.0 < 100.0 / (1.0 + rs) <= 100.0;
  }

  /**
   * The RSI series: defined from the 14th change on, wherever the average
   * loss is not 0 (and the value is finite: an infinite one is dropped).
   */
  function RsiSeries(g: seq<real>, l: seq<real>): (r: seq<Option<real>>)
    requires |g| == |l|
    ensures |r| == |g|
  {
    seq(|g|, k requires 0 <= k < |g| =>
      if k >= RsiPeriod - 1 && l[k] > 0.0 && 1.0 + g[k] / l[k] != 0.0 then Some(RsiValue(g[k], l[k])) else None)
  }

  /** The edge-case ladder used when no RSI value is defined. */
  function RsiEdge(latestGain: real, latestLoss: real): (r: Option<real>)
    ensures latestGain >= 0.0 && latestLoss >= 0.0 ==> r.Some?
  {
    if latestGain > 0.0 && latestLoss == 0.0 then Some(100.0)
    else if latestLoss > 0.0 && latestGain == 0.0 then Some(0.0)
    else if latestGain == 0.0 && latestLoss == 0.0 then Some(50.0)
    else if latestGain > 0.0 && latestLoss > 0.0 then Some(RoundTo(RsiValue(latestGain, latestLoss), 2))
    else None
  }

  /** `compute_rsi(closes, period=14)`; missing closes are dropped first. */
  function ComputeRsi(closes: seq<Option<real>>): Option<real> {
    var c := Somes(closes);
    if |c| < 2 then None
    else
      var d := Deltas(c);
      var g := Wilder(Gains(d));
      var l := Wilder(Losses(d));
      var rsi := Somes(RsiSeries(g, l));
      if rsi == [] then
        var latestGain := if |g| >= RsiPeriod then g[|g| - 1] else 0.0;
        var latestLoss := if |l| >= RsiPeriod then l[|l| - 1] else 0.0;
        RsiEdge(latestGain, latestLoss)
      else Some(RoundTo(rsi[|rsi| - 1], 2))
  }

  lemma GainsLossesNonNegative(c: seq<real>)
    ensures var d := Deltas(c);
      && (forall i :: 0 <= i < |d| ==> Wilder(Gains(d))[i] >= 0.0)
      && (forall i :: 0 <= i < |d| ==> Wilder(Losses(d))[i] >= 0.0)
  {
    var d := Deltas(c);
    WilderNonNegative(Gains(d));
    WilderNonNegative(Losses(d));
  }

  /** RSI is missing for fewer than two closes and otherwise lies in [0, 100]. */
  lemma RsiRange(closes: seq<Option<real>>)
    ensures |Somes(closes)| < 2 ==> ComputeRsi(closes) == None
    ensures |Somes(closes)| >= 2 ==>
      ComputeRsi(closes).Some? && 0.0 <= ComputeRsi(closes).value <= 100.0
  {
    var c := Somes(closes);
    if |c| >= 2 {
      var d := Deltas(c);
      var g := Wilder(Gains(d));
      var l := Wilder(Losses(d));
      GainsLossesNonNegative(c);
      var rsi := Somes(RsiSeries(g, l));
      if rsi != [] {
        var v := rsi[|rsi| - 1];
        assert Some(v) in RsiSeries(g, l);
        var k :| 0 <= k < |g| && RsiSeries(g, l)[k] == Some(v);
        RsiValueBounds(g[k], l[k]);
        RoundPercent(v);
      }
    }
  }

  /** With 2 to 14 closes no average is available yet and RSI is 50. */
  lemma RsiShortSeries(closes: seq<Option<real>>)
    requires 2 <= |Somes(closes)| <= RsiPeriod
    ensures ComputeRsi(closes) == Some(50.0)
  {
    var c := Somes(closes);
    var d := Deltas(c);
    var g := Wilder(Gains(d));
    var l := Wilder(Losses(d));
    SomesSuffix(RsiSeries(g, l), |g|);
  }

  /** A flat series has neither gains nor losses: RSI 50. */
  lemma RsiFlat(closes: seq<Option<real>>, v: real)
    requires |closes| >= 2
    requires forall i :: 0 <= i < |closes| ==> closes[i] == Some(v)
    ensures ComputeRsi(closes) == Some(50.0)
  {
    var c := Somes(closes);
    SomesSuffix(closes, 0);
    var d := Deltas(c);
    assert forall k :: 0 <= k < |d| ==> d[k] == 0.0;
    WilderZero(Gains(d));
    WilderZero(Losses(d));
    var g := Wilder(Gains(d));
    var l := Wilder(Losses(d));
    SomesSuffix(RsiSeries(g, l), |g|);
  }

  /** Strictly rising closes change by gains only. */
  lemma RisingDeltas(c: seq<real>)
    requires forall k :: 0 <= k < |c| - 1 ==> c[k] < c[k + 1]
    ensures var d := Deltas(c);
      && (forall k :: 0 <= k < |d| ==> Gains(d)[k] > 0.0)
      && (forall k :: 0 <= k < |d| ==> Losses(d)[k] == 0.0)
  {
    var d := Deltas(c);
    assert forall k :: 0 <= k < |d| ==> d[k] > 0.0;
  }

  /** Zero average losses leave the RSI series without a value. */
  lemma NoLossNoRsi(g: seq<real>, l: seq<real>)
    requires |g| == |l|
    requires forall k :: 0 <= k < |l| ==> l[k] == 0.0
    ensures Somes(RsiSeries(g, l)) == []
  {
    var r := RsiSeries(g, l);
    assert forall k :: 0 <= k < |r| ==> r[k].None?;
    SomesSuffix(r, |r|);
  }

  /** Fifteen or more strictly rising closes: every change is a gain, RSI 100. */
  lemma RsiRising(closes: seq<Option<real>>)
    requires |Somes(closes)| > RsiPeriod
    requires var c := Somes(closes); forall k :: 0 <= k < |c| - 1 ==> c[k] < c[k + 1]
    ensures ComputeRsi(closes) == Some(100.0)
  {
    var c := Somes(closes);
    var d := Deltas(c);
    RisingDeltas(c);
    WilderNonNegative(Gains(d));
    WilderZero(Losses(d));
    var g := Wilder(Gains(d));
    var l := Wilder(Losses(d));
    NoLossNoRsi(g, l);
  }

  /** Strictly falling closes change by losses only. */
  lemma FallingDeltas(c: seq<real>)
    requires forall k :: 0 <= k < |c| - 1 ==> c[k] > c[k + 1]
    ensures var d := Deltas(c);
      && (forall k :: 0 <= k < |d| ==> Gains(d)[k] == 0.0)
      && (forall k :: 0 <= k < |d| ==> Losses(d)[k] > 0.0)
  {
    var d := Deltas(c);
    assert forall k :: 0 <= k < |d| ==> d[k] < 0.0;
  }

  /**
   * Fifteen or more strictly falling closes: every change is a loss, the
   * last RSI value is `100 - 100 / (1 + 0)`, so RSI is 0.
   */
  lemma RsiFalling(closes: seq<Option<real>>)
    requires |Somes(closes)| > RsiPeriod
    requires var c := Somes(closes); forall k :: 0 <= k < |c| - 1 ==> c[k] > c[k + 1]
    ensures ComputeRsi(closes) == Some(0.0)
  {
    var c := Somes(closes);
    var d := Deltas(c);
    FallingDeltas(c);
    WilderZero(Gains(d));
    WilderNonNegative(Losses(d));
    var g := Wilder(Gains(d));
    var l := Wilder(Losses(d));
    var r := RsiSeries(g, l);
    var last := |r| - 1;
    assert g[last] == 0.0 && l[last] > 0.0;
    assert RsiValue(g[last], l[last]) == 0.0;
    assert r[last] == Some(0.0);
    assert Somes(r) == Somes(r[..last]) + [0.0];
    assert RoundTo(0.0, 2) == 0.0 by { assert Pow10(2) == 100; }
  }

  // ---------------------------------------------------------------------
  // compute_atr and compute_average_volatility
  // ---------------------------------------------------------------------

  /** One row of the frame: the analysis drops rows with a missing price. */
  datatype Candle = Candle(high: real, low: real, close: real)

  const AtrPeriod := 14

  /** The true range of candle `i`; the first has no previous close. */
  function TrueRange(rows: seq<Candle>, i: nat): (tr: real)
    requires i < |rows|
    ensures tr >= 0.0
    ensures tr >= AbsReal(rows[i].high - rows[i].low)
  {
    var hl := AbsReal(rows[i].high - rows[i].low);
    if i == 0 then hl
    else
      var pc := rows[i - 1].close;
      MaxReal(hl, MaxReal(AbsReal(rows[i].high - pc), AbsReal(rows[i].low - pc)))
  }

  function TrueRanges(rows: seq<Candle>): (tr: seq<real>)
    ensures |tr| == |rows|
    ensures forall i :: 0 <= i < |rows| ==> tr[i] == TrueRange(rows, i)
  {
    seq(|rows|, i requires 0 <= i < |rows| => TrueRange(rows, i))
  }

  /** `compute_atr(df, period=14)`. */
  function ComputeAtr(rows: seq<Candle>): Option<real> {
    if |rows| < 2 then None
    else
      var tr := TrueRanges(rows);
      var minPeriods := if AtrPeriod < |tr| then AtrPeriod else |tr|;
      var atr := Somes(RollingMean(tr, AtrPeriod, minPeriods));
      var value := if atr == [] then Mean(tr) else atr[|atr| - 1];
      Some(RoundTo(value, 4))
  }

  /**
   * ATR is missing for fewer than two rows; otherwise it is the rounded mean
   * true range of the last 14 rows (or of all of them), and never negative.
   */
  lemma AtrMeaning(rows: seq<Candle>)
    ensures |rows| < 2 ==> ComputeAtr(rows) == None
    ensures |rows| >= 2 ==>
      && ComputeAtr(rows) == Some(RoundTo(Mean(Tail(TrueRanges(rows), AtrPeriod)), 4))
      && ComputeAtr(rows).value >= 0.0
  {
    if |rows| >= 2 {
      var tr := TrueRanges(rows);
      var minPeriods := if AtrPeriod < |tr| then AtrPeriod else |tr|;
      RollingEnds(tr, AtrPeriod, minPeriods);
      var t := Tail(tr, AtrPeriod);
      MeanNonNegative(t);
      RoundNonNegative(Mean(t), 4);
    }
  }

  function Ranges(rows: seq<Candle>): (r: seq<real>)
    ensures |r| == |rows|
    ensures forall i :: 0 <= i < |rows| ==> r[i] == rows[i].high - rows[i].low
  {
    seq(|rows|, i requires 0 <= i < |rows| => rows[i].high - rows[i].low)
  }

  /** `compute_average_volatility(df)`: the rounded mean of high - low. */
  function AverageVolatility(rows: seq<Candle>): Option<real> {
    if rows == [] then None else Some(RoundTo(Mean(Ranges(rows)), 4))
  }

  /** Missing exactly for an empty frame, and non-negative when every high is at least its low. */
  lemma AverageVolatilityMeaning(rows: seq<Candle>)
    ensures AverageVolatility(rows).None? <==> rows == []
    ensures (forall i :: 0 <= i < |rows| ==> rows[i].low <= rows[i].high) ==>
      AverageVolatility(rows).None? || AverageVolatility(rows).value >= 0.0
  {
    if rows != [] && forall i :: 0 <= i < |rows| ==> rows[i].low <= rows[i].high {
      var m := Mean(Ranges(rows));
      MeanNonNegative(Ranges(rows));
      RoundNonNegative(m, 4);
    }
  }
}
