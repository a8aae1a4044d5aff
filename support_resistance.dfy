/**
 * `compute_support_resistance`: clean the frame, pick the rule for the
 * interval, then fall back per side to the extremes of the whole cleaned
 * frame.
 */
module SupportResistance {
  import opened Wrappers
  import opened Seqs
  import opened Text
  import opened Ohlc
  import opened LevelRanking
  import opened Reversals

  /** The levels returned per side when the caller does not say. */
  const DefaultLevels := 2

  /** The interval-specific rule, before the final per-side fallback. */
  function IntervalLevels(w: seq<Bar>, interval: string, levels: int, lastClose: int): (seq<int>, seq<int>) {
    var key := Lower(interval);
    if key == "1h" then IntradayLevels(w, levels, lastClose)
    else if key == "4h" then FourHourLevels(w, levels, lastClose)
    else if key == "1d" then DailyLevels(w, levels, lastClose)
    else (FallbackSupports(w, levels), FallbackResistances(w, levels))
  }

  /**
   * The interval rule on a non-empty cleaned frame, with each empty side
   * replaced by the extremes of that whole frame.
   */
  function LevelsFor(w: seq<Bar>, interval: string, levels: int): (seq<int>, seq<int>)
    requires w != []
  {
    var lastClose := w[|w| - 1].close;
    var (supports, resistances) := IntervalLevels(w, interval, levels, lastClose);
    (if supports == [] then FallbackSupports(w, levels) else supports,
     if resistances == [] then FallbackResistances(w, levels) else resistances)
  }

  /** `compute_support_resistance(df, interval, levels)`. */
  function ComputeSupportResistance(rows: seq<Row>, interval: string, levels: int): (seq<int>, seq<int>) {
    var w := Working(rows);
    if w == [] then ([], []) else LevelsFor(w, interval, levels)
  }

  /** Supports ascending, resistances descending, and at most `levels` of each. */
  ghost predicate WellShaped(p: (seq<int>, seq<int>), levels: int) {
    && Ascending(p.0) && Descending(p.1)
    && (levels >= 0 ==> |p.0| <= levels && |p.1| <= levels)
  }

  lemma MergedShape(fallback: seq<int>, values: seq<int>, isSupport: bool, levels: int)
    requires isSupport ==> Ascending(fallback)
    requires !isSupport ==> Descending(fallback)
    requires levels >= 0 ==> |fallback| <= levels
    ensures var m := MergedLevels(fallback, values, FourHourMergeTolerance, isSupport);
      && (isSupport ==> Ascending(m)) && (!isSupport ==> Descending(m))
      && (levels >= 0 ==> |m| <= levels)
  {
    if |fallback| >= 2 {
      MergedLevelsProps(fallback, values, FourHourMergeTolerance, isSupport);
    }
  }

  lemma IntradayShape(bars: seq<Bar>, levels: int, lastClose: int)
    ensures WellShaped(IntradayLevels(bars, levels, lastClose), levels)
  {
  }

  lemma FourHourShape(bars: seq<Bar>, levels: int, lastClose: int)
    ensures WellShaped(FourHourLevels(bars, levels, lastClose), levels)
  {
    var w := Tail(bars, FourHourLookbackBars);
    var weekly := Weekly(w);
    if FourHourSupportCandidates(weekly) == [] && FourHourResistanceCandidates(weekly) == [] {
      MergedShape(FallbackSupports(w, levels), Lows(w), true, levels);
      MergedShape(FallbackResistances(w, levels), Highs(w), false, levels);
      assert FourHourLevels(bars, levels, lastClose)
          == (MergedLevels(FallbackSupports(w, levels), Lows(w), FourHourMergeTolerance, true),
              MergedLevels(FallbackResistances(w, levels), Highs(w), FourHourMergeTolerance, false));
    }
  }

  lemma DailyShape(bars: seq<Bar>, levels: int, lastClose: int)
    ensures WellShaped(DailyLevels(bars, levels, lastClose), levels)
  {
  }

  lemma IntervalLevelsShape(w: seq<Bar>, interval: string, levels: int, lastClose: int)
    ensures WellShaped(IntervalLevels(w, interval, levels, lastClose), levels)
  {
    var key := Lower(interval);
    if key == "1h" {
      IntradayShape(w, levels, lastClose);
    } else if key == "4h" {
      FourHourShape(w, levels, lastClose);
    } else if key == "1d" {
      DailyShape(w, levels, lastClose);
    }
  }

  lemma LevelsForShape(w: seq<Bar>, interval: string, levels: int)
    requires w != []
    ensures WellShaped(LevelsFor(w, interval, levels), levels)
  {
    IntervalLevelsShape(w, interval, levels, w[|w| - 1].close);
  }

  /** With no row surviving cleaning the result is `([], [])`. */
  lemma EmptyFrameGivesNoLevels(rows: seq<Row>, interval: string, levels: int)
    requires forall k :: 0 <= k < |rows| ==> !Complete(rows[k])
    ensures ComputeSupportResistance(rows, interval, levels) == ([], [])
  {
  }

  /**
   * On every branch supports come out ascending and resistances descending,
   * with at most `levels` entries per side.
   */
  lemma LevelsShape(rows: seq<Row>, interval: string, levels: int)
    ensures WellShaped(ComputeSupportResistance(rows, interval, levels), levels)
  {
    var w := Working(rows);
    if w != [] {
      LevelsForShape(w, interval, levels);
    }
  }

  /** With a row surviving cleaning and `levels >= 1`, neither side is empty. */
  lemma LevelsNonEmpty(rows: seq<Row>, interval: string, levels: int)
    requires levels >= 1
    requires exists k :: 0 <= k < |rows| && Complete(rows[k])
    ensures var (supports, resistances) := ComputeSupportResistance(rows, interval, levels);
      supports != [] && resistances != []
  {
    var w := Working(rows);
    assert w != [];
  }

  /**
   * On the daily rule a side with no qualified candidate falls back to the
   * extremes of the 60-bar window, not of the whole frame.
   */
  lemma DailyFallsBackToWindow(bars: seq<Bar>, levels: int, lastClose: int)
    ensures var w := Tail(bars, DailyLookbackBars);
      && (DailySupportCandidates(w, lastClose, ScanEnd(w)) == [] ==>
            DailyLevels(bars, levels, lastClose).0 == FallbackSupports(w, levels))
      && (DailyResistanceCandidates(w, lastClose, ScanEnd(w)) == [] ==>
            DailyLevels(bars, levels, lastClose).1 == FallbackResistances(w, levels))
  {
  }
}
