# FX-Kline in Dafny

A Dafny model of the decision logic of FX-Kline. FX-Kline fetches foreign-exchange
OHLC candles, condenses them into an analysis document, and scores trade plans
against what the market then did. The model covers five parts of the program:

- **`ohlc_aggregator.py`: support and resistance.** `compute_support_resistance`
  dispatches on the interval:
  - the 1h session-reversal rule;
  - the 4h weekly-breakout rule, with its merge of nearby extremes;
  - the 1d three-candle rule;
  - the simple-extremes rule for any other interval.

  These rules share `_rank_levels`, `_merge_nearby_levels` and `_fallback_extremes`.
  The same file also supplies `detect_trend`, `compute_rsi`, `compute_atr`,
  `compute_average_volatility`, `parse_metadata_from_filename` and the `AnalysisResult`
  document (modules `Ohlc`, `LevelRanking`, `Reversals`, `SupportResistance`,
  `Indicators`, `Analysis`).
- **`core/l3_evaluator.py`: trade evaluation.** Direction accuracy, the entry-timing
  score, the pips outcome, `evaluate_single_trade` and `aggregate_evaluations`
  (module `TradeEval`).
- **`analyst/l3_evaluator.py`: the day evaluator.** The `L3Evaluator` object fills
  `results` step by step. It classifies each pair's bias and volatility, compares the
  range ratios of the top and bottom rankings, and replays every strategy bar by bar
  (module `DayEvaluation`, class `L3Evaluator`).
- **`data_fetcher.py`: pure fetcher helpers.** Parsing of period and interval strings,
  counting business days, the choice of fallback frame, the empty-result error type,
  the trim to the last N business days, the CSV serialiser and the batch export keys
  (module `Fetcher`).
- **`mcp/tools.py`: the MCP error taxonomy.** Categories, hints, recoverability and
  suggested tools, the recursive datetime normaliser, and the batch-size guard
  (module `McpTools`).

`Seqs`, `Text` and `Wrappers` hold generic helpers:
- a stable insertion sort, filters, de-duplication and Python-style slicing;
- ASCII case mapping, digits, join and split, and the small regular-expression shapes
  used by the parsers;
- `Option` and `Result`.

Modelling choices:

- **Level-engine prices** are integers counted in ticks of 0.0001. In these units
  `round(price, 4)` is the identity and the `f"{rounded:.4f}"` de-duplication key is the
  price itself. The two tolerances of the level engine are exact in ticks:
  - the 4h merge tolerance 0.05 is 500 ticks;
  - the daily tolerance of 0.5% of the last close is the test `200 * |p - close| <= close`.
- **Timestamps** are integer seconds.
  - A session date is `ts / 86400`.
  - The `W-SUN` week is `(ts / 86400 + 3) / 7`: 1970-01-01 was a Thursday, so weeks run
    Monday to Sunday.
  - The day evaluator works on local (JST) seconds: its date is `ts / 86400` and its
    hour `ts % 86400 / 3600`.
- **Indicators**, the trade evaluator and the day evaluator work on `real`. Python's
  `round(x, k)` becomes a half-up rounding `RoundTo` on reals.
- **Imperative code keeps its form.** Each loop of the source is a Dafny `method` with a
  `while` loop. Its invariants tie the loop's variables to a specification function on
  the prefix already consumed, and the method's `ensures` equates its result with that
  function. The properties are lemmas about the functions. This covers the de-duplication
  loop of `_rank_levels`, the two loops of `_merge_nearby_levels`, the candidate loops of
  the three interval rules, the modification loop of `evaluate_single_trade`, the two
  dictionary-filling loops of `aggregate_evaluations`, the CSV line loop and the
  batch-export loop.
- **The day evaluator is a class.** `L3Evaluator` has immutable inputs and a mutable
  `results` field. Each of `EvaluateEnvironment`, `EvaluateRanking`, `SimulateTrades`
  and `Run` states the whole new value of `results` in terms of the old one.
- **Clock readings are parameters.** `datetime.now()`, `get_jst_now()` and the
  `isoformat()` strings they feed (`date`, `generated_at`, `evaluation_date`) are passed
  in, as is the export function `export_to_csv` that `get_batch_csv_export` calls (the
  `render` parameter).

Where the code and its documentation disagree, the model follows the code. Two cases
stand out:

- The doc comment of `compute_support_resistance` speaks of levels "within ±5 yen" on
  the daily rule, but the code tests `last_close * 0.005`. The model uses the latter.
- `_count_unique_business_days` is called "business days" but counts every distinct
  calendar day present in the frame. The model counts distinct days.

## Model

| member | source | states |
|---|---|---|
| Ohlc.SortInts | src/fx_kline/core/ohlc_aggregator.py:212 | `sorted(s, reverse=desc)` returns a permutation of its input, descending when `desc` and ascending otherwise |
| Ohlc.Completes | src/fx_kline/core/ohlc_aggregator.py:558 | `dropna` keeps exactly the complete rows (timestamp, high, low and close present), and nothing else |
| Ohlc.Working | src/fx_kline/core/ohlc_aggregator.py:555-561 | the cleaned frame is a permutation of the complete rows, ordered by timestamp, and empty exactly when no row is complete |
| Ohlc.TailKeepsOrder | src/fx_kline/core/ohlc_aggregator.py:305 | `df.tail(n)` of a time-ordered frame is time-ordered |
| LevelRanking.DedupeByPrice | src/fx_kline/core/ohlc_aggregator.py:180-189 | the de-duplicated list has pairwise distinct prices, the same set of prices as the input, holds for each price the first candidate that carried it, and starts with the first candidate |
| LevelRanking.DedupeByPriceCount | src/fx_kline/core/ohlc_aggregator.py:180-189 | the de-duplicated list is exactly as long as the number of distinct candidate prices |
| LevelRanking.RankLevels | src/fx_kline/core/ohlc_aggregator.py:151-212 | the method with the `seen`/`unique` loop returns exactly `RankedLevels` |
| LevelRanking.RankedLevels | src/fx_kline/core/ohlc_aggregator.py:177-212 | output is descending for resistances and ascending for supports, has at most `max_levels` entries when `max_levels >= 0`, and at most one per distinct price |
| LevelRanking.RankedLevelsDistinct | src/fx_kline/core/ohlc_aggregator.py:180-212 | output prices are pairwise distinct and no more numerous than the distinct candidate prices |
| LevelRanking.RankedLevelsFromSelected | src/fx_kline/core/ohlc_aggregator.py:191-212 | every output price is the price of a selected candidate, and every selected candidate is eligible (within bounds, or the fallback) |
| LevelRanking.RankedLevelsWithinBounds | src/fx_kline/core/ohlc_aggregator.py:191-201 | when some candidate satisfies `min_price`/`max_price`, every output price satisfies them |
| LevelRanking.EligibleInBounds | src/fx_kline/core/ohlc_aggregator.py:191-201 | with a candidate in bounds the fallback is not taken, so every eligible candidate is in bounds |
| LevelRanking.RankedLevelsFallbackFirst | src/fx_kline/core/ohlc_aggregator.py:198-201 | when no candidate is in bounds, the output is exactly the first candidate's price (or nothing when `max_levels <= 0`) |
| LevelRanking.FallbackSelected | src/fx_kline/core/ohlc_aggregator.py:198-211 | when no candidate is in bounds, the selection is the first distinct candidate alone |
| LevelRanking.SelectedBeforeRejected | src/fx_kline/core/ohlc_aggregator.py:203-211 | the selected and the rejected candidates together are exactly the eligible ones, and each selected candidate ranks no lower than each rejected one |
| LevelRanking.RankedLevelsSelection | src/fx_kline/core/ohlc_aggregator.py:203-212 | in distance mode the kept candidates are nearer the last close than every dropped one (ties to the newer timestamp); in structure-first mode they are older (ties to the smaller distance); the output holds exactly the kept prices |
| LevelRanking.RankOrderTotal | src/fx_kline/core/ohlc_aggregator.py:204-209 | both sort keys give a total preorder, so the stable sort is well defined |
| LevelRanking.MergedLevels | src/fx_kline/core/ohlc_aggregator.py:237-281 | `_merge_nearby_levels` as a function; its meaning: see MergedLevelsProps, and MergeNearbyLevels for the loop proved equal to it |
| LevelRanking.KeepDistantProps | src/fx_kline/core/ohlc_aggregator.py:261-267 | the first merge loop keeps its start, only adds input levels, keeps every pair at least `tolerance` apart and never exceeds its input |
| LevelRanking.BackfillProps | src/fx_kline/core/ohlc_aggregator.py:270-277 | the backfill loop keeps what it had, only adds alternative values, keeps the spacing and stops at the target length |
| LevelRanking.SpreadPermutation | src/fx_kline/core/ohlc_aggregator.py:280 | re-sorting the merged levels keeps every pair at least `tolerance` apart |
| LevelRanking.MergeFilledProps | src/fx_kline/core/ohlc_aggregator.py:261-277 | after both loops the levels are spaced by `tolerance`, no more than the input, start with `levels[0]` and come from the levels or the alternatives |
| LevelRanking.MergedLevelsProps | src/fx_kline/core/ohlc_aggregator.py:258-281 | with at least two levels: `levels[0]` is kept, the length never grows, every pair differs by at least `tolerance`, supports are ascending and resistances descending, and each value is an input level or an alternative |
| LevelRanking.MergeNearbyLevels | src/fx_kline/core/ohlc_aggregator.py:237-281 | the method with the two loops and the `break` returns exactly `MergedLevels`; inputs shorter than two come back unchanged |
| LevelRanking.FallbackSupports | src/fx_kline/core/ohlc_aggregator.py:230-232 | `nsmallest(n)` then `sorted`: `min(n, rows)` values (none for `n <= 0`), ascending |
| LevelRanking.FallbackResistances | src/fx_kline/core/ohlc_aggregator.py:231-233 | `nlargest(n)` then `sorted(reverse=True)`: `min(n, rows)` values, descending |
| LevelRanking.FallbackSupportsLowest | src/fx_kline/core/ohlc_aggregator.py:230-232 | the fallback supports are a sub-multiset of the lows, duplicates included, and no low left out is lower than a kept one |
| LevelRanking.FallbackResistancesHighest | src/fx_kline/core/ohlc_aggregator.py:231-233 | the fallback resistances are a sub-multiset of the highs, duplicates included, and no high left out is higher than a kept one |
| Reversals.IntradayLevels | src/fx_kline/core/ohlc_aggregator.py:284-349 | the 1h level computation; its meaning: see IntradaySupportCandidate, IntradayResistanceCandidate, IntradaySupportsCapped and IntradayResistancesFloored, and ComputeIntradayReversals for the loop proved equal to it |
| Reversals.FilterKeepsTimeOrder | src/fx_kline/core/ohlc_aggregator.py:312 | selecting one session's bars keeps them in time order |
| Reversals.SessionDatesProps | src/fx_kline/core/ohlc_aggregator.py:311 | the session dates iterated are the window's dates, each once, newest first |
| Reversals.FirstHighest | src/fx_kline/core/ohlc_aggregator.py:316 | `idxmax` picks a bar with the highest high, and every earlier bar has a strictly lower high |
| Reversals.FirstLowest | src/fx_kline/core/ohlc_aggregator.py:317 | `idxmin` picks a bar with the lowest low, and every earlier bar has a strictly higher low |
| Reversals.FirstLowestIsSessionLow | src/fx_kline/core/ohlc_aggregator.py:312-323 | the bar found by `idxmin` on a session is that session's first-reached lowest low in the window |
| Reversals.FirstHighestIsSessionHigh | src/fx_kline/core/ohlc_aggregator.py:312-322 | the bar found by `idxmax` on a session is that session's first-reached highest high in the window |
| Reversals.SupportAtMeaning | src/fx_kline/core/ohlc_aggregator.py:317-333 | a support found for session `d` is the price and time of `d`'s first lowest bar, whose low the next five bars never revisit |
| Reversals.ResistanceAtMeaning | src/fx_kline/core/ohlc_aggregator.py:316-328 | a resistance found for session `d` is the price and time of `d`'s first highest bar, whose high the next five bars never revisit |
| Reversals.CollectSessionCandidates | src/fx_kline/core/ohlc_aggregator.py:308-333 | the loop over session dates builds exactly the specified support and resistance candidate lists |
| Reversals.IntradaySupportCandidate | src/fx_kline/core/ohlc_aggregator.py:311-333 | every intraday support candidate is a session's first lowest low, followed by at least five window bars whose lows are all strictly higher |
| Reversals.IntradayResistanceCandidate | src/fx_kline/core/ohlc_aggregator.py:311-328 | every intraday resistance candidate is a session's first highest high, followed by at least five window bars with strictly lower highs |
| Reversals.ComputeIntradayReversals | src/fx_kline/core/ohlc_aggregator.py:284-349 | the method returns exactly `IntradayLevels`: the last 240 bars, supports ranked by distance capped at the last close, resistances floored at `max(last_close, max(supports))` |
| Reversals.IntradaySupportsCapped | src/fx_kline/core/ohlc_aggregator.py:335-338 | when some support candidate lies at or below the last close, every support does |
| Reversals.IntradayResistancesFloored | src/fx_kline/core/ohlc_aggregator.py:340-348 | when some resistance candidate reaches the floor, every resistance lies at or above the last close and above every support |
| Reversals.FlooredResistances | src/fx_kline/core/ohlc_aggregator.py:346-348 | resistances ranked with the floor as `min_price` lie at or above that floor |
| Reversals.FloorBounds | src/fx_kline/core/ohlc_aggregator.py:342-344 | the floor is at least the last close and at least every support |
| Reversals.FourHourLevels | src/fx_kline/core/ohlc_aggregator.py:352-425 | the 4h level computation; its meaning: see WeeklyProps, WeekCandidatesComplete and FourHourCases, and ComputeFourHourLevels for the loop proved equal to it |
| Reversals.StatOfMeaning | src/fx_kline/core/ohlc_aggregator.py:379-388 | a weekly row holds the lowest low, the highest high and the last timestamp of that week's bars, each attained by some bar |
| Reversals.WeekKeysProps | src/fx_kline/core/ohlc_aggregator.py:377-388 | the weeks grouped are the weeks present, each once, ascending |
| Reversals.WeeklyProps | src/fx_kline/core/ohlc_aggregator.py:379-388 | one weekly row per week present, in strictly ascending week order |
| Reversals.WeekCandidatesComplete | src/fx_kline/core/ohlc_aggregator.py:400-407 | every week contributes exactly its (low, week end) as a support candidate and its (high, week end) as a resistance candidate, in week order |
| Reversals.CollectWeekCandidates | src/fx_kline/core/ohlc_aggregator.py:400-407 | the `iterrows` loop builds exactly those two candidate lists |
| Reversals.ComputeFourHourLevels | src/fx_kline/core/ohlc_aggregator.py:352-425 | the method returns exactly `FourHourLevels` |
| Reversals.FourHourCases | src/fx_kline/core/ohlc_aggregator.py:393-425 | with at least two weeks and a higher high or a lower low in the last week, every week's low and high is a candidate ranked structure-first; otherwise the result is the window's extremes merged at 0.05 |
| Reversals.DailyLevels | src/fx_kline/core/ohlc_aggregator.py:428-507 | the 1d level computation; its meaning: see DailyResistanceMeaning and DailySupportMeaning, and ComputeDailyReversals for the loop proved equal to it |
| Reversals.DailyResistanceMeaning | src/fx_kline/core/ohlc_aggregator.py:457-479 | a daily resistance candidate is exactly a bar, not among the last three, whose high is within 0.5% of the last close and which three bearish bars follow |
| Reversals.DailySupportMeaning | src/fx_kline/core/ohlc_aggregator.py:457-486 | a daily support candidate is exactly a bar, not among the last three, whose low is within 0.5% of the last close and which three bullish bars follow |
| Reversals.CollectDailyCandidates | src/fx_kline/core/ohlc_aggregator.py:454-486 | the index loop builds exactly the specified candidate lists over `range(n - 3)` |
| Reversals.ComputeDailyReversals | src/fx_kline/core/ohlc_aggregator.py:428-507 | the method returns exactly `DailyLevels` |
| SupportResistance.IntervalLevels | src/fx_kline/core/ohlc_aggregator.py:563-573 | the `interval.lower()` dispatch; its meaning: see IntervalLevelsShape |
| SupportResistance.LevelsFor | src/fx_kline/core/ohlc_aggregator.py:563-581 | levels of a non-empty cleaned frame with the per-side fallback; its meaning: see LevelsForShape and DailyFallsBackToWindow |
| SupportResistance.ComputeSupportResistance | src/fx_kline/core/ohlc_aggregator.py:510-581 | `compute_support_resistance`; its meaning: see LevelsShape, EmptyFrameGivesNoLevels and LevelsNonEmpty |
| SupportResistance.MergedShape | src/fx_kline/core/ohlc_aggregator.py:410-420 | merging sorted fallback extremes keeps their order and their bound of `levels` |
| SupportResistance.IntradayShape | src/fx_kline/core/ohlc_aggregator.py:335-349 | the 1h rule gives ascending supports and descending resistances, at most `levels` each |
| SupportResistance.FourHourShape | src/fx_kline/core/ohlc_aggregator.py:409-425 | the 4h rule gives ascending supports and descending resistances, at most `levels` each, on the ranked and the merged branch |
| SupportResistance.DailyShape | src/fx_kline/core/ohlc_aggregator.py:488-507 | the 1d rule gives ascending supports and descending resistances, at most `levels` each, fallbacks included |
| SupportResistance.IntervalLevelsShape | src/fx_kline/core/ohlc_aggregator.py:565-573 | every branch of the interval dispatch (compared after `lower()`) is well shaped |
| SupportResistance.LevelsForShape | src/fx_kline/core/ohlc_aggregator.py:563-581 | after the per-side fallback the result is still well shaped |
| SupportResistance.EmptyFrameGivesNoLevels | src/fx_kline/core/ohlc_aggregator.py:555-561 | with no row surviving cleaning the result is `([], [])` |
| SupportResistance.LevelsShape | src/fx_kline/core/ohlc_aggregator.py:510-581 | supports come out ascending and resistances descending, at most `levels` per side, on every branch |
| SupportResistance.LevelsNonEmpty | src/fx_kline/core/ohlc_aggregator.py:575-579 | with a row surviving cleaning and `levels >= 1`, neither side is empty |
| SupportResistance.DailyFallsBackToWindow | src/fx_kline/core/ohlc_aggregator.py:500-505 | on the daily rule a side without qualified candidates becomes the extremes of the 60-bar window, not of the whole frame |
| Indicators.MeanBetween | src/fx_kline/core/ohlc_aggregator.py:641 | a mean of values between two bounds lies between them (used for the ATR and the rolling means) |
| Indicators.RoundNonNegative | src/fx_kline/core/ohlc_aggregator.py:646 | rounding a non-negative value keeps it non-negative |
| Indicators.RoundPercent | src/fx_kline/core/ohlc_aggregator.py:622 | rounding to two decimals keeps a percentage in [0, 100] |
| Indicators.Somes | src/fx_kline/core/ohlc_aggregator.py:115 | `dropna` keeps only present values |
| Indicators.SomesSuffix | src/fx_kline/core/ohlc_aggregator.py:128 | when the missing entries form a prefix, `dropna` keeps the rest in order |
| Indicators.RollingMean | src/fx_kline/core/ohlc_aggregator.py:128 | `rolling(window, min_periods).mean()` is, at each index, the mean of the last `window` values, missing while fewer than `min_periods` exist |
| Indicators.RollingDefined | src/fx_kline/core/ohlc_aggregator.py:128 | the rolling mean is missing exactly before index `min_periods - 1` |
| Indicators.RollingEnds | src/fx_kline/core/ohlc_aggregator.py:128-132 | after `dropna` the first rolling mean is the mean of the first `min_periods` values and the last the mean of the last `window` values |
| Indicators.DetectTrend | src/fx_kline/core/ohlc_aggregator.py:110-140 | `detect_trend`; its meaning: see TrendInsufficient, TrendThresholds, SlopeRatioMeans and FlatIsSideways |
| Indicators.TrendInsufficient | src/fx_kline/core/ohlc_aggregator.py:115-123 | fewer than two closes, or a first close of 0, gives SIDEWAYS |
| Indicators.TrendThresholds | src/fx_kline/core/ohlc_aggregator.py:125-140 | otherwise UP iff `0.6*drift + 0.4*slope > 0.002`, DOWN iff it is below `-0.002`, SIDEWAYS in between |
| Indicators.SlopeRatioMeans | src/fx_kline/core/ohlc_aggregator.py:127-132 | the slope compares the mean of the first `max(2, window // 2)` closes with the mean of the last `window` closes, and is 0 when there is only one rolling mean or the first is 0 |
| Indicators.FlatIsSideways | src/fx_kline/core/ohlc_aggregator.py:119-140 | a constant non-zero series is SIDEWAYS |
| Indicators.FlatSlope | src/fx_kline/core/ohlc_aggregator.py:127-132 | the slope of a constant series is 0 |
| Indicators.FlatBlended | src/fx_kline/core/ohlc_aggregator.py:125-134 | the blended drift of a constant series is 0 |
| Indicators.TrendExample | src/fx_kline/core/ohlc_aggregator.py:110-140 | an illustration of TrendThresholds: `[100, 100.5, 101, 102]` gives UP |
| Indicators.ExampleSlope | src/fx_kline/core/ohlc_aggregator.py:127-132 | an illustration of SlopeRatioMeans: the slope of that example is `0.625 / 100.25` |
| Indicators.ComputeRsi | src/fx_kline/core/ohlc_aggregator.py:584-622 | `compute_rsi`; its meaning: see RsiRange, RsiShortSeries, RsiFlat, RsiRising and RsiFalling |
| Indicators.Wilder | src/fx_kline/core/ohlc_aggregator.py:595-596 | the `adjust=False` exponential average has one value per input |
| Indicators.WilderNonNegative | src/fx_kline/core/ohlc_aggregator.py:595-596 | Wilder averages of non-negative values are non-negative, and positive when every value is |
| Indicators.WilderZero | src/fx_kline/core/ohlc_aggregator.py:595-596 | the Wilder average of zeros is zero throughout |
| Indicators.GainsLossesNonNegative | src/fx_kline/core/ohlc_aggregator.py:590-596 | clipped gains and losses average to non-negative values |
| Indicators.RsiValueBounds | src/fx_kline/core/ohlc_aggregator.py:599-600 | with a positive average loss, `100 - 100/(1 + rs)` lies in [0, 100) |
| Indicators.RsiSeries | src/fx_kline/core/ohlc_aggregator.py:595-601 | the RSI series has one entry per change |
| Indicators.RsiEdge | src/fx_kline/core/ohlc_aggregator.py:603-620 | the edge-case ladder always answers for non-negative averages |
| Indicators.RsiRange | src/fx_kline/core/ohlc_aggregator.py:586-622 | RSI is None for fewer than two closes and otherwise present and in [0, 100] |
| Indicators.RsiShortSeries | src/fx_kline/core/ohlc_aggregator.py:595-612 | with 2 to 14 closes no average exists and RSI is 50 |
| Indicators.RsiFlat | src/fx_kline/core/ohlc_aggregator.py:603-612 | a flat series has neither gains nor losses: RSI 50 |
| Indicators.RisingDeltas | src/fx_kline/core/ohlc_aggregator.py:590-592 | strictly rising closes give only positive gains and zero losses |
| Indicators.NoLossNoRsi | src/fx_kline/core/ohlc_aggregator.py:598-601 | zero average losses leave no RSI value after `dropna` |
| Indicators.RsiRising | src/fx_kline/core/ohlc_aggregator.py:603-608 | fifteen or more strictly rising closes give RSI 100 |
| Indicators.FallingDeltas | src/fx_kline/core/ohlc_aggregator.py:590-592 | strictly falling closes give only zero gains and positive losses |
| Indicators.RsiFalling | src/fx_kline/core/ohlc_aggregator.py:595-622 | fifteen or more strictly falling closes give RSI 0 |
| Indicators.ComputeAtr | src/fx_kline/core/ohlc_aggregator.py:625-646 | `compute_atr`; its meaning: see AtrMeaning |
| Indicators.TrueRange | src/fx_kline/core/ohlc_aggregator.py:634-639 | the true range is non-negative and at least the bar's own range |
| Indicators.TrueRanges | src/fx_kline/core/ohlc_aggregator.py:634-639 | one true range per row; AtrMeaning says what the ATR makes of them |
| Indicators.AtrMeaning | src/fx_kline/core/ohlc_aggregator.py:625-646 | ATR is None for fewer than two rows and otherwise the rounded mean true range of the last 14 rows (or all of them), never negative |
| Indicators.AverageVolatility | src/fx_kline/core/ohlc_aggregator.py:649-663 | `compute_average_volatility`; its meaning: see AverageVolatilityMeaning |
| Indicators.AverageVolatilityMeaning | src/fx_kline/core/ohlc_aggregator.py:649-663 | average volatility is missing exactly for an empty frame and non-negative for bars with `low <= high` |
| Analysis.RFind | src/fx_kline/core/ohlc_aggregator.py:72 | the last index of a character, or -1, as used for `Path.name` and `Path.stem` |
| Analysis.FileName | src/fx_kline/core/ohlc_aggregator.py:75 | `Path.name` is the suffix of the path after its last `/`: a suffix free of `/` that is the whole path or is preceded by `/` |
| Analysis.Stem | src/fx_kline/core/ohlc_aggregator.py:72 | `Path.stem`; its meaning: see CsvName and ParseMetadataShape |
| Analysis.ParseMetadata | src/fx_kline/core/ohlc_aggregator.py:67-81 | on success the pair is letters only and upper-cased, interval and period are digits then letters; otherwise the error names the file |
| Analysis.ParseMetadataShape | src/fx_kline/core/ohlc_aggregator.py:67-81 | conversely, a name that parses has the stem `<pair>_<interval>_<period>` (up to one final newline) with letters for the pair, and the result is that pair upper-cased with the other two parts as written; any other name is refused |
| Analysis.ParseMetadataRefusesTwoParts | src/fx_kline/core/ohlc_aggregator.py:75-79 | `USDJPY_1h.csv` is refused with the mismatch error naming the file |
| Analysis.ParseMetadataRefusesOnePart | src/fx_kline/core/ohlc_aggregator.py:72-79 | `data/notes.txt` is refused, and the error names `notes.txt`, not the path |
| Analysis.ParseMetadataRoundTrip | src/fx_kline/core/ohlc_aggregator.py:67-81 | `<pair>_<interval>_<period>.csv` parses back to `(pair.upper(), interval, period)` |
| Analysis.StemSplits | src/fx_kline/core/ohlc_aggregator.py:29-31 | such a stem splits back into its three parts at the underscores |
| Analysis.CsvName | src/fx_kline/core/ohlc_aggregator.py:72 | a non-empty stem of letters, digits and underscores is its own `.csv` file's name stem, and matches the pattern as itself |
| Analysis.Analyze | src/fx_kline/core/ohlc_aggregator.py:666-685 | `analyze_dataframe`; its meaning: see AnalyzeLevels, AnalyzeIndicators and AnalyzeProps |
| Analysis.AnalyzeLevels | src/fx_kline/core/ohlc_aggregator.py:669 | a non-empty frame gives one or two levels per side, supports ascending and resistances descending |
| Analysis.AnalyzeIndicators | src/fx_kline/core/ohlc_aggregator.py:670-672 | from two bars on RSI is present and in [0, 100]; ATR is present exactly from two bars on and never negative; average volatility is present |
| Analysis.AnalyzeProps | src/fx_kline/core/ohlc_aggregator.py:666-685 | the document of a non-empty frame has schema version 1 and combines the two lemmas above |
| Analysis.AnalyzeFile | src/fx_kline/core/ohlc_aggregator.py:688-696 | success iff the name parses and the frame is non-empty; success carries the parsed pair and schema version 1; a well-named empty file fails with the no-data error naming the file |
| TradeEval.DirectionCorrect | src/fx_kline/core/l3_evaluator.py:220-244 | `evaluate_direction_accuracy`; its meaning: see DirectionCases |
| TradeEval.DirectionCases | src/fx_kline/core/l3_evaluator.py:233-244 | WAIT is right iff `abs(period_return) < 0.005`, LONG iff close > open, SHORT iff close < open, anything else never; LONG and SHORT are never both right |
| TradeEval.RoundMonotone | src/fx_kline/core/l3_evaluator.py:283 | `round(., 3)` keeps order |
| TradeEval.Clamp | src/fx_kline/core/l3_evaluator.py:281 | `max(-1, min(1, x))` lies in [-1, 1] |
| TradeEval.EntryTimingScore | src/fx_kline/core/l3_evaluator.py:247-283 | `calculate_entry_timing_score`; its meaning: see TimingScoreRange, TimingScoreExtremes and TimingScoreMonotone |
| TradeEval.TimingScoreRange | src/fx_kline/core/l3_evaluator.py:261-283 | the timing score is None exactly for WAIT or a missing entry, 0 when ideal and worst prices coincide, and otherwise in [-1, 1] |
| TradeEval.TimingScoreExtremes | src/fx_kline/core/l3_evaluator.py:266-283 | entering at the ideal extreme (low for LONG, high for SHORT) scores -1 and at the worst extreme +1 |
| TradeEval.TimingScoreMonotone | src/fx_kline/core/l3_evaluator.py:266-283 | between the extremes an entry nearer the worst price never scores lower |
| TradeEval.ExitPrice | src/fx_kline/core/l3_evaluator.py:307-327 | the exit-price choice of both directions; its meaning: see PipsStopFirst, PipsTargetThenClose, PipsTargetThenCloseShort and ZeroLevelsAreAbsent |
| TradeEval.PipsOutcome | src/fx_kline/core/l3_evaluator.py:286-329 | `calculate_pips_outcome`; its meaning: see PipsAbsent, PipsStopFirst, PipsTargetThenClose and PipsTargetThenCloseShort |
| TradeEval.PipsAbsent | src/fx_kline/core/l3_evaluator.py:301-302 | pips are None exactly for WAIT or a missing entry |
| TradeEval.PipsStopFirst | src/fx_kline/core/l3_evaluator.py:307-329 | a touched stop is the exit whatever the target says: LONG `(stop - entry)/pip`, SHORT `(entry - stop)/pip` |
| TradeEval.PipsTargetThenClose | src/fx_kline/core/l3_evaluator.py:307-317 | LONG: with the stop untouched, a target the high reached is the exit, `(target - entry)/pip`; with neither, the close, `(close - entry)/pip` |
| TradeEval.PipsTargetThenCloseShort | src/fx_kline/core/l3_evaluator.py:319-327 | SHORT: with the stop untouched, a target the low reached is the exit, `(entry - target)/pip`; with neither, the close, `(entry - close)/pip` |
| TradeEval.ZeroLevelsAreAbsent | src/fx_kline/core/l3_evaluator.py:309-322 | a stop or target of 0 behaves as if absent (Python truthiness) |
| TradeEval.Calibration | src/fx_kline/core/l3_evaluator.py:366-369 | calibration is non-negative, at most 1 for a confidence in [0, 1], and 0 exactly when the confidence equals the outcome |
| TradeEval.ClassifyNames | src/fx_kline/core/l3_evaluator.py:385-391 | a modification classifies as one of the three intervention names or not at all |
| TradeEval.LastInterventionNone | src/fx_kline/core/l3_evaluator.py:380-391 | no intervention type iff no modification classifies |
| TradeEval.LastInterventionWitness | src/fx_kline/core/l3_evaluator.py:384-391 | a present type is the class of some modification after which none classifies |
| TradeEval.LastInterventionOf | src/fx_kline/core/l3_evaluator.py:384-391 | the overwriting loop over the modifications returns exactly `LastIntervention` |
| TradeEval.EvaluateSingleTrade | src/fx_kline/core/l3_evaluator.py:332-410 | every field of the result: the three metrics, `rr_realized` exactly when pips, stop and entry are truthy and the risk is non-zero, calibration exactly with a confidence, mode "hitl" iff modifications are non-empty, the last matching intervention type, and success equal to direction correctness |
| TradeEval.RegimeEntry | src/fx_kline/core/l3_evaluator.py:452-454 | one regime's rate is its share of correct evaluations |
| TradeEval.TypeEntry | src/fx_kline/core/l3_evaluator.py:473-478 | one intervention type's count and success rate |
| TradeEval.FillRegimeAccuracy | src/fx_kline/core/l3_evaluator.py:449-454 | the loop builds exactly `RegimeAccuracy` |
| TradeEval.FillImpact | src/fx_kline/core/l3_evaluator.py:470-478 | the loop builds exactly `ImpactByType` |
| TradeEval.AggregateEvaluations | src/fx_kline/core/l3_evaluator.py:413-489 | with no evaluations every field is 0 or empty; otherwise the totals, the accuracy, the averages (0 when none) and the per-regime map; the intervention fields only in "hitl" mode, with rate and impact only when there is an intervention |
| TradeEval.RegimeAccuracyMeaning | src/fx_kline/core/l3_evaluator.py:449-454 | the regime keys are exactly the truthy regimes present, each rate in [0, 1] |
| TradeEval.ImpactMeaning | src/fx_kline/core/l3_evaluator.py:470-478 | the impact keys are exactly the truthy intervention types present, each counted at least once with a success rate in [0, 1] |
| TradeEval.CountTotalFilters | src/fx_kline/core/l3_evaluator.py:471-476 | the counts over a set of types add up to the evaluations of those types |
| TradeEval.ImpactCountsSum | src/fx_kline/core/l3_evaluator.py:462-478 | the per-type counts add up to `total_interventions` |
| TradeEval.AveragesInUnitRange | src/fx_kline/core/l3_evaluator.py:434-446 | with confidences and calibrations in [0, 1], the average confidence and the average calibration lie in [0, 1] (0 for an empty average) |
| DayEvaluation.HourOf | src/fx_kline/analyst/l3_evaluator.py:278 | the hour of a timestamp lies in 0..23 |
| DayEvaluation.MaxHigh | src/fx_kline/analyst/l3_evaluator.py:93 | `daily_df["high"].max()` is some bar's high and no bar's high exceeds it |
| DayEvaluation.MinLow | src/fx_kline/analyst/l3_evaluator.py:94 | `daily_df["low"].min()` is some bar's low and no bar's low is below it |
| DayEvaluation.DailyStats | src/fx_kline/analyst/l3_evaluator.py:80-104 | `_get_daily_stats`; its meaning: see DailyStatsMeaning, MaxHigh and MinLow |
| DayEvaluation.DailyStatsMeaning | src/fx_kline/analyst/l3_evaluator.py:80-104 | the day's statistics exist iff the pair has a bar on the target date; with well-formed bars the body lies inside the range and the range is non-negative |
| DayEvaluation.PrevDayStats | src/fx_kline/analyst/l3_evaluator.py:106-125 | `_get_prev_day_stats`; its meaning: see PrevDayStatsMeaning |
| DayEvaluation.PrevDayStatsMeaning | src/fx_kline/analyst/l3_evaluator.py:106-125 | the previous day's extremes exist iff the pair has a bar before the target date, so the second emptiness test never fires |
| DayEvaluation.ActualVolatility | src/fx_kline/analyst/l3_evaluator.py:152-158 | the volatility class is one of LOW, MEDIUM and HIGH |
| DayEvaluation.VolatilityThresholds | src/fx_kline/analyst/l3_evaluator.py:152-158 | for a positive ATR: LOW iff `range <= 0.5*atr`, HIGH iff `range >= 1.5*atr`, MEDIUM in between |
| DayEvaluation.VolatilityZeroAtr | src/fx_kline/analyst/l3_evaluator.py:152-158 | for a zero ATR the class is HIGH iff the range is positive, LOW iff negative and MEDIUM iff zero, as numpy's `inf`, `-inf` and NaN ratios fall through the thresholds |
| DayEvaluation.ActualBias | src/fx_kline/analyst/l3_evaluator.py:160-182 | the actual-bias ladder; its meaning: see BiasPriority |
| DayEvaluation.BiasPriority | src/fx_kline/analyst/l3_evaluator.py:161-182 | BULLISH, BEARISH, RANGE and MIXED each hold exactly when their own test passes and no earlier one does; a LOW day is never BULLISH or BEARISH |
| DayEvaluation.JudgePair | src/fx_kline/analyst/l3_evaluator.py:143-196 | the per-pair judgement; its meaning: see NoDataMeaning, VolatilityThresholds, VolatilityZeroAtr and BiasPriority, and EnvStep for its use in the loop |
| DayEvaluation.EnvCountsBounds | src/fx_kline/analyst/l3_evaluator.py:198-203 | both totals count exactly the judged pairs and each correct count is at most its total |
| DayEvaluation.NoDataMeaning | src/fx_kline/analyst/l3_evaluator.py:147-149 | a pair is NO_DATA exactly when its day or its previous day has no bars |
| DayEvaluation.Accuracy | src/fx_kline/analyst/l3_evaluator.py:205-206 | an accuracy is None exactly when its total is 0, and otherwise in [0, 1] |
| DayEvaluation.EnvStep | src/fx_kline/analyst/l3_evaluator.py:142-203 | one more pair sets its own `per_pair` entry and bumps the counters by its judgement |
| DayEvaluation.JudgeAllPairs | src/fx_kline/analyst/l3_evaluator.py:136-203 | the environment loop builds exactly the specified `per_pair` map and counters |
| DayEvaluation.L3Evaluator.EvaluateEnvironment | src/fx_kline/analyst/l3_evaluator.py:131-214 | only the environment section of `results` changes, to the judged map and the metrics |
| DayEvaluation.AvgRangeRatioAbsent | src/fx_kline/analyst/l3_evaluator.py:228-234 | the average range ratio is None iff no listed pair has statistics with a non-zero open |
| DayEvaluation.TopVsBottom | src/fx_kline/analyst/l3_evaluator.py:238-240 | the ratio exists iff both averages exist and the bottom one is non-zero, and then it times the bottom average is the top average |
| DayEvaluation.AverageRangeRatio | src/fx_kline/analyst/l3_evaluator.py:228-234 | the averaging loop returns exactly `AvgRangeRatio` |
| DayEvaluation.L3Evaluator.EvaluateRanking | src/fx_kline/analyst/l3_evaluator.py:220-246 | nothing changes unless both lists are non-empty; otherwise only the ranking metrics change |
| DayEvaluation.ExitOf | src/fx_kline/analyst/l3_evaluator.py:309-324 | the post-entry exit scan; its meaning: see ExitStopFirst and LossAndWinPips, and ScanExit for the loop proved equal to it |
| DayEvaluation.SimulateOne | src/fx_kline/analyst/l3_evaluator.py:261-338 | one strategy of `simulate_trades`; its meaning: see SimulateStepEffect, StepWonFilled, EntryIsFirstSessionTouch and LossAndWinPips, and SimulateStrategy for the loop body proved equal to it |
| DayEvaluation.OutcomeNames | src/fx_kline/analyst/l3_evaluator.py:302-321 | the result names tell the outcomes apart |
| DayEvaluation.SimulateStepEffect | src/fx_kline/analyst/l3_evaluator.py:260-338 | a strategy whose pair has no frame changes nothing; otherwise its record is appended to its own pair's list only, and its pips are added to the total |
| DayEvaluation.StepWonFilled | src/fx_kline/analyst/l3_evaluator.py:305-321 | a win is always a filled strategy |
| DayEvaluation.SimulateCounters | src/fx_kline/analyst/l3_evaluator.py:255-321 | `win_tp_count <= filled_count <= num_strategies` |
| DayEvaluation.EntryIsFirstSessionTouch | src/fx_kline/analyst/l3_evaluator.py:275-300 | a filled strategy entered at `strict_limit`, at the first bar of the day inside an enabled session whose range overlaps the zone |
| DayEvaluation.LossAndWinPips | src/fx_kline/analyst/l3_evaluator.py:302-328 | a LOSS records `(stop - limit) * multiplier` and a WIN `(target - limit) * multiplier`, each rounded to one decimal; NO_ENTRY adds 0 pips |
| DayEvaluation.ExitStopFirst | src/fx_kline/analyst/l3_evaluator.py:310-321 | a WIN bar never reached the stop and all earlier bars reached neither level; a LOSS bar reached the stop; HOLD means no bar reached either |
| DayEvaluation.SessionBars | src/fx_kline/analyst/l3_evaluator.py:276-283 | the session mask keeps exactly the day's bars in an enabled session (9-14 TOKYO, 16-20 LONDON), in order |
| DayEvaluation.FindEntry | src/fx_kline/analyst/l3_evaluator.py:293-300 | the entry scan stops at the first session bar overlapping the zone |
| DayEvaluation.ScanExit | src/fx_kline/analyst/l3_evaluator.py:302-324 | the exit scan over all later bars returns exactly `ExitOf` |
| DayEvaluation.ReplayEntry | src/fx_kline/analyst/l3_evaluator.py:302-338 | the part of the loop body after the entry scan returns exactly `ReplayDay` |
| DayEvaluation.SimulateStrategy | src/fx_kline/analyst/l3_evaluator.py:261-338 | the loop body for one strategy returns exactly `SimulateOne` |
| DayEvaluation.L3Evaluator.SimulateTrades | src/fx_kline/analyst/l3_evaluator.py:252-349 | only the strategies section of `results` changes, to the replayed records and metrics |
| DayEvaluation.L3Evaluator.constructor | src/fx_kline/analyst/l3_evaluator.py:19-74 | the inputs are kept and `results` starts as the initial record |
| DayEvaluation.L3Evaluator.Run | src/fx_kline/analyst/l3_evaluator.py:355-375 | the three evaluations in order, then the summary copied from their metrics |
| DayEvaluation.SummaryRates | src/fx_kline/analyst/l3_evaluator.py:205-214 | bias accuracy is None iff no pair was judged; fill rate None iff no strategies; win rate None iff no fills; every present rate in [0, 1] |
| Fetcher.ExtractBusinessDays | src/fx_kline/core/data_fetcher.py:92-107 | a count that is read is positive |
| Fetcher.ExtractBusinessDaysRoundTrip | src/fx_kline/core/data_fetcher.py:92-107 | `"<n>d"` with n > 0, optionally followed by one newline (`$` in the pattern), reads back as n |
| Fetcher.ExtractBusinessDaysShape | src/fx_kline/core/data_fetcher.py:92-107 | conversely, a period that is read is digits followed by `d` and denotes that count |
| Fetcher.ExtractBusinessDaysRefuses | src/fx_kline/core/data_fetcher.py:95-107 | "3mo", "0d" and "5D" are refused |
| Fetcher.ParseInterval | src/fx_kline/core/data_fetcher.py:110-122 | value and unit are present together, the unit lower-case letters |
| Fetcher.ParseIntervalRoundTrip | src/fx_kline/core/data_fetcher.py:110-122 | `"<n><unit>"` with a lower-case unit reads back as `(n, unit)` |
| Fetcher.ParseIntervalShape | src/fx_kline/core/data_fetcher.py:110-122 | conversely, an interval that is read is digits then its lower-case unit (up to one final newline) and the count is those digits' value, so anything else gives `(None, None)` |
| Fetcher.ParseIntervalRefuses | src/fx_kline/core/data_fetcher.py:112-114 | `"h"`, `"15"` and `"1H"` give `(None, None)` |
| Fetcher.CountUniqueBusinessDays | src/fx_kline/core/data_fetcher.py:125-134 | `_count_unique_business_days`; its meaning: see CountUniqueMeaning |
| Fetcher.CountUniqueMeaning | src/fx_kline/core/data_fetcher.py:125-134 | the count is the number of distinct days, 0 exactly for an empty frame |
| Fetcher.SelectFrame | src/fx_kline/core/data_fetcher.py:229-232 | the choice between primary and fallback frames; its meaning: see SelectFrameSecondTestDead |
| Fetcher.SelectFrameSecondTestDead | src/fx_kline/core/data_fetcher.py:229-232 | the `elif` never decides anything; an empty primary always yields the fallback |
| Fetcher.EmptyResultError | src/fx_kline/core/data_fetcher.py:235-236 | AllWeekendData iff raw data was present and weekends were excluded, else NoDataAvailable |
| Fetcher.TrimToBusinessDays | src/fx_kline/core/data_fetcher.py:247-252 | the trim to the requested days; its meaning: see TrimNoOp, TrimKeepsLastDays and TrimmedDays |
| Fetcher.TrimNoOp | src/fx_kline/core/data_fetcher.py:247-250 | with no more distinct days than requested the frame is unchanged |
| Fetcher.TrimKeepsLastDays | src/fx_kline/core/data_fetcher.py:247-252 | otherwise rows keep their order, exactly the rows of the last n distinct days are kept, none of their rows is lost, and n days remain |
| Fetcher.TrimmedDays | src/fx_kline/core/data_fetcher.py:250-252 | the trimmed frame has exactly n distinct days |
| Fetcher.LastDays | src/fx_kline/core/data_fetcher.py:249-251 | the last n distinct days are n days, all present in the frame |
| Fetcher.FilterDays | src/fx_kline/core/data_fetcher.py:252 | filtering on days present in the frame leaves exactly those days |
| Fetcher.FetchedFrame | src/fx_kline/core/data_fetcher.py:209-252 | the frame `fetch_single_ohlc` builds; its meaning: see FetchedFrameProps and EmptyResultError |
| Fetcher.FetchedFrameProps | src/fx_kline/core/data_fetcher.py:209-252 | a fetched frame is non-empty and spans at most the requested business days; an empty outcome is AllWeekendData iff a raw download had rows and weekends were excluded |
| Fetcher.HeaderLines | src/fx_kline/core/data_fetcher.py:479-482 | a header line exactly when asked for and rows exist |
| Fetcher.RowLines | src/fx_kline/core/data_fetcher.py:485-487 | one line per row, its values joined by commas; CsvRoundTrip and CsvFields show that the lines give back the rows |
| Fetcher.ExportToCsvString | src/fx_kline/core/data_fetcher.py:466-489 | the loop's output is the header and row lines joined by newlines |
| Fetcher.CsvRoundTrip | src/fx_kline/core/data_fetcher.py:477-489 | with no newline inside the data, splitting the export on newlines gives back the header and one line per row; no rows give the empty string |
| Fetcher.CsvFields | src/fx_kline/core/data_fetcher.py:486-487 | with no comma inside the values, splitting a row line on commas gives back its values |
| Fetcher.GetBatchCsvExport | src/fx_kline/core/data_fetcher.py:492-507 | the loop builds exactly `BatchExports` |
| Fetcher.BatchExportsKeys | src/fx_kline/core/data_fetcher.py:503-505 | the keys are exactly the `pair_interval_period` names of the results |
| Fetcher.BatchExportsLastWins | src/fx_kline/core/data_fetcher.py:503-505 | each key holds the export of the last result with that name |
| Fetcher.BatchKeyParses | src/fx_kline/core/data_fetcher.py:504 | a batch key, as a `.csv` file name, is read back by the analysis file-name parser |
| McpTools.CategorizeError | src/fx_kline/mcp/tools.py:23-41 | `_categorize_error`; its meaning: see CategoryMeaning |
| McpTools.GenerateHint | src/fx_kline/mcp/tools.py:44-62 | `_generate_hint`; its meaning: see KnownHintDiffers, BatchSizeHint and UnknownErrorDefaults |
| McpTools.IsRecoverable | src/fx_kline/mcp/tools.py:65-81 | `_is_recoverable`; its meaning: see RecoverableNotServer and FetcherEmptyErrorsRecoverable |
| McpTools.SuggestTools | src/fx_kline/mcp/tools.py:84-102 | `_suggest_tools`; its meaning: see SuggestToolsOnlyValidation and ToolList |
| McpTools.CategoryMeaning | src/fx_kline/mcp/tools.py:33-41 | ClientError exactly for ValidationError and BatchSizeExceeded, DataError exactly for the three data errors, ServerError for everything else including UnexpectedError |
| McpTools.RecoverableNotServer | src/fx_kline/mcp/tools.py:33-81 | a recoverable error is never a ServerError, every ClientError is recoverable, and NoOHLCColumns is the only non-recoverable DataError |
| McpTools.ToolList | src/fx_kline/mcp/tools.py:94-102 | the suggested tools, as a JSON list, hold no datetime |
| McpTools.UnknownErrorDefaults | src/fx_kline/mcp/tools.py:44-102 | an unknown type gets the default hint and no tools |
| McpTools.SuggestToolsOnlyValidation | src/fx_kline/mcp/tools.py:94-102 | only ValidationError suggests any tools |
| McpTools.KnownHintDiffers | src/fx_kline/mcp/tools.py:54-62 | every known type has a hint other than the default |
| McpTools.BatchSizeHint | src/fx_kline/mcp/tools.py:44-62 | the BatchSizeExceeded hint names the limit 50 |
| McpTools.FetcherEmptyErrorsRecoverable | src/fx_kline/mcp/tools.py:33-81 | the fetcher's two empty-result errors are recoverable data errors |
| McpTools.Normalize | src/fx_kline/mcp/tools.py:105-122 | `_normalize_datetime`; its meaning: see NormalizeReplaces, NormalizeFixes and NormalizeIdempotent |
| McpTools.NormalizeReplaces | src/fx_kline/mcp/tools.py:115-122 | every datetime becomes its ISO string, dictionaries keep their keys and lists their length and order, other values are unchanged, and no datetime is left |
| McpTools.NormalizeFixes | src/fx_kline/mcp/tools.py:115-122 | a value without datetimes comes back unchanged |
| McpTools.NormalizeIdempotent | src/fx_kline/mcp/tools.py:105-122 | normalising twice is normalising once |
| McpTools.ErrorObjectNoDateTime | src/fx_kline/mcp/tools.py:232-243 | an error object built from datetime-free context holds no datetime |
| McpTools.PayloadNormalised | src/fx_kline/mcp/tools.py:230-245 | normalising the refusal payload leaves it unchanged |
| McpTools.PrepareBatch | src/fx_kline/mcp/tools.py:228-254 | the guard and request building of `fetch_ohlc_batch_tool`; its meaning: see PrepareBatchGuard and BatchLimitEdge |
| McpTools.PrepareBatchGuard | src/fx_kline/mcp/tools.py:228-252 | over 50 requests is a recoverable BatchSizeExceeded client error; up to 50 requests with pairs are all built, in order, with defaults "1d" and "30d" |
| McpTools.BatchLimitEdge | src/fx_kline/mcp/tools.py:228-245 | exactly 50 requests pass the guard, 51 do not |

## Left out

- File and network I/O is not modelled: `load_ohlc_csv`, `collect_input_files`, `write_analysis`, `load_prediction`, `load_actual_outcome`, `write_evaluation`, every `main`, the yfinance downloads and the asyncio and thread-pool batch plumbing. The frames and JSON records they would produce are inputs of the model.
- `datetime.now()`, `get_jst_now()` and `isoformat()` are clock readings. The evaluators take them as string parameters, and the day evaluator takes the parsed target date as an integer.
- The `"data"` unwrapping of `market_environment` and `l3.get(...)` with defaults are not modelled. The environment predictions arrive as a list of pairs in dictionary order.
- `ranking.per_pair` is not modelled, because the source never writes to it and it stays `{}`.
- A KeyError for a strategy without `pair`, `entry` or `exit` is not modelled. Strategies are records with every field present.
- `modification_type` values that are not strings are not modelled. Modifications are string-to-string maps.
- Python's `round` rounds exact halves to even, and binary floats rarely hold exact halves. The model rounds half up on reals (`RoundTo`), so results can differ on exact ties.
- `str.lower()` and `str.upper()` are modelled on ASCII letters only.
- TradeEval.PipsOutcome requires a non-zero `pip_value`, because the source would raise ZeroDivisionError there. Every caller in the source passes 0.01.
- TradeEval.ImpactCountsSum assumes no evaluation carries the empty intervention type. The source's `if e.intervention_type` drops such a type, so with one present the counts would fall short of the total. The classifier never produces the empty type.
- Three branches of the `rsi.empty` ladder of `compute_rsi` are modelled as written but cannot be reached:
  - `latest_loss > 0 and latest_gain == 0` (returning 0). An empty `rsi` means every defined average loss is 0, so this branch never fires; RSI 0 comes from the regular series instead (Indicators.RsiFalling).
  - the fallback for both averages positive, for the same reason.
  - the final `return None`, because the averages are never negative.
- The `returns.std()` fallback of `compute_average_volatility` can only be reached for an empty frame, where it is also empty. The model returns None there.
- `\d` in the regular expressions is matched as ASCII digits only; Python also accepts other Unicode decimal digits.
- The `if next_slice.shape[0] < 3: break` in `_compute_daily_reversals` is left out of the loop, because `range(n - 3)` never reaches an index where it fires.
- The NoOHLCColumns path of `fetch_single_ohlc` is not modelled: column selection and pandas reshaping are outside the model. The error type is still classified by `McpTools`.
- The `ValueError` of `_get_time_column` for a frame with neither a `datetime` nor a `timestamp` column is not modelled. Level-engine bars always carry a timestamp.
- Analysis.FileName does not strip a trailing `/`: `Path("d/x.csv/").name` is `x.csv`, but the model gives the empty name (and so a mismatch error). No caller passes such a path.
- Fetcher.GetBatchCsvExport takes the `export_to_csv` renderer as a parameter, because that pandas-based function is not part of this model.
- Values inside a CSV row are strings. Python's `str()` of floats and ints is not modelled.
- pandas sorts are modelled as stable insertion sorts. `sort_values` is not stable by default, so rows with equal timestamps may be ordered differently.
- ATR and the trend rolling mean are modelled on series without gaps, after the `dropna` of the cleaned frame. The `df.shape[0] < 2` test of `compute_atr` is applied to the frame passed in.
- Reversals.ComputeIntradayReversals and Reversals.ComputeFourHourLevels: the 48-bar and 84-bar example frames of the level-engine tests are not reproduced as concrete lemmas. Evaluating them symbolically is too costly; the general shape and candidate lemmas cover those branches.
