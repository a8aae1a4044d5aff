/**
 * The day evaluator of the analyst layer: given the day's predictions and
 * the bars of that day, it judges each pair's volatility and bias, compares
 * the bar ranges of the top and bottom ranked pairs, and replays every
 * strategy bar by bar, accumulating everything into one results record.
 */
module DayEvaluation {
  import opened Wrappers
  import opened Seqs
  import opened Text
  import opened Indicators

  // ---------------------------------------------------------------------
  // Market data
  // ---------------------------------------------------------------------

  /** One bar; `ts` is local (JST) time in seconds, so its day and hour are local too. */
  datatype Bar = Bar(ts: int, open: real, high: real, low: real, close: real)

  /** The bars per pair, the ATR per pair, and the evaluated calendar day. */
  datatype Market = Market(bars: map<string, seq<Bar>>, atr: map<string, real>, targetDate: int)

  function DateOf(ts: int): int { ts / 86400 }

  function HourOf(ts: int): (h: int)
    ensures 0 <= h < 24
  {
    (ts % 86400) / 3600
  }

  function OnDay(d: int): Bar -> bool { (b: Bar) => DateOf(b.ts) == d }
  function BeforeDay(d: int): Bar -> bool { (b: Bar) => DateOf(b.ts) < d }
  function AfterTime(t: int): Bar -> bool { (b: Bar) => b.ts > t }

  /** The highest high of the bars. */
  function MaxHigh(bars: seq<Bar>): (h: real)
    requires bars != []
    ensures exists k :: 0 <= k < |bars| && bars[k].high == h
    ensures forall k :: 0 <= k < |bars| ==> bars[k].high <= h
  {
    if |bars| == 1 then bars[0].high
    else
      var rest := MaxHigh(bars[1..]);
      assert forall k :: 1 <= k < |bars| ==> bars[k] == bars[1..][k - 1];
      if bars[0].high >= rest then bars[0].high else rest
  }

  /** The lowest low of the bars. */
  function MinLow(bars: seq<Bar>): (l: real)
    requires bars != []
    ensures exists k :: 0 <= k < |bars| && bars[k].low == l
    ensures forall k :: 0 <= k < |bars| ==> bars[k].low >= l
  {
    if |bars| == 1 then bars[0].low
    else
      var rest := MinLow(bars[1..]);
      assert forall k :: 1 <= k < |bars| ==> bars[k] == bars[1..][k - 1];
      if bars[0].low <= rest then bars[0].low else rest
  }

  /** The daily statistics of one pair on the evaluated day. */
  datatype Stats = Stats(open: real, close: real, high: real, low: real, range: real, bodyHigh: real, bodyLow: real)

  /** The previous trading day's extremes. */
  datatype PrevStats = PrevStats(high: real, low: real)

  /** `_get_daily_stats(pair)`. */
  function DailyStats(m: Market, pair: string): Option<Stats> {
    if pair !in m.bars then None
    else
      var day := Filter(m.bars[pair], OnDay(m.targetDate));
      if day == [] then None
      else
        var o := day[0].open;
        var c := day[|day| - 1].close;
        var h := MaxHigh(day);
        var l := MinLow(day);
        Some(Stats(o, c, h, l, h - l, MaxReal(o, c), MinReal(o, c)))
  }

  /** `_get_prev_day_stats(pair)`: the calendar day of the last earlier bar in frame order. */
  function PrevDayStats(m: Market, pair: string): Option<PrevStats> {
    if pair !in m.bars then None
    else
      var prev := Filter(m.bars[pair], BeforeDay(m.targetDate));
      if prev == [] then None
      else
        var group := Filter(prev, OnDay(DateOf(prev[|prev| - 1].ts)));
        if group == [] then None else Some(PrevStats(MaxHigh(group), MinLow(group)))
  }

  /** A bar whose open and close lie between its low and its high. */
  predicate WellFormedBar(b: Bar) { b.low <= b.open <= b.high && b.low <= b.close <= b.high }

  /**
   * The day's statistics are present iff the pair has a bar on that day;
   * they use the first open and the last close, and with well-formed bars
   * the body lies inside the range and the range is non-negative.
   */
  lemma DailyStatsMeaning(m: Market, pair: string)
    ensures DailyStats(m, pair).Some? <==>
      pair in m.bars && exists k :: 0 <= k < |m.bars[pair]| && DateOf(m.bars[pair][k].ts) == m.targetDate
    ensures DailyStats(m, pair).Some? && (forall k :: 0 <= k < |m.bars[pair]| ==> WellFormedBar(m.bars[pair][k])) ==>
      var s := DailyStats(m, pair).value;
      s.low <= s.bodyLow <= s.bodyHigh <= s.high && s.range >= 0.0
  {
    if pair in m.bars {
      var bars := m.bars[pair];
      var day := Filter(bars, OnDay(m.targetDate));
      if exists k :: 0 <= k < |bars| && DateOf(bars[k].ts) == m.targetDate {
        var k :| 0 <= k < |bars| && DateOf(bars[k].ts) == m.targetDate;
        assert bars[k] in bars;
        assert bars[k] in day;
      }
      if day != [] {
        assert day[0] in day;
        var j :| 0 <= j < |bars| && bars[j] == day[0];
        assert DateOf(bars[j].ts) == m.targetDate;
        if forall k :: 0 <= k < |bars| ==> WellFormedBar(bars[k]) {
          assert day[|day| - 1] in day;
          assert WellFormedBar(day[0]) && WellFormedBar(day[|day| - 1]);
        }
      }
    }
  }

  /**
   * The previous day's extremes are present iff the pair has a bar before
   * the evaluated day, so the emptiness test on the last day's group never
   * fires.
   */
  lemma PrevDayStatsMeaning(m: Market, pair: string)
    ensures PrevDayStats(m, pair).Some? <==>
      pair in m.bars && exists k :: 0 <= k < |m.bars[pair]| && DateOf(m.bars[pair][k].ts) < m.targetDate
  {
    if pair in m.bars {
      var bars := m.bars[pair];
      var prev := Filter(bars, BeforeDay(m.targetDate));
      if exists k :: 0 <= k < |bars| && DateOf(bars[k].ts) < m.targetDate {
        var k :| 0 <= k < |bars| && DateOf(bars[k].ts) < m.targetDate;
        assert bars[k] in bars;
        assert bars[k] in prev;
        var last := prev[|prev| - 1];
        assert last in prev;
        assert last in Filter(prev, OnDay(DateOf(last.ts)));
      }
      if prev != [] {
        assert prev[0] in prev;
        var j :| 0 <= j < |bars| && bars[j] == prev[0];
        assert DateOf(bars[j].ts) < m.targetDate;
      }
    }
  }

  // ---------------------------------------------------------------------
  // Environment judgement
  // ---------------------------------------------------------------------

  /** The ATR of a pair, 1.0 when none is given. */
  function AtrFor(m: Market, pair: string): real {
    if pair in m.atr then m.atr[pair] else 1.0
  }

  /**
   * The volatility class from `range / atr`. A zero ATR makes the ratio
   * infinite (a positive range), minus infinite (a negative one) or NaN
   * (a zero range), which the thresholds then see as HIGH, LOW and MEDIUM.
   */
  function ActualVolatility(range: real, atr: real): (v: string)
    ensures v in {"LOW", "MEDIUM", "HIGH"}
  {
    if atr == 0.0 then (if range > 0.0 then "HIGH" else if range < 0.0 then "LOW" else "MEDIUM")
    else
      var ratio := range / atr;
      if ratio <= 0.5 then "LOW" else if ratio >= 1.5 then "HIGH" else "MEDIUM"
  }

  /** The stored `vol_ratio`; `None` stands for the non-finite ratio of a zero ATR. */
  function VolRatio(range: real, atr: real): Option<real> {
    if atr == 0.0 then None else Some(range / atr)
  }

  /** For a positive ATR: LOW iff the range is at most half of it, HIGH iff at least one and a half times it. */
  lemma VolatilityThresholds(range: real, atr: real)
    requires atr > 0.0
    ensures ActualVolatility(range, atr) == "LOW" <==> range <= 0.5 * atr
    ensures ActualVolatility(range, atr) == "HIGH" <==> range >= 1.5 * atr
    ensures ActualVolatility(range, atr) == "MEDIUM" <==> 0.5 * atr < range < 1.5 * atr
  {
    var ratio := range / atr;
    assert range == ratio * atr;
    assert ratio <= 0.5 <==> range <= 0.5 * atr;
    assert ratio >= 1.5 <==> range >= 1.5 * atr;
  }

  /**
   * For a zero ATR: the numpy ratio is `inf` (HIGH) for a positive range,
   * `-inf` (LOW) for a negative one and NaN, which fails both threshold
   * tests (MEDIUM), for a zero range.
   */
  lemma VolatilityZeroAtr(range: real)
    ensures ActualVolatility(range, 0.0) == "HIGH" <==> range > 0.0
    ensures ActualVolatility(range, 0.0) == "LOW" <==> range < 0.0
    ensures ActualVolatility(range, 0.0) == "MEDIUM" <==> range == 0.0
  {
  }

  /** A close above the open and above the previous high, on a day that was not quiet. */
  predicate IsBull(s: Stats, prev: PrevStats, vol: string) {
    s.close > s.open && s.close > prev.high && vol != "LOW"
  }

  predicate IsBear(s: Stats, prev: PrevStats, vol: string) {
    s.close < s.open && s.close < prev.low && vol != "LOW"
  }

  /** The day's body stayed inside the previous day's range. */
  predicate IsRange(s: Stats, prev: PrevStats) {
    s.bodyHigh <= prev.high && s.bodyLow >= prev.low
  }

  /** The bias, checked BULLISH, BEARISH, RANGE, then MIXED. */
  function ActualBias(s: Stats, prev: PrevStats, vol: string): string {
    if IsBull(s, prev, vol) then "BULLISH"
    else if IsBear(s, prev, vol) then "BEARISH"
    else if IsRange(s, prev) then "RANGE"
    else "MIXED"
  }

  /**
   * Each bias holds exactly when its own test passes and no earlier one
   * does; BULLISH and BEARISH never come from a LOW-volatility day.
   */
  lemma BiasPriority(s: Stats, prev: PrevStats, vol: string)
    ensures ActualBias(s, prev, vol) == "BULLISH" <==> IsBull(s, prev, vol)
    ensures ActualBias(s, prev, vol) == "BEARISH" <==> IsBear(s, prev, vol)
    ensures ActualBias(s, prev, vol) == "RANGE" <==> !IsBull(s, prev, vol) && !IsBear(s, prev, vol) && IsRange(s, prev)
    ensures ActualBias(s, prev, vol) == "MIXED" <==> !IsBull(s, prev, vol) && !IsBear(s, prev, vol) && !IsRange(s, prev)
    ensures vol == "LOW" ==> ActualBias(s, prev, vol) in {"RANGE", "MIXED"}
  {
  }

  /** What the prediction said about one pair. */
  datatype EnvPrediction = EnvPrediction(bias: Option<string>, volExpect: Option<string>)

  /** One entry of the environment's `per_pair`. */
  datatype PairEnv =
    | NoData
    | Judged(predictedBias: Option<string>, predictedVol: Option<string>, actualBias: string, actualVol: string,
             biasMatch: bool, volMatch: bool, volRatio: Option<real>)

  /** The judgement of one pair, or `NoData` when either day's statistics are missing. */
  function JudgePair(m: Market, pair: string, pred: EnvPrediction): PairEnv {
    var stats := DailyStats(m, pair);
    var prevStats := PrevDayStats(m, pair);
    if stats.None? || prevStats.None? then NoData
    else
      var atr := AtrFor(m, pair);
      var vol := ActualVolatility(stats.value.range, atr);
      var bias := ActualBias(stats.value, prevStats.value, vol);
      Judged(pred.bias, pred.volExpect, bias, vol, pred.bias == Some(bias), pred.volExpect == Some(vol),
             VolRatio(stats.value.range, atr))
  }

  /** `per_pair` after the loop: each pair maps to the judgement of its last entry. */
  function EnvPerPair(m: Market, items: seq<(string, EnvPrediction)>): map<string, PairEnv> {
    if items == [] then map[]
    else
      var (pair, pred) := items[|items| - 1];
      EnvPerPair(m, items[..|items| - 1])[pair := JudgePair(m, pair, pred)]
  }

  /** The four counters of the environment loop. */
  datatype Tally = Tally(biasCorrect: nat, biasTotal: nat, volCorrect: nat, volTotal: nat)

  function EnvCounts(m: Market, items: seq<(string, EnvPrediction)>): Tally {
    if items == [] then Tally(0, 0, 0, 0)
    else
      var (pair, pred) := items[|items| - 1];
      CountJudgement(EnvCounts(m, items[..|items| - 1]), JudgePair(m, pair, pred))
  }

  /** One pass of the loop's counting: a judged pair adds to both totals and to each matching count. */
  function CountJudgement(t: Tally, j: PairEnv): Tally {
    match j
    case NoData => t
    case Judged(_, _, _, _, biasMatch, volMatch, _) =>
      Tally(t.biasCorrect + (if biasMatch then 1 else 0), t.biasTotal + 1,
            t.volCorrect + (if volMatch then 1 else 0), t.volTotal + 1)
  }

  /** The entries judged, that is, with both days' statistics present. */
  function JudgedCount(m: Market, items: seq<(string, EnvPrediction)>): nat {
    if items == [] then 0
    else
      var (pair, pred) := items[|items| - 1];
      JudgedCount(m, items[..|items| - 1]) + (if JudgePair(m, pair, pred).Judged? then 1 else 0)
  }

  /**
   * Both totals count exactly the judged entries, pairs without data count
   * nowhere, and neither correct count exceeds its total.
   */
  lemma {:induction false} EnvCountsBounds(m: Market, items: seq<(string, EnvPrediction)>)
    ensures var t := EnvCounts(m, items);
      && t.biasTotal == t.volTotal == JudgedCount(m, items)
      && t.biasCorrect <= t.biasTotal && t.volCorrect <= t.volTotal
  {
    if items != [] {
      EnvCountsBounds(m, items[..|items| - 1]);
    }
  }

  /** A pair is `NO_DATA` exactly when its day or its previous day has no bars. */
  lemma NoDataMeaning(m: Market, items: seq<(string, EnvPrediction)>, pair: string)
    requires items != [] && items[|items| - 1].0 == pair
    ensures EnvPerPair(m, items)[pair] == NoData <==>
      DailyStats(m, pair).None? || PrevDayStats(m, pair).None?
  {
  }

  datatype EnvMetrics = EnvMetrics(biasAccuracyRate: Option<real>, volAccuracyRate: Option<real>,
                                   biasCorrect: Option<nat>, biasTotal: Option<nat>)

  datatype EnvironmentResult = EnvironmentResult(perPair: map<string, PairEnv>, metrics: EnvMetrics)

  /** `correct / total`, or `None` when nothing was judged. */
  function Accuracy(correct: nat, total: nat): (r: Option<real>)
    requires correct <= total
    ensures r.None? <==> total == 0
    ensures r.Some? ==> 0.0 <= r.value <= 1.0
  {
    if total > 0 then Some(Ratio(correct, total)) else None
  }

  /** The environment section after `evaluate_environment`. */
  function EnvironmentOf(m: Market, items: seq<(string, EnvPrediction)>): EnvironmentResult {
    var t := EnvCounts(m, items);
    EnvCountsBounds(m, items);
    EnvironmentResult(EnvPerPair(m, items),
      EnvMetrics(Accuracy(t.biasCorrect, t.biasTotal), Accuracy(t.volCorrect, t.volTotal),
                 Some(t.biasCorrect), Some(t.biasTotal)))
  }

  /** What one more item does to the per-pair map and to the counters. */
  lemma EnvStep(m: Market, items: seq<(string, EnvPrediction)>, i: nat)
    requires i < |items|
    ensures EnvPerPair(m, items[..i + 1]) == EnvPerPair(m, items[..i])[items[i].0 := JudgePair(m, items[i].0, items[i].1)]
    ensures EnvCounts(m, items[..i + 1]) == CountJudgement(EnvCounts(m, items[..i]), JudgePair(m, items[i].0, items[i].1))
  {
    assert items[..i + 1][..i] == items[..i];
  }

  /** The counter updates in one pass of the environment loop. */
  method CountPair(biasCorrect: nat, biasTotal: nat, volCorrect: nat, volTotal: nat, judged: PairEnv)
    returns (biasCorrect': nat, biasTotal': nat, volCorrect': nat, volTotal': nat)
    ensures Tally(biasCorrect', biasTotal', volCorrect', volTotal')
         == CountJudgement(Tally(biasCorrect, biasTotal, volCorrect, volTotal), judged)
  {
    biasCorrect', biasTotal', volCorrect', volTotal' := biasCorrect, biasTotal, volCorrect, volTotal;
    if judged.Judged? {
      biasTotal' := biasTotal' + 1;
      volTotal' := volTotal' + 1;
      if judged.biasMatch {
        biasCorrect' := biasCorrect' + 1;
      }
      if judged.volMatch {
        volCorrect' := volCorrect' + 1;
      }
    }
  }

  /** The loop of `evaluate_environment`: judge each pair in turn and keep the four counters. */
  method JudgeAllPairs(m: Market, items: seq<(string, EnvPrediction)>)
    returns (perPair: map<string, PairEnv>, biasCorrect: nat, biasTotal: nat, volCorrect: nat, volTotal: nat)
    ensures perPair == EnvPerPair(m, items)
    ensures Tally(biasCorrect, biasTotal, volCorrect, volTotal) == EnvCounts(m, items)
  {
    perPair := map[];
    biasCorrect, biasTotal, volCorrect, volTotal := 0, 0, 0, 0;
    var i := 0;
    while i < |items|
      invariant 0 <= i <= |items|
      invariant perPair == EnvPerPair(m, items[..i])
      invariant Tally(biasCorrect, biasTotal, volCorrect, volTotal) == EnvCounts(m, items[..i])
    {
      var (pair, pred) := items[i];
      var judged := JudgePair(m, pair, pred);
      EnvStep(m, items, i);
      perPair := perPair[pair := judged];
      biasCorrect, biasTotal, volCorrect, volTotal := CountPair(biasCorrect, biasTotal, volCorrect, volTotal, judged);
      i := i + 1;
    }
    assert items[..|items|] == items;
  }

  // ---------------------------------------------------------------------
  // Ranking
  // ---------------------------------------------------------------------

  /** The range-to-open ratios of the pairs with statistics and a non-zero open, in order. */
  function RangeRatios(m: Market, pairs: seq<string>): seq<real> {
    if pairs == [] then []
    else
      var s := DailyStats(m, pairs[|pairs| - 1]);
      RangeRatios(m, pairs[..|pairs| - 1])
        + (if s.Some? && s.value.open != 0.0 then [s.value.range / s.value.open] else [])
  }

  /** `get_avg_range_ratio(pairs)`. */
  function AvgRangeRatio(m: Market, pairs: seq<string>): Option<real> {
    var vals := RangeRatios(m, pairs);
    if vals == [] then None else Some(Mean(vals))
  }

  /** The average is absent iff no listed pair has statistics with a non-zero open. */
  lemma {:induction false} AvgRangeRatioAbsent(m: Market, pairs: seq<string>)
    ensures AvgRangeRatio(m, pairs).None? <==>
      forall k :: 0 <= k < |pairs| ==> DailyStats(m, pairs[k]).None? || DailyStats(m, pairs[k]).value.open == 0.0
  {
    if pairs != [] {
      var init := pairs[..|pairs| - 1];
      AvgRangeRatioAbsent(m, init);
      assert forall k :: 0 <= k < |init| ==> init[k] == pairs[k];
    }
  }

  /** The top-versus-bottom ratio, absent when either average is absent or the bottom one is 0. */
  function TopVsBottom(avgTop: Option<real>, avgBottom: Option<real>): (r: Option<real>)
    ensures r.Some? <==> avgTop.Some? && avgBottom.Some? && avgBottom.value != 0.0
    ensures r.Some? ==> r.value * avgBottom.value == avgTop.value
  {
    if avgTop.Some? && avgBottom.Some? && avgBottom.value != 0.0 then Some(avgTop.value / avgBottom.value) else None
  }

  datatype RankMetrics = RankMetrics(avgTop3RangeRatio: Option<real>, avgBottom3RangeRatio: Option<real>,
                                     topVsBottomRangeRatio: Option<real>)

  datatype RankingResult = RankingResult(top3: seq<string>, bottom3: seq<string>, metrics: RankMetrics)

  function RankingMetricsOf(m: Market, top3: seq<string>, bottom3: seq<string>): RankMetrics {
    var avgTop := AvgRangeRatio(m, top3);
    var avgBottom := AvgRangeRatio(m, bottom3);
    RankMetrics(avgTop, avgBottom, TopVsBottom(avgTop, avgBottom))
  }

  /** The averaging loop of `get_avg_range_ratio`. */
  method AverageRangeRatio(m: Market, pairs: seq<string>) returns (avg: Option<real>)
    ensures avg == AvgRangeRatio(m, pairs)
  {
    var vals: seq<real> := [];
    var i := 0;
    while i < |pairs|
      invariant 0 <= i <= |pairs|
      invariant vals == RangeRatios(m, pairs[..i])
    {
      var s := DailyStats(m, pairs[i]);
      if s.Some? && s.value.open != 0.0 {
        vals := vals + [s.value.range / s.value.open];
      }
      assert pairs[..i + 1][..i] == pairs[..i];
      i := i + 1;
    }
    assert pairs[..|pairs|] == pairs;
    avg := if vals == [] then None else Some(Mean(vals));
  }

  // ---------------------------------------------------------------------
  // Strategy replay
  // ---------------------------------------------------------------------

  /** One strategy: its pair, its sessions, its entry zone and strict limit, its stop and target. */
  datatype Strategy = Strategy(
    pair: string,
    strategyType: Option<string>,
    validSessions: seq<string>,
    zoneMin: real,
    zoneMax: real,
    strictLimit: real,
    stopLoss: real,
    takeProfit: real)

  datatype TradeOutcome = NoEntry | Hold | Loss | Win

  function OutcomeName(o: TradeOutcome): string {
    match o
    case NoEntry => "NO_ENTRY"
    case Hold => "HOLD"
    case Loss => "LOSS"
    case Win => "WIN"
  }

  /** The result names tell the outcomes apart. */
  lemma OutcomeNames(o: TradeOutcome)
    ensures OutcomeName(o) == "NO_ENTRY" <==> o == NoEntry
    ensures OutcomeName(o) == "LOSS" <==> o == Loss
    ensures OutcomeName(o) == "WIN" <==> o == Win
  {
  }

  /** One record of the strategies' `per_pair` lists. */
  datatype TradeRecord =
    | NoMarketData
    | Simulated(strategyType: Option<string>, entryTime: Option<int>, entryPrice: Option<real>,
                result: string, pnlPips: real)

  /** Hours 9 to 14 for TOKYO and 16 to 20 for LONDON, if the strategy allows that session. */
  function InSession(s: Strategy): Bar -> bool {
    (b: Bar) =>
      var h := HourOf(b.ts);
      (9 <= h < 15 && "TOKYO" in s.validSessions) || (16 <= h < 21 && "LONDON" in s.validSessions)
  }

  /** The bar's range overlaps the entry zone. */
  function TouchesZone(s: Strategy): Bar -> bool {
    (b: Bar) => b.low <= s.zoneMax && b.high >= s.zoneMin
  }

  /** The bar reaches the stop or the target. */
  function HitsExit(s: Strategy): Bar -> bool {
    (b: Bar) => b.low <= s.stopLoss || b.high >= s.takeProfit
  }

  /** The outcome and price move of the bars after the entry, stop checked before target on each bar. */
  function ExitOf(post: seq<Bar>, s: Strategy): (TradeOutcome, real) {
    match FirstIndex(post, HitsExit(s))
    case None => (Hold, if post == [] then 0.0 else post[|post| - 1].close - s.strictLimit)
    case Some(k) =>
      if post[k].low <= s.stopLoss then (Loss, s.stopLoss - s.strictLimit)
      else (Win, s.takeProfit - s.strictLimit)
  }

  /** 100 pips per unit for a JPY pair, 10000 otherwise. */
  function PipMultiplier(pair: string): real {
    if Contains(pair, "JPY") then 100.0 else 10000.0
  }

  /** What one strategy adds: its record, whether it filled, whether it won, its pips. */
  datatype Step = Step(record: TradeRecord, filled: bool, won: bool, pips: real)

  /** The replay of one strategy on a day with bars, given where its entry scan stopped. */
  function ReplayDay(s: Strategy, day: seq<Bar>, session: seq<Bar>, entry: Option<nat>): Step
    requires entry.Some? ==> entry.value < |session|
  {
    match entry
    case None =>
      var pips := 0.0 * PipMultiplier(s.pair);
      Step(Simulated(s.strategyType, None, None, OutcomeName(NoEntry), RoundTo(pips, 1)), false, false, pips)
    case Some(k) =>
      var t := session[k].ts;
      var (outcome, pnl) := ExitOf(Filter(day, AfterTime(t)), s);
      var pips := pnl * PipMultiplier(s.pair);
      Step(Simulated(s.strategyType, Some(t), Some(s.strictLimit), OutcomeName(outcome), RoundTo(pips, 1)),
           true, outcome == Win, pips)
  }

  /** The replay of one strategy; `None` when its pair has no frame at all. */
  function SimulateOne(m: Market, s: Strategy): Option<Step> {
    if s.pair !in m.bars then None
    else
      var day := Filter(m.bars[s.pair], OnDay(m.targetDate));
      if day == [] then Some(Step(NoMarketData, false, false, 0.0))
      else
        var session := Filter(day, InSession(s));
        Some(ReplayDay(s, day, session, FirstIndex(session, TouchesZone(s))))
  }

  /** The accumulators of the strategy loop. */
  datatype SimState = SimState(perPair: map<string, seq<TradeRecord>>, filled: nat, wins: nat, totalPips: real)

  /** `per_pair.setdefault(pair, []).append(record)`. */
  function Append(perPair: map<string, seq<TradeRecord>>, pair: string, rec: TradeRecord): map<string, seq<TradeRecord>> {
    perPair[pair := (if pair in perPair then perPair[pair] else []) + [rec]]
  }

  /** The accumulators after one more strategy; a skipped strategy changes nothing. */
  function Accumulate(st: SimState, pair: string, step: Option<Step>): SimState {
    match step
    case None => st
    case Some(x) =>
      SimState(Append(st.perPair, pair, x.record),
               st.filled + (if x.filled then 1 else 0),
               st.wins + (if x.won then 1 else 0),
               st.totalPips + x.pips)
  }

  function SimulateAll(m: Market, strats: seq<Strategy>): SimState {
    if strats == [] then SimState(map[], 0, 0, 0.0)
    else
      var s := strats[|strats| - 1];
      Accumulate(SimulateAll(m, strats[..|strats| - 1]), s.pair, SimulateOne(m, s))
  }

  /**
   * One more strategy: a pair without a frame changes nothing (no record, yet
   * it still counts towards `num_strategies`); otherwise its record is
   * appended to its pair's list only and its pips are added to the total.
   */
  lemma SimulateStepEffect(m: Market, strats: seq<Strategy>, s: Strategy)
    ensures var before := SimulateAll(m, strats);
            var after := SimulateAll(m, strats + [s]);
      && (s.pair !in m.bars ==> after == before)
      && (s.pair in m.bars ==>
            && after.perPair.Keys == before.perPair.Keys + {s.pair}
            && after.perPair[s.pair]
                 == (if s.pair in before.perPair then before.perPair[s.pair] else []) + [SimulateOne(m, s).value.record]
            && (forall q :: q in before.perPair && q != s.pair ==> after.perPair[q] == before.perPair[q])
            && after.totalPips == before.totalPips + SimulateOne(m, s).value.pips)
  {
    assert (strats + [s])[..|strats|] == strats;
  }

  /** A win is always a filled strategy. */
  lemma StepWonFilled(m: Market, s: Strategy)
    ensures SimulateOne(m, s).Some? && SimulateOne(m, s).value.won ==> SimulateOne(m, s).value.filled
  {
  }

  /** Wins never exceed fills and fills never exceed the strategies. */
  lemma {:induction false} SimulateCounters(m: Market, strats: seq<Strategy>)
    ensures SimulateAll(m, strats).wins <= SimulateAll(m, strats).filled <= |strats|
  {
    if strats != [] {
      SimulateCounters(m, strats[..|strats| - 1]);
      StepWonFilled(m, strats[|strats| - 1]);
    }
  }

  /**
   * Bar `k` of the session bars is the first one touching the zone, and
   * every session bar is a bar of the day inside the session hours.
   */
  ghost predicate FirstSessionTouch(day: seq<Bar>, session: seq<Bar>, s: Strategy, k: nat) {
    && (forall b :: b in session <==> b in day && InSession(s)(b))
    && k < |session| && TouchesZone(s)(session[k])
    && (forall j :: 0 <= j < k ==> !TouchesZone(s)(session[j]))
  }

  /**
   * A filled strategy entered at its strict limit, at the first bar of the
   * day inside an allowed session whose range overlaps the zone.
   */
  lemma EntryIsFirstSessionTouch(m: Market, s: Strategy)
    requires SimulateOne(m, s).Some? && SimulateOne(m, s).value.filled
    ensures var day := Filter(m.bars[s.pair], OnDay(m.targetDate));
      var rec := SimulateOne(m, s).value.record;
      && rec.Simulated? && rec.entryPrice == Some(s.strictLimit) && rec.entryTime.Some?
      && exists k: nat :: FirstSessionTouch(day, Filter(day, InSession(s)), s, k)
           && rec.entryTime == Some(Filter(day, InSession(s))[k].ts)
  {
    var day := Filter(m.bars[s.pair], OnDay(m.targetDate));
    assert day != [];
    var session := Filter(day, InSession(s));
    var e := FirstIndex(session, TouchesZone(s));
    assert SimulateOne(m, s).value == ReplayDay(s, day, session, e);
    assert e.Some?;
    var k := e.value;
    var rec := SimulateOne(m, s).value.record;
    assert rec.entryTime == Some(session[k].ts);
    assert FirstSessionTouch(day, session, s, k) && rec.entryTime == Some(session[k].ts);
    assert exists k: nat :: (FirstSessionTouch(Filter(m.bars[s.pair], OnDay(m.targetDate)),
                                               Filter(Filter(m.bars[s.pair], OnDay(m.targetDate)), InSession(s)), s, k)
                             && rec.entryTime == Some(Filter(Filter(m.bars[s.pair], OnDay(m.targetDate)), InSession(s))[k].ts));
  }

  /** The recorded pips of a finished trade: stop minus limit on a loss, target minus limit on a win. */
  lemma LossAndWinPips(m: Market, s: Strategy)
    requires SimulateOne(m, s).Some?
    ensures var rec := SimulateOne(m, s).value.record;
      && (rec.Simulated? && rec.result == "LOSS" ==>
            rec.pnlPips == RoundTo((s.stopLoss - s.strictLimit) * PipMultiplier(s.pair), 1))
      && (rec.Simulated? && rec.result == "WIN" ==>
            rec.pnlPips == RoundTo((s.takeProfit - s.strictLimit) * PipMultiplier(s.pair), 1))
      && (rec.Simulated? && rec.result == "NO_ENTRY" ==> SimulateOne(m, s).value.pips == 0.0)
  {
    var day := Filter(m.bars[s.pair], OnDay(m.targetDate));
    if day != [] {
      var session := Filter(day, InSession(s));
      var entry := FirstIndex(session, TouchesZone(s));
      assert SimulateOne(m, s) == Some(ReplayDay(s, day, session, entry));
      if entry.Some? {
        var (outcome, _) := ExitOf(Filter(day, AfterTime(session[entry.value].ts)), s);
        OutcomeNames(outcome);
      } else {
        OutcomeNames(NoEntry);
      }
    }
  }

  /** On the first exit bar the stop wins over the target, so a WIN bar never reached the stop. */
  lemma ExitStopFirst(post: seq<Bar>, s: Strategy)
    ensures ExitOf(post, s).0 == Win ==>
      exists k :: 0 <= k < |post| && post[k].low > s.stopLoss && post[k].high >= s.takeProfit
        && (forall j :: 0 <= j < k ==> post[j].low > s.stopLoss && post[j].high < s.takeProfit)
    ensures ExitOf(post, s).0 == Loss ==>
      exists k :: 0 <= k < |post| && post[k].low <= s.stopLoss
        && (forall j :: 0 <= j < k ==> post[j].low > s.stopLoss && post[j].high < s.takeProfit)
    ensures ExitOf(post, s).0 == Hold ==>
      forall j :: 0 <= j < |post| ==> post[j].low > s.stopLoss && post[j].high < s.takeProfit
  {
  }

  datatype StratMetrics = StratMetrics(numStrategies: nat, entryFillRate: Option<real>, winRateTp: Option<real>,
                                       totalTheoreticalPnlPips: real)

  datatype StrategiesResult = StrategiesResult(perPair: map<string, seq<TradeRecord>>, metrics: StratMetrics)

  /** The strategies section after `simulate_trades`. */
  function StrategiesOf(m: Market, strats: seq<Strategy>): StrategiesResult {
    var st := SimulateAll(m, strats);
    SimulateCounters(m, strats);
    StrategiesResult(st.perPair,
      StratMetrics(|strats|, Accuracy(st.filled, |strats|), Accuracy(st.wins, st.filled), RoundTo(st.totalPips, 1)))
  }

  /** The session mask loop: the day's bars inside an allowed session, in order. */
  method SessionBars(day: seq<Bar>, s: Strategy) returns (session: seq<Bar>)
    ensures session == Filter(day, InSession(s))
  {
    session := [];
    var i := 0;
    while i < |day|
      invariant 0 <= i <= |day|
      invariant session == Filter(day[..i], InSession(s))
    {
      var h := HourOf(day[i].ts);
      var isTokyo := 9 <= h < 15 && "TOKYO" in s.validSessions;
      var isLondon := 16 <= h < 21 && "LONDON" in s.validSessions;
      FilterSnoc(day[..i], day[i], InSession(s));
      assert day[..i + 1] == day[..i] + [day[i]];
      if isTokyo || isLondon {
        session := session + [day[i]];
      }
      i := i + 1;
    }
    assert day[..|day|] == day;
  }

  /** The entry scan: the first session bar overlapping the zone. */
  method FindEntry(session: seq<Bar>, s: Strategy) returns (entry: Option<nat>)
    ensures entry == FirstIndex(session, TouchesZone(s))
  {
    entry := None;
    var i := 0;
    while i < |session|
      invariant 0 <= i <= |session|
      invariant forall j :: 0 <= j < i ==> !TouchesZone(s)(session[j])
    {
      if session[i].low <= s.zoneMax && session[i].high >= s.zoneMin {
        entry := Some(i);
        break;
      }
      i := i + 1;
    }
  }

  /** The exit scan over the bars after the entry, with the HOLD close taken afterwards. */
  method ScanExit(post: seq<Bar>, s: Strategy) returns (outcome: TradeOutcome, pnl: real)
    ensures (outcome, pnl) == ExitOf(post, s)
  {
    outcome := Hold;
    pnl := 0.0;
    var i := 0;
    while i < |post|
      invariant 0 <= i <= |post|
      invariant forall j :: 0 <= j < i ==> !HitsExit(s)(post[j])
    {
      if post[i].low <= s.stopLoss {
        outcome := Loss;
        pnl := s.stopLoss - s.strictLimit;
        break;
      }
      if post[i].high >= s.takeProfit {
        outcome := Win;
        pnl := s.takeProfit - s.strictLimit;
        break;
      }
      i := i + 1;
    }
    if outcome == Hold && post != [] {
      pnl := post[|post| - 1].close - s.strictLimit;
    }
  }

  /** The body of the strategy loop for one strategy. */
  method SimulateStrategy(m: Market, s: Strategy) returns (step: Option<Step>)
    ensures step == SimulateOne(m, s)
  {
    if s.pair !in m.bars {
      return None;
    }
    var day := Filter(m.bars[s.pair], OnDay(m.targetDate));
    if day == [] {
      return Some(Step(NoMarketData, false, false, 0.0));
    }
    var session := SessionBars(day, s);
    var entry := FindEntry(session, s);
    var replay := ReplayEntry(s, day, session, entry);
    step := Some(replay);
  }

  /** The part of the loop body after the entry scan: the exit scan, the pips and the record. */
  method ReplayEntry(s: Strategy, day: seq<Bar>, session: seq<Bar>, entry: Option<nat>) returns (step: Step)
    requires entry.Some? ==> entry.value < |session|
    ensures step == ReplayDay(s, day, session, entry)
  {
    var outcome := NoEntry;
    var pnl := 0.0;
    var entryTime: Option<int> := None;
    if entry.Some? {
      entryTime := Some(session[entry.value].ts);
      var post := Filter(day, AfterTime(session[entry.value].ts));
      outcome, pnl := ScanExit(post, s);
    }
    var pips := pnl * PipMultiplier(s.pair);
    var rec := Simulated(s.strategyType, entryTime, if entry.Some? then Some(s.strictLimit) else None,
                         OutcomeName(outcome), RoundTo(pips, 1));
    step := Step(rec, entry.Some?, outcome == Win, pips);
  }

  // ---------------------------------------------------------------------
  // The evaluator
  // ---------------------------------------------------------------------

  datatype Meta = Meta(evaluationDate: string, targetDate: int, sourceGeneratedAt: string, version: string)

  datatype Summary = Summary(
    environmentBiasAccuracy: Option<real>,
    rankingTopVsBottomRangeRatio: Option<real>,
    strategyEntryFillRate: Option<real>,
    strategyWinRateTp: Option<real>,
    strategyTotalPnlPips: real)

  /** `self.results`; `summaryScores` is `None` while it is still the empty dictionary. */
  datatype Results = Results(
    meta: Meta,
    environment: EnvironmentResult,
    ranking: RankingResult,
    strategies: StrategiesResult,
    summaryScores: Option<Summary>)

  const Version := "l3_evaluation_v1.0"

  /** The results record as the constructor sets it up. */
  function InitialResults(evaluationDate: string, targetDate: int, sourceGeneratedAt: string,
                          top3: seq<string>, bottom3: seq<string>): Results {
    Results(
      Meta(evaluationDate, targetDate, sourceGeneratedAt, Version),
      EnvironmentResult(map[], EnvMetrics(None, None, None, None)),
      RankingResult(top3, bottom3, RankMetrics(None, None, None)),
      StrategiesResult(map[], StratMetrics(0, None, None, 0.0)),
      None)
  }

  function SummaryOf(r: Results): Summary {
    Summary(r.environment.metrics.biasAccuracyRate, r.ranking.metrics.topVsBottomRangeRatio,
            r.strategies.metrics.entryFillRate, r.strategies.metrics.winRateTp,
            r.strategies.metrics.totalTheoreticalPnlPips)
  }

  /** `L3Evaluator`: the day's predictions and market data, and the results it fills in. */
  class L3Evaluator {
    const market: Market
    const envPredictions: seq<(string, EnvPrediction)>
    const top3: seq<string>
    const bottom3: seq<string>
    const strategies: seq<Strategy>
    var results: Results

    /** The clock reading `evaluationDate` and the parsed target day are passed in. */
    constructor(market: Market, envPredictions: seq<(string, EnvPrediction)>, top3: seq<string>,
                bottom3: seq<string>, strategies: seq<Strategy>, evaluationDate: string, sourceGeneratedAt: string)
      ensures this.market == market && this.envPredictions == envPredictions
      ensures this.top3 == top3 && this.bottom3 == bottom3 && this.strategies == strategies
      ensures results == InitialResults(evaluationDate, market.targetDate, sourceGeneratedAt, top3, bottom3)
    {
      this.market := market;
      this.envPredictions := envPredictions;
      this.top3 := top3;
      this.bottom3 := bottom3;
      this.strategies := strategies;
      results := InitialResults(evaluationDate, market.targetDate, sourceGeneratedAt, top3, bottom3);
    }

    /** `evaluate_environment`: judge every predicted pair and count the matches. */
    method EvaluateEnvironment()
      modifies this
      ensures results == old(results).(environment := EnvironmentOf(market, envPredictions))
    {
      var perPair, biasCorrect, biasTotal, volCorrect, volTotal := JudgeAllPairs(market, envPredictions);
      EnvCountsBounds(market, envPredictions);
      var biasAcc := if biasTotal > 0 then Some(biasCorrect as real / biasTotal as real) else None;
      var volAcc := if volTotal > 0 then Some(volCorrect as real / volTotal as real) else None;
      results := results.(environment := EnvironmentResult(perPair,
        EnvMetrics(biasAcc, volAcc, Some(biasCorrect), Some(biasTotal))));
    }

    /** `evaluate_ranking`: nothing happens unless both lists are non-empty. */
    method EvaluateRanking()
      modifies this
      ensures top3 == [] || bottom3 == [] ==> results == old(results)
      ensures top3 != [] && bottom3 != [] ==>
        results == old(results).(ranking := old(results).ranking.(metrics := RankingMetricsOf(market, top3, bottom3)))
    {
      if top3 == [] || bottom3 == [] {
        return;
      }
      var avgTop := AverageRangeRatio(market, top3);
      var avgBottom := AverageRangeRatio(market, bottom3);
      var ratio: Option<real> := None;
      if avgTop.Some? && avgBottom.Some? && avgBottom.value != 0.0 {
        ratio := Some(avgTop.value / avgBottom.value);
      }
      results := results.(ranking := results.ranking.(metrics := RankMetrics(avgTop, avgBottom, ratio)));
    }

    /** `simulate_trades`: replay every strategy and accumulate the counters and the pips. */
    method SimulateTrades()
      modifies this
      ensures results == old(results).(strategies := StrategiesOf(market, strategies))
    {
      var perPair: map<string, seq<TradeRecord>> := map[];
      var filled, wins := 0, 0;
      var totalPips := 0.0;
      var i := 0;
      while i < |strategies|
        invariant 0 <= i <= |strategies|
        invariant SimState(perPair, filled, wins, totalPips) == SimulateAll(market, strategies[..i])
        invariant results == old(results)
      {
        var s := strategies[i];
        assert strategies[..i + 1][..i] == strategies[..i];
        var step := SimulateStrategy(market, s);
        assert SimulateAll(market, strategies[..i + 1]) == Accumulate(SimulateAll(market, strategies[..i]), s.pair, step);
        if step.Some? {
          perPair := Append(perPair, s.pair, step.value.record);
          if step.value.filled {
            filled := filled + 1;
          }
          if step.value.won {
            wins := wins + 1;
          }
          totalPips := totalPips + step.value.pips;
        }
        i := i + 1;
      }
      assert strategies[..|strategies|] == strategies;
      SimulateCounters(market, strategies);
      assert SimState(perPair, filled, wins, totalPips) == SimulateAll(market, strategies);
      var numStrats := |strategies|;
      var fillRate := if numStrats > 0 then Some(filled as real / numStrats as real) else None;
      var winRate := if filled > 0 then Some(wins as real / filled as real) else None;
      assert fillRate == Accuracy(filled, numStrats) && winRate == Accuracy(wins, filled);
      assert StrategiesOf(market, strategies)
          == StrategiesResult(perPair, StratMetrics(numStrats, fillRate, winRate, RoundTo(totalPips, 1)));
      results := results.(strategies := StrategiesResult(perPair,
        StratMetrics(numStrats, fillRate, winRate, RoundTo(totalPips, 1))));
    }

    /** `run`: the three evaluations in order, then the summary scores copied from them. */
    method Run() returns (r: Results)
      modifies this
      ensures var ranked := if top3 == [] || bottom3 == [] then old(results).ranking
                            else old(results).ranking.(metrics := RankingMetricsOf(market, top3, bottom3));
        var filledIn := old(results).(environment := EnvironmentOf(market, envPredictions),
                                      ranking := ranked,
                                      strategies := StrategiesOf(market, strategies));
        results == filledIn.(summaryScores := Some(SummaryOf(filledIn)))
      ensures r == results
    {
      EvaluateEnvironment();
      EvaluateRanking();
      SimulateTrades();
      results := results.(summaryScores := Some(SummaryOf(results)));
      r := results;
    }
  }

  /**
   * After `run` on a freshly built evaluator the summary's rates are absent
   * exactly when there were no judged pairs, no strategies or no fills, and
   * otherwise lie in [0, 1].
   */
  lemma SummaryRates(m: Market, items: seq<(string, EnvPrediction)>, strats: seq<Strategy>)
    ensures var env := EnvironmentOf(m, items).metrics;
      && (env.biasAccuracyRate.None? <==> JudgedCount(m, items) == 0)
      && (env.biasAccuracyRate.Some? ==> 0.0 <= env.biasAccuracyRate.value <= 1.0)
    ensures var st := StrategiesOf(m, strats).metrics;
      && (st.entryFillRate.None? <==> strats == [])
      && (st.winRateTp.None? <==> SimulateAll(m, strats).filled == 0)
      && (st.entryFillRate.Some? ==> 0.0 <= st.entryFillRate.value <= 1.0)
      && (st.winRateTp.Some? ==> 0.0 <= st.winRateTp.value <= 1.0)
  {
    EnvCountsBounds(m, items);
    SimulateCounters(m, strats);
  }
}
