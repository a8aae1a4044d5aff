/**
 * Scoring one trade plan against the day that followed it, and rolling many
 * such scores up into rates: direction accuracy, entry timing, pips,
 * confidence calibration, and the breakdowns by market regime and by kind of
 * human intervention.
 */
module TradeEval {
  import opened Wrappers
  import opened Seqs
  import opened Text
  import opened Indicators

  /** One human modification record, as the string fields of a JSON object. */
  type Modification = map<string, string>

  /** A trade plan (`PredictionInput`). */
  datatype PredictionInput = PredictionInput(
    direction: string,
    pair: string,
    entryPrice: Option<real>,
    stopLoss: Option<real>,
    takeProfit: Option<real>,
    confidenceScore: Option<real>,
    reasoning: Option<string>,
    positionSize: Option<real>,
    riskPercent: Option<real>,
    modifications: Option<seq<Modification>>)

  /** The market move of the evaluated period (`ActualOutcome`). */
  datatype ActualOutcome = ActualOutcome(
    pair: string,
    openPrice: real,
    highPrice: real,
    lowPrice: real,
    closePrice: real,
    periodReturn: real,
    volatility: real)

  datatype TradeMetrics = TradeMetrics(
    directionCorrect: bool,
    entryTimingScore: Option<real>,
    exitTimingScore: Option<real>,
    pipsOutcome: Option<real>,
    riskRewardRealized: Option<real>,
    confidenceCalibration: Option<real>)

  /** The wall-clock fields `date` and `generated_at` are passed in as strings. */
  datatype EvaluationResult = EvaluationResult(
    date: string,
    pair: string,
    mode: string,
    prediction: PredictionInput,
    actual: ActualOutcome,
    metrics: TradeMetrics,
    marketRegime: Option<string>,
    eventProximity: bool,
    interventionType: Option<string>,
    interventionSuccess: Option<bool>,
    generatedAt: string)

  /** One entry of `intervention_impact`: `{"count": .., "success_rate": ..}`. */
  datatype Impact = Impact(count: nat, successRate: real)

  datatype AggregatedMetrics = AggregatedMetrics(
    totalTrades: nat,
    directionAccuracy: real,
    avgConfidence: real,
    avgConfidenceCalibration: real,
    accuracyByRegime: map<string, real>,
    totalInterventions: Option<nat>,
    interventionSuccessRate: Option<real>,
    interventionImpact: Option<map<string, Impact>>,
    sharpeRatio: Option<real>,
    maxDrawdown: Option<real>)

  /** A WAIT call is right when the period moved less than 0.5%. */
  const WaitBand := 0.005
  /** The pip size of a JPY pair, the default of `calculate_pips_outcome`. */
  const DefaultPipValue := 0.01

  /** Python truthiness of an optional price: present and not zero. */
  predicate Truthy(o: Option<real>) { o.Some? && o.value != 0.0 }

  // ---------------------------------------------------------------------
  // Direction, timing and pips of one trade
  // ---------------------------------------------------------------------

  /** `evaluate_direction_accuracy`. */
  function DirectionCorrect(p: PredictionInput, a: ActualOutcome): bool {
    if p.direction == "WAIT" then AbsReal(a.periodReturn) < WaitBand
    else if p.direction == "LONG" then a.closePrice > a.openPrice
    else if p.direction == "SHORT" then a.closePrice < a.openPrice
    else false
  }

  /**
   * Each of the three directions is judged by its own test, any other
   * direction is never right, and LONG and SHORT are never both right on the
   * same outcome (neither is on a flat period).
   */
  lemma DirectionCases(p: PredictionInput, q: PredictionInput, a: ActualOutcome)
    ensures p.direction == "WAIT" ==> (DirectionCorrect(p, a) <==> -WaitBand < a.periodReturn < WaitBand)
    ensures p.direction == "LONG" ==> (DirectionCorrect(p, a) <==> a.closePrice > a.openPrice)
    ensures p.direction == "SHORT" ==> (DirectionCorrect(p, a) <==> a.closePrice < a.openPrice)
    ensures p.direction !in {"WAIT", "LONG", "SHORT"} ==> !DirectionCorrect(p, a)
    ensures p.direction == "LONG" && q.direction == "SHORT" ==> !(DirectionCorrect(p, a) && DirectionCorrect(q, a))
    ensures a.closePrice == a.openPrice && p.direction != "WAIT" ==> !DirectionCorrect(p, a)
  {
  }

  /** The ideal and the worst fill of the period: low/high for LONG, high/low for anything else. */
  function TimingBounds(p: PredictionInput, a: ActualOutcome): (real, real) {
    if p.direction == "LONG" then (a.lowPrice, a.highPrice) else (a.highPrice, a.lowPrice)
  }

  /** `calculate_entry_timing_score`: -1 at the ideal fill, +1 at the worst, rounded to 3 decimals. */
  function EntryTimingScore(p: PredictionInput, a: ActualOutcome): Option<real> {
    if p.direction == "WAIT" || p.entryPrice.None? then None
    else
      var entry := p.entryPrice.value;
      var (ideal, worst) := TimingBounds(p, a);
      if worst == ideal then Some(0.0)
      else
        var score := (entry - ideal) / (worst - ideal);
        Some(RoundTo(Clamp(score * 2.0 - 1.0), 3))
  }

  lemma RoundUnit(x: real)
    requires -1.0 <= x <= 1.0
    ensures -1.0 <= RoundTo(x, 3) <= 1.0
  {
    assert Pow10(3) == 1000;
    var f := (x * 1000.0 + 0.5).Floor;
    assert -1000 <= f <= 1000;
  }

  /** Rounding to three decimals keeps the order of its arguments. */
  lemma RoundMonotone(x: real, y: real)
    requires x <= y
    ensures RoundTo(x, 3) <= RoundTo(y, 3)
  {
    assert Pow10(3) == 1000;
    var fx := (x * 1000.0 + 0.5).Floor;
    var fy := (y * 1000.0 + 0.5).Floor;
    assert fx as real <= x * 1000.0 + 0.5 <= y * 1000.0 + 0.5 < fy as real + 1.0;
    assert fx <= fy;
  }

  /** `max(-1.0, min(1.0, x))`. */
  function Clamp(x: real): (c: real)
    ensures -1.0 <= c <= 1.0
  {
    MaxReal(-1.0, MinReal(1.0, x))
  }

  lemma ClampMonotone(x: real, y: real)
    requires x <= y
    ensures Clamp(x) <= Clamp(y)
  {
  }

  /**
   * The timing score is absent exactly for WAIT or a missing entry, is 0
   * when the period had a single price, and otherwise lies in [-1, 1].
   */
  lemma TimingScoreRange(p: PredictionInput, a: ActualOutcome)
    ensures EntryTimingScore(p, a).None? <==> p.direction == "WAIT" || p.entryPrice.None?
    ensures EntryTimingScore(p, a).Some? && a.highPrice == a.lowPrice ==> EntryTimingScore(p, a) == Some(0.0)
    ensures EntryTimingScore(p, a).Some? ==> -1.0 <= EntryTimingScore(p, a).value <= 1.0
  {
    if EntryTimingScore(p, a).Some? && a.highPrice != a.lowPrice {
      var entry := p.entryPrice.value;
      var (ideal, worst) := TimingBounds(p, a);
      RoundUnit(Clamp((entry - ideal) / (worst - ideal) * 2.0 - 1.0));
    }
  }

  /** Entering at the ideal extreme scores -1 and at the worst extreme +1. */
  lemma TimingScoreExtremes(p: PredictionInput, a: ActualOutcome)
    requires p.direction != "WAIT" && p.entryPrice.Some?
    requires a.highPrice != a.lowPrice
    ensures p.entryPrice.value == TimingBounds(p, a).0 ==> EntryTimingScore(p, a) == Some(-1.0)
    ensures p.entryPrice.value == TimingBounds(p, a).1 ==> EntryTimingScore(p, a) == Some(1.0)
  {
    assert Pow10(3) == 1000;
    var ideal := TimingBounds(p, a).0;
    var worst := TimingBounds(p, a).1;
    var d := worst - ideal;
    assert d != 0.0;
    if p.entryPrice.value == ideal {
      assert (p.entryPrice.value - ideal) / d == 0.0;
      assert Clamp(0.0 * 2.0 - 1.0) == -1.0;
      assert (-1.0 * 1000.0 + 0.5).Floor == -1000;
    }
    if p.entryPrice.value == worst {
      assert (p.entryPrice.value - ideal) / d == d / d == 1.0;
      assert Clamp(1.0 * 2.0 - 1.0) == 1.0;
      assert (1.0 * 1000.0 + 0.5).Floor == 1000;
    }
  }

  /** Dividing by the same non-zero span keeps or flips the order with its sign. */
  lemma SpanMonotone(x: real, y: real, d: real)
    requires d != 0.0
    requires d > 0.0 ==> x <= y
    requires d < 0.0 ==> x >= y
    ensures x / d <= y / d
  {
    if d > 0.0 {
      assert y / d - x / d == (y - x) / d;
    } else {
      assert y / d - x / d == (x - y) / -d;
    }
  }

  /** Between the period's extremes, an entry closer to the worst price never scores lower. */
  lemma TimingScoreMonotone(p: PredictionInput, q: PredictionInput, a: ActualOutcome)
    requires p.direction == q.direction != "WAIT"
    requires p.entryPrice.Some? && q.entryPrice.Some?
    requires a.lowPrice < a.highPrice
    requires p.direction == "LONG" ==> p.entryPrice.value <= q.entryPrice.value
    requires p.direction != "LONG" ==> p.entryPrice.value >= q.entryPrice.value
    ensures EntryTimingScore(p, a).value <= EntryTimingScore(q, a).value
  {
    var ideal := TimingBounds(p, a).0;
    var worst := TimingBounds(p, a).1;
    assert TimingBounds(q, a) == (ideal, worst);
    var sp := (p.entryPrice.value - ideal) / (worst - ideal);
    var sq := (q.entryPrice.value - ideal) / (worst - ideal);
    SpanMonotone(p.entryPrice.value - ideal, q.entryPrice.value - ideal, worst - ideal);
    ClampMonotone(sp * 2.0 - 1.0, sq * 2.0 - 1.0);
    RoundMonotone(Clamp(sp * 2.0 - 1.0), Clamp(sq * 2.0 - 1.0));
  }

  /** The exit of the plan: the stop if it was touched, else the target if it was touched, else the close. */
  function ExitPrice(p: PredictionInput, a: ActualOutcome): real {
    if p.direction == "LONG" then
      if Truthy(p.stopLoss) && a.lowPrice <= p.stopLoss.value then p.stopLoss.value
      else if Truthy(p.takeProfit) && a.highPrice >= p.takeProfit.value then p.takeProfit.value
      else a.closePrice
    else
      if Truthy(p.stopLoss) && a.highPrice >= p.stopLoss.value then p.stopLoss.value
      else if Truthy(p.takeProfit) && a.lowPrice <= p.takeProfit.value then p.takeProfit.value
      else a.closePrice
  }

  /** `calculate_pips_outcome(prediction, actual, pip_value)`, rounded to one decimal. */
  function PipsOutcome(p: PredictionInput, a: ActualOutcome, pipValue: real): Option<real>
    requires pipValue != 0.0
  {
    if p.direction == "WAIT" || p.entryPrice.None? then None
    else
      var entry := p.entryPrice.value;
      var exit := ExitPrice(p, a);
      Some(RoundTo(if p.direction == "LONG" then (exit - entry) / pipValue else (entry - exit) / pipValue, 1))
  }

  /** Pips are absent exactly for WAIT or a missing entry. */
  lemma PipsAbsent(p: PredictionInput, a: ActualOutcome, pipValue: real)
    requires pipValue != 0.0
    ensures PipsOutcome(p, a, pipValue).None? <==> p.direction == "WAIT" || p.entryPrice.None?
  {
  }

  /** A touched stop decides the exit whatever the target says. */
  lemma PipsStopFirst(p: PredictionInput, a: ActualOutcome, pipValue: real)
    requires pipValue != 0.0
    requires p.direction != "WAIT" && p.entryPrice.Some? && Truthy(p.stopLoss)
    requires p.direction == "LONG" ==> a.lowPrice <= p.stopLoss.value
    requires p.direction != "LONG" ==> a.highPrice >= p.stopLoss.value
    ensures p.direction == "LONG" ==>
      PipsOutcome(p, a, pipValue) == Some(RoundTo((p.stopLoss.value - p.entryPrice.value) / pipValue, 1))
    ensures p.direction != "LONG" ==>
      PipsOutcome(p, a, pipValue) == Some(RoundTo((p.entryPrice.value - p.stopLoss.value) / pipValue, 1))
  {
  }

  /** With the stop untouched, a touched target is the exit; with neither, the close is. */
  lemma PipsTargetThenClose(p: PredictionInput, a: ActualOutcome, pipValue: real)
    requires pipValue != 0.0
    requires p.direction == "LONG" && p.entryPrice.Some?
    requires !(Truthy(p.stopLoss) && a.lowPrice <= p.stopLoss.value)
    ensures Truthy(p.takeProfit) && a.highPrice >= p.takeProfit.value ==>
      PipsOutcome(p, a, pipValue) == Some(RoundTo((p.takeProfit.value - p.entryPrice.value) / pipValue, 1))
    ensures !(Truthy(p.takeProfit) && a.highPrice >= p.takeProfit.value) ==>
      PipsOutcome(p, a, pipValue) == Some(RoundTo((a.closePrice - p.entryPrice.value) / pipValue, 1))
  {
  }

  /**
   * The mirror for a short plan: with the stop untouched (the high stayed
   * below it), a target the low reached is the exit; with neither, the close is.
   */
  lemma PipsTargetThenCloseShort(p: PredictionInput, a: ActualOutcome, pipValue: real)
    requires pipValue != 0.0
    requires p.direction != "WAIT" && p.direction != "LONG" && p.entryPrice.Some?
    requires !(Truthy(p.stopLoss) && a.highPrice >= p.stopLoss.value)
    ensures Truthy(p.takeProfit) && a.lowPrice <= p.takeProfit.value ==>
      PipsOutcome(p, a, pipValue) == Some(RoundTo((p.entryPrice.value - p.takeProfit.value) / pipValue, 1))
    ensures !(Truthy(p.takeProfit) && a.lowPrice <= p.takeProfit.value) ==>
      PipsOutcome(p, a, pipValue) == Some(RoundTo((p.entryPrice.value - a.closePrice) / pipValue, 1))
  {
  }

  /** A stop or a target of 0 behaves as if it were not given. */
  lemma ZeroLevelsAreAbsent(p: PredictionInput, a: ActualOutcome, pipValue: real)
    requires pipValue != 0.0
    ensures PipsOutcome(p.(stopLoss := Some(0.0)), a, pipValue) == PipsOutcome(p.(stopLoss := None), a, pipValue)
    ensures PipsOutcome(p.(takeProfit := Some(0.0)), a, pipValue) == PipsOutcome(p.(takeProfit := None), a, pipValue)
  {
  }

  // ---------------------------------------------------------------------
  // One trade in full
  // ---------------------------------------------------------------------

  /** `|confidence - accuracy|` with accuracy 1 for a right call and 0 for a wrong one. */
  function Calibration(confidence: real, correct: bool): (c: real)
    ensures c >= 0.0
    ensures 0.0 <= confidence <= 1.0 ==> c <= 1.0
    ensures c == 0.0 <==> confidence == (if correct then 1.0 else 0.0)
  {
    AbsReal(confidence - (if correct then 1.0 else 0.0))
  }

  /** A non-empty modification list makes the trade a human-in-the-loop one. */
  predicate HasModifications(p: PredictionInput) {
    p.modifications.Some? && p.modifications.value != []
  }

  /** The intervention class a modification names: risk first, then aggressive, then cancellation or wait. */
  function ClassifyModification(m: Modification): Option<string> {
    var kind := Lower(if "modification_type" in m then m["modification_type"] else "");
    if Contains(kind, "risk") then Some("risk_reduction")
    else if Contains(kind, "aggressive") then Some("aggressive_adjustment")
    else if Contains(kind, "cancellation") || Contains(kind, "wait") then Some("trade_cancellation")
    else None
  }

  /** The class left by the modification loop: each match overwrites the previous one. */
  function LastIntervention(mods: seq<Modification>): Option<string> {
    if mods == [] then None
    else
      var c := ClassifyModification(mods[|mods| - 1]);
      if c.Some? then c else LastIntervention(mods[..|mods| - 1])
  }

  /** Modification `k` names class `c` and no later one names any class. */
  predicate LastMatchAt(mods: seq<Modification>, k: int, c: Option<string>) {
    && 0 <= k < |mods|
    && ClassifyModification(mods[k]) == c
    && forall j :: k < j < |mods| ==> ClassifyModification(mods[j]).None?
  }

  /** A modification is classified as one of the three intervention names or not at all. */
  lemma ClassifyNames(m: Modification)
    ensures ClassifyModification(m).Some? ==>
      ClassifyModification(m).value in {"risk_reduction", "aggressive_adjustment", "trade_cancellation"}
  {
  }

  /** The class is absent iff no modification names one. */
  lemma {:induction false} LastInterventionNone(mods: seq<Modification>)
    ensures LastIntervention(mods).None? <==> forall k :: 0 <= k < |mods| ==> ClassifyModification(mods[k]).None?
  {
    if mods != [] {
      var init := mods[..|mods| - 1];
      LastInterventionNone(init);
      assert forall k :: 0 <= k < |init| ==> init[k] == mods[k];
    }
  }

  /**
   * A present class is the class of some modification after which none
   * names a class, and it is one of the three intervention names.
   */
  lemma {:induction false} LastInterventionWitness(mods: seq<Modification>)
    requires LastIntervention(mods).Some?
    ensures exists k :: LastMatchAt(mods, k, LastIntervention(mods))
    ensures LastIntervention(mods).value in {"risk_reduction", "aggressive_adjustment", "trade_cancellation"}
  {
    var last := |mods| - 1;
    var init := mods[..last];
    if ClassifyModification(mods[last]).Some? {
      ClassifyNames(mods[last]);
      assert LastMatchAt(mods, last, LastIntervention(mods));
    } else {
      LastInterventionWitness(init);
      var k :| LastMatchAt(init, k, LastIntervention(init));
      assert init[k] == mods[k];
      forall j | k < j < |mods| ensures ClassifyModification(mods[j]).None? {
        if j < last { assert init[j] == mods[j]; }
      }
      assert LastMatchAt(mods, k, LastIntervention(mods));
    }
  }

  /** The loop over the modifications: each one that classifies overrides the previous class. */
  method LastInterventionOf(mods: seq<Modification>) returns (interventionType: Option<string>)
    ensures interventionType == LastIntervention(mods)
  {
    interventionType := None;
    var i := 0;
    while i < |mods|
      invariant 0 <= i <= |mods|
      invariant interventionType == LastIntervention(mods[..i])
    {
      var kind := Lower(if "modification_type" in mods[i] then mods[i]["modification_type"] else "");
      if Contains(kind, "risk") {
        interventionType := Some("risk_reduction");
      } else if Contains(kind, "aggressive") {
        interventionType := Some("aggressive_adjustment");
      } else if Contains(kind, "cancellation") || Contains(kind, "wait") {
        interventionType := Some("trade_cancellation");
      }
      assert mods[..i + 1][..i] == mods[..i];
      i := i + 1;
    }
    assert mods[..|mods|] == mods;
  }

  /**
   * `evaluate_single_trade` with the clock readings `date` and `generatedAt`
   * passed in.
   */
  method EvaluateSingleTrade(p: PredictionInput, a: ActualOutcome, marketRegime: Option<string>,
                             eventProximity: bool, date: string, generatedAt: string)
    returns (r: EvaluationResult)
    ensures r.date == date && r.generatedAt == generatedAt && r.pair == p.pair
    ensures r.prediction == p && r.actual == a && r.marketRegime == marketRegime && r.eventProximity == eventProximity
    ensures r.metrics.directionCorrect == DirectionCorrect(p, a)
    ensures r.metrics.entryTimingScore == EntryTimingScore(p, a) && r.metrics.exitTimingScore.None?
    ensures r.metrics.pipsOutcome == PipsOutcome(p, a, DefaultPipValue)
    ensures r.metrics.riskRewardRealized.Some? <==>
      r.metrics.pipsOutcome.Some? && Truthy(p.stopLoss) && Truthy(p.entryPrice) && p.entryPrice.value != p.stopLoss.value
    ensures r.metrics.riskRewardRealized.Some? ==>
      r.metrics.riskRewardRealized.value
        == r.metrics.pipsOutcome.value / (AbsReal(p.entryPrice.value - p.stopLoss.value) / DefaultPipValue)
    ensures r.metrics.confidenceCalibration.Some? <==> p.confidenceScore.Some?
    ensures r.metrics.confidenceCalibration.Some? ==>
      r.metrics.confidenceCalibration.value == Calibration(p.confidenceScore.value, DirectionCorrect(p, a))
    ensures r.mode == (if HasModifications(p) then "hitl" else "ai")
    ensures r.interventionType == (if HasModifications(p) then LastIntervention(p.modifications.value) else None)
    ensures r.interventionSuccess == (if HasModifications(p) then Some(DirectionCorrect(p, a)) else None)
  {
    var directionCorrect := DirectionCorrect(p, a);
    var entryTiming := EntryTimingScore(p, a);
    var pips := PipsOutcome(p, a, DefaultPipValue);

    var rrRealized: Option<real> := None;
    if pips.Some? && Truthy(p.stopLoss) && Truthy(p.entryPrice) {
      var riskPips := AbsReal(p.entryPrice.value - p.stopLoss.value) / 0.01;
      if riskPips > 0.0 {
        rrRealized := Some(pips.value / riskPips);
      }
    }

    var calibration: Option<real> := None;
    if p.confidenceScore.Some? {
      var actualAccuracy := if directionCorrect then 1.0 else 0.0;
      calibration := Some(AbsReal(p.confidenceScore.value - actualAccuracy));
    }

    var metrics := TradeMetrics(directionCorrect, entryTiming, None, pips, rrRealized, calibration);

    var interventionType: Option<string> := None;
    var interventionSuccess: Option<bool> := None;
    if HasModifications(p) {
      interventionType := LastInterventionOf(p.modifications.value);
      interventionSuccess := Some(directionCorrect);
    }

    var mode := if HasModifications(p) then "hitl" else "ai";
    r := EvaluationResult(date, p.pair, mode, p, a, metrics, marketRegime, eventProximity,
                          interventionType, interventionSuccess, generatedAt);
  }

  // ---------------------------------------------------------------------
  // Aggregation
  // ---------------------------------------------------------------------

  predicate IsCorrect(e: EvaluationResult) { e.metrics.directionCorrect }
  predicate HasIntervention(e: EvaluationResult) { e.interventionType.Some? }
  predicate Succeeded(e: EvaluationResult) { e.interventionSuccess == Some(true) }

  function WithRegime(regime: string): EvaluationResult -> bool {
    (e: EvaluationResult) => e.marketRegime == Some(regime)
  }

  function WithType(kind: string): EvaluationResult -> bool {
    (e: EvaluationResult) => e.interventionType == Some(kind)
  }

  /** The mean of a list, or 0.0 for an empty one. */
  function AverageOrZero(s: seq<real>): real {
    if s == [] then 0.0 else Mean(s)
  }

  function ConfidenceScores(evals: seq<EvaluationResult>): seq<real> {
    Somes(seq(|evals|, i requires 0 <= i < |evals| => evals[i].prediction.confidenceScore))
  }

  function Calibrations(evals: seq<EvaluationResult>): seq<real> {
    Somes(seq(|evals|, i requires 0 <= i < |evals| => evals[i].metrics.confidenceCalibration))
  }

  /** The set of truthy market regimes present. */
  function Regimes(evals: seq<EvaluationResult>): set<string> {
    set i | 0 <= i < |evals| && evals[i].marketRegime.Some? && evals[i].marketRegime.value != ""
      :: evals[i].marketRegime.value
  }

  /** The set of truthy intervention types present. */
  function InterventionTypes(evals: seq<EvaluationResult>): set<string> {
    set i | 0 <= i < |evals| && evals[i].interventionType.Some? && evals[i].interventionType.value != ""
      :: evals[i].interventionType.value
  }

  /** An element satisfying `p` puts something into `Filter(s, p)`. */
  lemma FilterNonEmpty<T(!new)>(s: seq<T>, p: T -> bool, k: nat)
    requires k < |s| && p(s[k])
    ensures Filter(s, p) != []
  {
    assert s[k] in s;
    assert s[k] in Filter(s, p);
  }

  /** Share of right calls among the evaluations of one regime. */
  function RegimeRate(evals: seq<EvaluationResult>, regime: string): real
    requires regime in Regimes(evals)
  {
    var group := Filter(evals, WithRegime(regime));
    var k :| 0 <= k < |evals| && evals[k].marketRegime == Some(regime);
    FilterNonEmpty(evals, WithRegime(regime), k);
    Ratio(|Filter(group, IsCorrect)|, |group|)
  }

  /** `accuracy_by_regime`. */
  function RegimeAccuracy(evals: seq<EvaluationResult>): map<string, real> {
    map regime | regime in Regimes(evals) :: RegimeRate(evals, regime)
  }

  /** Count and success rate of the interventions of one type. */
  function TypeImpact(interventions: seq<EvaluationResult>, kind: string): Impact
    requires kind in InterventionTypes(interventions)
  {
    var group := Filter(interventions, WithType(kind));
    var k :| 0 <= k < |interventions| && interventions[k].interventionType == Some(kind);
    FilterNonEmpty(interventions, WithType(kind), k);
    Impact(|group|, Ratio(|Filter(group, Succeeded)|, |group|))
  }

  /** `intervention_impact`. */
  function ImpactByType(interventions: seq<EvaluationResult>): map<string, Impact> {
    map kind | kind in InterventionTypes(interventions) :: TypeImpact(interventions, kind)
  }

  lemma RegimeStep(evals: seq<EvaluationResult>, regime: string)
    requires regime in Regimes(evals)
    ensures var group := Filter(evals, WithRegime(regime));
      |group| > 0 && RegimeRate(evals, regime) == |Filter(group, IsCorrect)| as real / |group| as real
  {
    var k :| 0 <= k < |evals| && evals[k].marketRegime == Some(regime);
    FilterNonEmpty(evals, WithRegime(regime), k);
  }

  lemma TypeStep(interventions: seq<EvaluationResult>, kind: string)
    requires kind in InterventionTypes(interventions)
    ensures var group := Filter(interventions, WithType(kind));
      |group| > 0 && TypeImpact(interventions, kind) == Impact(|group|, |Filter(group, Succeeded)| as real / |group| as real)
  {
    var k :| 0 <= k < |interventions| && interventions[k].interventionType == Some(kind);
    FilterNonEmpty(interventions, WithType(kind), k);
  }

  /** One regime's entry: the share of its evaluations whose direction was right. */
  method RegimeEntry(evals: seq<EvaluationResult>, regime: string) returns (rate: real)
    requires regime in Regimes(evals)
    ensures rate == RegimeRate(evals, regime)
  {
    RegimeStep(evals, regime);
    var group := Filter(evals, WithRegime(regime));
    var regimeCorrect := |Filter(group, IsCorrect)|;
    rate := regimeCorrect as real / |group| as real;
  }

  /** One intervention type's entry: how many there were and the share that succeeded. */
  method TypeEntry(interventions: seq<EvaluationResult>, kind: string) returns (entry: Impact)
    requires kind in InterventionTypes(interventions)
    ensures entry == TypeImpact(interventions, kind)
  {
    TypeStep(interventions, kind);
    var group := Filter(interventions, WithType(kind));
    var typeSuccesses := |Filter(group, Succeeded)|;
    entry := Impact(|group|, typeSuccesses as real / |group| as real);
  }

  /** The loop filling `accuracy_by_regime`, one regime of the set at a time. */
  method FillRegimeAccuracy(evals: seq<EvaluationResult>) returns (accuracy: map<string, real>)
    ensures accuracy == RegimeAccuracy(evals)
  {
    accuracy := map[];
    var regimes := Regimes(evals);
    var pending := regimes;
    while pending != {}
      invariant pending <= regimes
      invariant accuracy.Keys == regimes - pending
      invariant forall r :: r in accuracy ==> accuracy[r] == RegimeRate(evals, r)
      decreases pending
    {
      var regime :| regime in pending;
      var rate := RegimeEntry(evals, regime);
      accuracy := accuracy[regime := rate];
      pending := pending - {regime};
    }
  }

  /** The loop filling `intervention_impact`, one intervention type of the set at a time. */
  method FillImpact(interventions: seq<EvaluationResult>) returns (impact: map<string, Impact>)
    ensures impact == ImpactByType(interventions)
  {
    impact := map[];
    var types := InterventionTypes(interventions);
    var todo := types;
    while todo != {}
      invariant todo <= types
      invariant impact.Keys == types - todo
      invariant forall t :: t in impact ==> impact[t] == TypeImpact(interventions, t)
      decreases todo
    {
      var kind :| kind in todo;
      var entry := TypeEntry(interventions, kind);
      impact := impact[kind := entry];
      todo := todo - {kind};
    }
  }

  /**
   * `aggregate_evaluations(evaluations, mode)`: counts and averages over the
   * list, the per-regime rates, and in "hitl" mode the intervention rates.
   */
  method AggregateEvaluations(evals: seq<EvaluationResult>, mode: string) returns (m: AggregatedMetrics)
    ensures evals == [] ==> m == AggregatedMetrics(0, 0.0, 0.0, 0.0, map[], None, None, None, None, None)
    ensures evals != [] ==>
      && m.totalTrades == |evals|
      && m.directionAccuracy == Ratio(|Filter(evals, IsCorrect)|, |evals|)
      && m.avgConfidence == AverageOrZero(ConfidenceScores(evals))
      && m.avgConfidenceCalibration == AverageOrZero(Calibrations(evals))
      && m.accuracyByRegime == RegimeAccuracy(evals)
      && m.sharpeRatio.None? && m.maxDrawdown.None?
    ensures evals != [] ==> var interventions := Filter(evals, HasIntervention);
      && m.totalInterventions == (if mode == "hitl" then Some(|interventions|) else None)
      && m.interventionSuccessRate ==
           (if mode == "hitl" && interventions != []
            then Some(Ratio(|Filter(interventions, Succeeded)|, |interventions|)) else None)
      && m.interventionImpact ==
           (if mode == "hitl" && interventions != [] then Some(ImpactByType(interventions)) else None)
  {
    if evals == [] {
      return AggregatedMetrics(0, 0.0, 0.0, 0.0, map[], None, None, None, None, None);
    }
    var total := |evals|;
    var correct := |Filter(evals, IsCorrect)|;
    var directionAccuracy := correct as real / total as real;
    var avgConfidence := AverageOrZero(ConfidenceScores(evals));
    var avgCalibration := AverageOrZero(Calibrations(evals));
    var accuracyByRegime := FillRegimeAccuracy(evals);

    var totalInterventions: Option<nat> := None;
    var successRate: Option<real> := None;
    var impact: Option<map<string, Impact>> := None;
    if mode == "hitl" {
      var interventions := Filter(evals, HasIntervention);
      totalInterventions := Some(|interventions|);
      if |interventions| > 0 {
        var successes := |Filter(interventions, Succeeded)|;
        successRate := Some(successes as real / |interventions| as real);
        var byType := FillImpact(interventions);
        impact := Some(byType);
      }
    }

    m := AggregatedMetrics(total, directionAccuracy, avgConfidence, avgCalibration, accuracyByRegime,
                           totalInterventions, successRate, impact, None, None);
  }

  // ---------------------------------------------------------------------
  // Properties of the aggregate
  // ---------------------------------------------------------------------

  /**
   * `accuracy_by_regime` has a key for exactly the truthy regimes present,
   * and each of its rates lies in [0, 1].
   */
  lemma RegimeAccuracyMeaning(evals: seq<EvaluationResult>, regime: string)
    ensures regime in RegimeAccuracy(evals) <==>
      regime != "" && exists i :: 0 <= i < |evals| && evals[i].marketRegime == Some(regime)
    ensures regime in RegimeAccuracy(evals) ==> 0.0 <= RegimeAccuracy(evals)[regime] <= 1.0
  {
    if regime != "" && exists i :: 0 <= i < |evals| && evals[i].marketRegime == Some(regime) {
      var i :| 0 <= i < |evals| && evals[i].marketRegime == Some(regime);
      assert regime in Regimes(evals);
    }
  }

  /**
   * `intervention_impact` has a key for exactly the truthy intervention
   * types, each counted at least once and with a success rate in [0, 1].
   */
  lemma ImpactMeaning(interventions: seq<EvaluationResult>, kind: string)
    ensures kind in ImpactByType(interventions) <==>
      kind != "" && exists i :: 0 <= i < |interventions| && interventions[i].interventionType == Some(kind)
    ensures kind in ImpactByType(interventions) ==>
      ImpactByType(interventions)[kind].count >= 1 && 0.0 <= ImpactByType(interventions)[kind].successRate <= 1.0
  {
    if kind != "" && exists i :: 0 <= i < |interventions| && interventions[i].interventionType == Some(kind) {
      var i :| 0 <= i < |interventions| && interventions[i].interventionType == Some(kind);
      assert kind in InterventionTypes(interventions);
    }
  }

  /** Some element of a non-empty set. */
  ghost function Pick(s: set<string>): string
    requires s != {}
  {
    var x :| x in s; x
  }

  /** The sum of the counts `impact` holds under `kinds`. */
  ghost function CountTotal(impact: map<string, Impact>, kinds: set<string>): nat
    requires kinds <= impact.Keys
    decreases |kinds|
  {
    if kinds == {} then 0
    else
      var k := Pick(kinds);
      impact[k].count + CountTotal(impact, kinds - {k})
  }

  function TypeIn(kinds: set<string>): EvaluationResult -> bool {
    (e: EvaluationResult) => e.interventionType.Some? && e.interventionType.value in kinds
  }

  lemma {:induction false} FilterSplit(s: seq<EvaluationResult>, kind: string, rest: set<string>)
    requires kind !in rest
    ensures |Filter(s, TypeIn(rest + {kind}))| == |Filter(s, WithType(kind))| + |Filter(s, TypeIn(rest))|
  {
    if s != [] {
      FilterSplit(s[1..], kind, rest);
    }
  }

  lemma {:induction false} CountTotalFilters(interventions: seq<EvaluationResult>, kinds: set<string>)
    requires kinds <= InterventionTypes(interventions)
    ensures CountTotal(ImpactByType(interventions), kinds) == |Filter(interventions, TypeIn(kinds))|
    decreases |kinds|
  {
    if kinds == {} {
      FilterNone(interventions, TypeIn(kinds));
    } else {
      var k := Pick(kinds);
      CountTotalFilters(interventions, kinds - {k});
      FilterSplit(interventions, k, kinds - {k});
      assert kinds - {k} + {k} == kinds;
    }
  }

  /**
   * In "hitl" mode the per-type counts add up to `total_interventions`,
   * provided no evaluation carries an empty type name (the classifier never
   * produces one).
   */
  lemma ImpactCountsSum(evals: seq<EvaluationResult>)
    requires forall i :: 0 <= i < |evals| ==> evals[i].interventionType != Some("")
    ensures var interventions := Filter(evals, HasIntervention);
      CountTotal(ImpactByType(interventions), ImpactByType(interventions).Keys) == |interventions|
  {
    var interventions := Filter(evals, HasIntervention);
    var kinds := InterventionTypes(interventions);
    assert ImpactByType(interventions).Keys == kinds;
    CountTotalFilters(interventions, kinds);
    forall x | x in interventions ensures TypeIn(kinds)(x) {
      var j :| 0 <= j < |interventions| && interventions[j] == x;
      var i :| 0 <= i < |evals| && evals[i] == x;
      assert x.interventionType.Some? && x.interventionType.value != "";
    }
    FilterAll(interventions, TypeIn(kinds));
  }

  /**
   * With every confidence score and every calibration in [0, 1], the
   * average confidence and the average calibration both lie in [0, 1]
   * (an average over nothing is 0).
   */
  lemma AveragesInUnitRange(evals: seq<EvaluationResult>)
    requires forall i :: 0 <= i < |evals| ==>
      evals[i].prediction.confidenceScore.Some? ==> 0.0 <= evals[i].prediction.confidenceScore.value <= 1.0
    requires forall i :: 0 <= i < |evals| ==>
      evals[i].metrics.confidenceCalibration.Some? ==> 0.0 <= evals[i].metrics.confidenceCalibration.value <= 1.0
    ensures 0.0 <= AverageOrZero(ConfidenceScores(evals)) <= 1.0
    ensures 0.0 <= AverageOrZero(Calibrations(evals)) <= 1.0
  {
    var cs := ConfidenceScores(evals);
    if cs != [] {
      var opts := seq(|evals|, i requires 0 <= i < |evals| => evals[i].prediction.confidenceScore);
      forall j | 0 <= j < |cs| ensures 0.0 <= cs[j] <= 1.0 {
        assert cs[j] in cs;
        assert Some(cs[j]) in opts;
      }
      MeanBetween(cs, 0.0, 1.0);
    }
    var ks := Calibrations(evals);
    if ks != [] {
      var opts := seq(|evals|, i requires 0 <= i < |evals| => evals[i].metrics.confidenceCalibration);
      forall j | 0 <= j < |ks| ensures 0.0 <= ks[j] <= 1.0 {
        assert ks[j] in ks;
        assert Some(ks[j]) in opts;
      }
      MeanBetween(ks, 0.0, 1.0);
    }
  }
}
