/**
 * The three interval-specific candidate detectors of the level engine:
 * intraday session reversals (1h), weekly necklines (4h) and three-candle
 * reversals near the last close (1d).
 */
module Reversals {
  import opened Wrappers
  import opened Seqs
  import opened Ohlc
  import opened LevelRanking

  const IntradayLookbackBars := 240
  const FourHourLookbackBars := 84
  const DailyLookbackBars := 60
  const IntradayReversalHours := 5
  const DailyReversalCandles := 3
  /** 0.5% of the last close: `|p - lc| <= lc * 0.005` is `200 * |p - lc| <= lc`. */
  const DailyToleranceDivisor := 200
  /** The 4h merge tolerance 0.05, in ticks of 0.0001. */
  const FourHourMergeTolerance := 500
  const SecondsPerDay := 86400

  function Max(a: int, b: int): int { if a >= b then a else b }

  lemma {:induction false} FilterKeepsTimeOrder(w: seq<Bar>, p: Bar -> bool)
    requires ByTime(w)
    ensures ByTime(Filter(w, p))
  {
    if w != [] {
      var t := w[1..];
      assert ByTime(t) by {
        forall i, j | 0 <= i < j < |t| ensures t[i].ts <= t[j].ts { assert t[i] == w[i + 1] && t[j] == w[j + 1]; }
      }
      FilterKeepsTimeOrder(t, p);
      var f := Filter(t, p);
      forall k | 0 <= k < |f| ensures w[0].ts <= f[k].ts {
        assert f[k] in t;
      }
    }
  }

  // ---------------------------------------------------------------- 1h

  /** The UTC calendar date of a timestamp, as a day number. */
  function SessionDate(ts: int): int { ts / SecondsPerDay }

  function Dates(w: seq<Bar>): seq<int> {
    seq(|w|, k requires 0 <= k < |w| => SessionDate(w[k].ts))
  }

  /** `sorted(window["session_date"].unique(), reverse=True)`. */
  function SessionDates(w: seq<Bar>): seq<int> {
    SortInts(Dedupe(Dates(w)), true)
  }

  /** The session dates are the window's dates, each once, newest first. */
  lemma SessionDatesProps(w: seq<Bar>)
    ensures var r := SessionDates(w);
      Descending(r) && Distinct(r) && forall d :: d in r <==> d in Dates(w)
  {
    var u := Dedupe(Dates(w));
    var r := SortInts(u, true);
    DistinctPermutation(u, r);
    assert forall d :: d in r <==> d in multiset(u);
  }

  function OnDate(w: seq<Bar>, d: int): seq<Bar> {
    Filter(w, (b: Bar) => SessionDate(b.ts) == d)
  }

  /** `window[window[ts] > t]`: the bars strictly later than `t`. */
  function After(w: seq<Bar>, t: int): seq<Bar> {
    Filter(w, (b: Bar) => b.ts > t)
  }

  /** `idxmax()` on highs: the first bar with the highest high. */
  function FirstHighest(s: seq<Bar>): (i: nat)
    requires s != []
    ensures i < |s|
    ensures forall k :: 0 <= k < |s| ==> s[k].high <= s[i].high
    ensures forall k :: 0 <= k < i ==> s[k].high < s[i].high
  {
    if |s| == 1 then 0
    else
      var i := FirstHighest(s[..|s| - 1]);
      if s[|s| - 1].high > s[i].high then |s| - 1 else i
  }

  /** `idxmin()` on lows: the first bar with the lowest low. */
  function FirstLowest(s: seq<Bar>): (i: nat)
    requires s != []
    ensures i < |s|
    ensures forall k :: 0 <= k < |s| ==> s[i].low <= s[k].low
    ensures forall k :: 0 <= k < i ==> s[i].low < s[k].low
  {
    if |s| == 1 then 0
    else
      var i := FirstLowest(s[..|s| - 1]);
      if s[|s| - 1].low < s[i].low then |s| - 1 else i
  }

  /** Session `d`'s high, when the next five window bars all stay strictly below it. */
  function ResistanceAt(w: seq<Bar>, d: int): seq<Candidate> {
    var day := OnDate(w, d);
    if day == [] then []
    else
      var top := day[FirstHighest(day)];
      var post := Take(After(w, top.ts), IntradayReversalHours);
      if |post| >= IntradayReversalHours && forall k :: 0 <= k < |post| ==> post[k].high < top.high
      then [Candidate(top.high, top.ts)] else []
  }

  /** Session `d`'s low, when the next five window bars all stay strictly above it. */
  function SupportAt(w: seq<Bar>, d: int): seq<Candidate> {
    var day := OnDate(w, d);
    if day == [] then []
    else
      var bottom := day[FirstLowest(day)];
      var post := Take(After(w, bottom.ts), IntradayReversalHours);
      if |post| >= IntradayReversalHours && forall k :: 0 <= k < |post| ==> post[k].low > bottom.low
      then [Candidate(bottom.low, bottom.ts)] else []
  }

  /** The resistance candidates collected over `dates`, in that order. */
  function ResistanceCandidates(w: seq<Bar>, dates: seq<int>): seq<Candidate> {
    if dates == [] then []
    else ResistanceCandidates(w, dates[..|dates| - 1]) + ResistanceAt(w, dates[|dates| - 1])
  }

  /** The support candidates collected over `dates`, in that order. */
  function SupportCandidates(w: seq<Bar>, dates: seq<int>): seq<Candidate> {
    if dates == [] then []
    else SupportCandidates(w, dates[..|dates| - 1]) + SupportAt(w, dates[|dates| - 1])
  }

  /** The floor the intraday resistances must reach: the last close, raised to the highest support. */
  function ResistanceFloor(supports: seq<int>, lastClose: int): int {
    if supports == [] then lastClose else Max(lastClose, MaxOf(supports))
  }

  /** `_compute_intraday_reversals(df, levels, last_close)`. */
  function IntradayLevels(bars: seq<Bar>, levels: int, lastClose: int): (seq<int>, seq<int>) {
    var w := Tail(bars, IntradayLookbackBars);
    var dates := SessionDates(w);
    var supports := RankedLevels(SupportCandidates(w, dates), lastClose, levels, false, Distance, None, Some(lastClose));
    var floor := ResistanceFloor(supports, lastClose);
    (supports, RankedLevels(ResistanceCandidates(w, dates), lastClose, levels, true, Distance, Some(floor), None))
  }

  /** The candidate loop over session dates: each session's high and low where the reversal held. */
  method CollectSessionCandidates(w: seq<Bar>, dates: seq<int>)
    returns (supportCandidates: seq<Candidate>, resistanceCandidates: seq<Candidate>)
    ensures supportCandidates == SupportCandidates(w, dates)
    ensures resistanceCandidates == ResistanceCandidates(w, dates)
  {
    supportCandidates, resistanceCandidates := [], [];
    var i := 0;
    while i < |dates|
      invariant 0 <= i <= |dates|
      invariant supportCandidates == SupportCandidates(w, dates[..i])
      invariant resistanceCandidates == ResistanceCandidates(w, dates[..i])
    {
      assert dates[..i + 1][..i] == dates[..i];
      resistanceCandidates := resistanceCandidates + ResistanceAt(w, dates[i]);
      supportCandidates := supportCandidates + SupportAt(w, dates[i]);
      i := i + 1;
    }
    assert dates[..|dates|] == dates;
  }

  /** `_compute_intraday_reversals`: supports ranked by distance, then resistances above the floor. */
  method ComputeIntradayReversals(bars: seq<Bar>, levels: int, lastClose: int)
    returns (supports: seq<int>, resistances: seq<int>)
    ensures (supports, resistances) == IntradayLevels(bars, levels, lastClose)
  {
    var w := Tail(bars, IntradayLookbackBars);
    var dates := SessionDates(w);
    var supportCandidates, resistanceCandidates := CollectSessionCandidates(w, dates);
    supports := RankLevels(supportCandidates, lastClose, levels, false, Distance, None, Some(lastClose));
    var floor := lastClose;
    if |supports| > 0 {
      floor := Max(floor, MaxOf(supports));
    }
    resistances := RankLevels(resistanceCandidates, lastClose, levels, true, Distance, Some(floor), None);
  }

  /** A session's lowest low, and the first bar of the session to reach it. */
  ghost predicate SessionLow(w: seq<Bar>, b: Bar) {
    forall x :: x in w && SessionDate(x.ts) == SessionDate(b.ts) ==>
      b.low <= x.low && (x.low == b.low ==> b.ts <= x.ts)
  }

  /** The five bars after `b` all have strictly higher lows. */
  ghost predicate LowHolds(w: seq<Bar>, b: Bar) {
    var post := After(w, b.ts);
    |post| >= IntradayReversalHours && forall k :: 0 <= k < IntradayReversalHours ==> post[k].low > b.low
  }

  ghost predicate SessionHigh(w: seq<Bar>, b: Bar) {
    forall x :: x in w && SessionDate(x.ts) == SessionDate(b.ts) ==>
      x.high <= b.high && (x.high == b.high ==> b.ts <= x.ts)
  }

  ghost predicate HighHolds(w: seq<Bar>, b: Bar) {
    var post := After(w, b.ts);
    |post| >= IntradayReversalHours && forall k :: 0 <= k < IntradayReversalHours ==> post[k].high < b.high
  }

  /** The first lowest bar of session `d` is the session low of the window. */
  lemma FirstLowestIsSessionLow(w: seq<Bar>, d: int)
    requires ByTime(w) && OnDate(w, d) != []
    ensures var day := OnDate(w, d); SessionLow(w, day[FirstLowest(day)])
  {
    var day := OnDate(w, d);
    FilterKeepsTimeOrder(w, (x: Bar) => SessionDate(x.ts) == d);
    var i := FirstLowest(day);
    var b := day[i];
    assert b in day;
    forall x | x in w && SessionDate(x.ts) == SessionDate(b.ts) ensures b.low <= x.low && (x.low == b.low ==> b.ts <= x.ts) {
      assert x in day;
      var k :| 0 <= k < |day| && day[k] == x;
      if k < i { assert b.low < x.low; } else if k > i { assert b.ts <= x.ts; }
    }
  }

  lemma SupportAtMeaning(w: seq<Bar>, d: int, c: Candidate)
    requires ByTime(w) && c in SupportAt(w, d)
    ensures exists b :: b in w && SessionDate(b.ts) == d && c == Candidate(b.low, b.ts) && SessionLow(w, b) && LowHolds(w, b)
  {
    var day := OnDate(w, d);
    assert day != [];
    var b := day[FirstLowest(day)];
    assert b in day;
    FirstLowestIsSessionLow(w, d);
    var post := Take(After(w, b.ts), IntradayReversalHours);
    assert forall k :: 0 <= k < IntradayReversalHours ==> post[k] == After(w, b.ts)[k];
    assert LowHolds(w, b);
  }

  /** The first highest bar of session `d` is the session high of the window. */
  lemma FirstHighestIsSessionHigh(w: seq<Bar>, d: int)
    requires ByTime(w) && OnDate(w, d) != []
    ensures var day := OnDate(w, d); SessionHigh(w, day[FirstHighest(day)])
  {
    var day := OnDate(w, d);
    FilterKeepsTimeOrder(w, (x: Bar) => SessionDate(x.ts) == d);
    var i := FirstHighest(day);
    var b := day[i];
    assert b in day;
    forall x | x in w && SessionDate(x.ts) == SessionDate(b.ts) ensures x.high <= b.high && (x.high == b.high ==> b.ts <= x.ts) {
      assert x in day;
      var k :| 0 <= k < |day| && day[k] == x;
      if k < i { assert x.high < b.high; } else if k > i { assert b.ts <= x.ts; }
    }
  }

  lemma ResistanceAtMeaning(w: seq<Bar>, d: int, c: Candidate)
    requires ByTime(w) && c in ResistanceAt(w, d)
    ensures exists b :: b in w && SessionDate(b.ts) == d && c == Candidate(b.high, b.ts) && SessionHigh(w, b) && HighHolds(w, b)
  {
    var day := OnDate(w, d);
    assert day != [];
    var b := day[FirstHighest(day)];
    assert b in day;
    FirstHighestIsSessionHigh(w, d);
    var post := Take(After(w, b.ts), IntradayReversalHours);
    assert forall k :: 0 <= k < IntradayReversalHours ==> post[k] == After(w, b.ts)[k];
    assert HighHolds(w, b);
  }

  /**
   * Every intraday support candidate is the first-reached lowest low of one
   * of the sessions, and the next five bars all have strictly higher lows.
   */
  lemma {:induction false} IntradaySupportCandidate(w: seq<Bar>, dates: seq<int>, c: Candidate)
    requires ByTime(w) && c in SupportCandidates(w, dates)
    ensures exists b :: b in w && SessionDate(b.ts) in dates && c == Candidate(b.low, b.ts) && SessionLow(w, b) && LowHolds(w, b)
  {
    var init := dates[..|dates| - 1];
    var d := dates[|dates| - 1];
    if c in SupportCandidates(w, init) {
      IntradaySupportCandidate(w, init, c);
      var b :| b in w && SessionDate(b.ts) in init && c == Candidate(b.low, b.ts) && SessionLow(w, b) && LowHolds(w, b);
      assert SessionDate(b.ts) in dates;
    } else {
      SupportAtMeaning(w, d, c);
    }
  }

  /**
   * Every intraday resistance candidate is the first-reached highest high of
   * one of the sessions, and the next five bars all have strictly lower highs.
   */
  lemma {:induction false} IntradayResistanceCandidate(w: seq<Bar>, dates: seq<int>, c: Candidate)
    requires ByTime(w) && c in ResistanceCandidates(w, dates)
    ensures exists b :: b in w && SessionDate(b.ts) in dates && c == Candidate(b.high, b.ts) && SessionHigh(w, b) && HighHolds(w, b)
  {
    var init := dates[..|dates| - 1];
    var d := dates[|dates| - 1];
    if c in ResistanceCandidates(w, init) {
      IntradayResistanceCandidate(w, init, c);
      var b :| b in w && SessionDate(b.ts) in init && c == Candidate(b.high, b.ts) && SessionHigh(w, b) && HighHolds(w, b);
      assert SessionDate(b.ts) in dates;
    } else {
      ResistanceAtMeaning(w, d, c);
    }
  }

  /**
   * Intraday supports are capped at the last close whenever some support
   * candidate lies at or below it (otherwise the first distinct candidate
   * is used).
   */
  lemma IntradaySupportsCapped(bars: seq<Bar>, levels: int, lastClose: int)
    requires exists c :: c in SupportCandidates(Tail(bars, IntradayLookbackBars), SessionDates(Tail(bars, IntradayLookbackBars)))
                         && c.price <= lastClose
    ensures forall p :: p in IntradayLevels(bars, levels, lastClose).0 ==> p <= lastClose
  {
    var w := Tail(bars, IntradayLookbackBars);
    var sc := SupportCandidates(w, SessionDates(w));
    var c :| c in sc && c.price <= lastClose;
    assert InBounds(c.price, None, Some(lastClose));
    RankedLevelsWithinBounds(sc, lastClose, levels, false, Distance, None, Some(lastClose));
  }

  /**
   * Intraday resistances lie at or above the last close and every support
   * whenever some resistance candidate reaches that floor (otherwise the
   * first distinct candidate is used).
   */
  lemma IntradayResistancesFloored(bars: seq<Bar>, levels: int, lastClose: int)
    requires var w := Tail(bars, IntradayLookbackBars);
      exists c :: c in ResistanceCandidates(w, SessionDates(w))
                  && c.price >= ResistanceFloor(IntradayLevels(bars, levels, lastClose).0, lastClose)
    ensures var (supports, resistances) := IntradayLevels(bars, levels, lastClose);
      forall p :: p in resistances ==> p >= lastClose && forall q :: q in supports ==> p >= q
  {
    var w := Tail(bars, IntradayLookbackBars);
    var rc := ResistanceCandidates(w, SessionDates(w));
    var supports := IntradayLevels(bars, levels, lastClose).0;
    assert IntradayLevels(bars, levels, lastClose).1
        == RankedLevels(rc, lastClose, levels, true, Distance, Some(ResistanceFloor(supports, lastClose)), None);
    FlooredResistances(supports, rc, lastClose, levels);
  }

  /** Resistances ranked above the floor lie above the last close and every support. */
  lemma FlooredResistances(supports: seq<int>, rc: seq<Candidate>, lastClose: int, levels: int)
    requires exists c :: c in rc && c.price >= ResistanceFloor(supports, lastClose)
    ensures forall p :: p in RankedLevels(rc, lastClose, levels, true, Distance, Some(ResistanceFloor(supports, lastClose)), None) ==>
      p >= lastClose && forall q :: q in supports ==> p >= q
  {
    var floor := ResistanceFloor(supports, lastClose);
    var c :| c in rc && c.price >= floor;
    assert InBounds(c.price, Some(floor), None);
    RankedLevelsWithinBounds(rc, lastClose, levels, true, Distance, Some(floor), None);
    FloorBounds(supports, lastClose);
  }

  /** The resistance floor is at least the last close and every support. */
  lemma FloorBounds(supports: seq<int>, lastClose: int)
    ensures ResistanceFloor(supports, lastClose) >= lastClose
    ensures forall q :: q in supports ==> q <= ResistanceFloor(supports, lastClose)
  {
    forall q | q in supports ensures q <= ResistanceFloor(supports, lastClose) {
      var k :| 0 <= k < |supports| && supports[k] == q;
    }
  }

  // ---------------------------------------------------------------- 4h

  /** The Monday-to-Sunday week (`to_period("W-SUN")`): 1970-01-01 was a Thursday. */
  function Week(ts: int): int { (ts / SecondsPerDay + 3) / 7 }

  /** One row of the weekly aggregation: highest high, lowest low, last timestamp. */
  datatype WeekStat = WeekStat(week: int, high: int, low: int, end: int)

  function Weeks(w: seq<Bar>): seq<int> {
    seq(|w|, k requires 0 <= k < |w| => Week(w[k].ts))
  }

  function OnWeek(w: seq<Bar>, wk: int): seq<Bar> {
    Filter(w, (b: Bar) => Week(b.ts) == wk)
  }

  lemma OnWeekNonEmpty(w: seq<Bar>, wk: int)
    requires wk in Weeks(w)
    ensures OnWeek(w, wk) != []
  {
    var i :| 0 <= i < |w| && Weeks(w)[i] == wk;
    assert w[i] in OnWeek(w, wk);
  }

  /** The aggregation of week `wk`. */
  function StatOf(w: seq<Bar>, wk: int): WeekStat
    requires wk in Weeks(w)
  {
    OnWeekNonEmpty(w, wk);
    var bs := OnWeek(w, wk);
    WeekStat(wk, MaxOf(Highs(bs)), MinOf(Lows(bs)), MaxOf(Times(bs)))
  }

  /**
   * A week's row holds the lowest low and the highest high reached by its
   * bars and the timestamp of its last bar.
   */
  lemma StatOfMeaning(w: seq<Bar>, wk: int)
    requires wk in Weeks(w)
    ensures var s := StatOf(w, wk);
      && s.week == wk
      && (forall b :: b in w && Week(b.ts) == wk ==> s.low <= b.low && b.high <= s.high && b.ts <= s.end)
      && (exists b :: b in w && Week(b.ts) == wk && b.low == s.low)
      && (exists b :: b in w && Week(b.ts) == wk && b.high == s.high)
      && (exists b :: b in w && Week(b.ts) == wk && b.ts == s.end)
  {
    OnWeekNonEmpty(w, wk);
    var bs := OnWeek(w, wk);
    var s := StatOf(w, wk);
    assert forall b :: b in w && Week(b.ts) == wk ==> s.low <= b.low && b.high <= s.high && b.ts <= s.end by {
      forall b | b in w && Week(b.ts) == wk ensures s.low <= b.low && b.high <= s.high && b.ts <= s.end {
        assert b in bs;
        var k :| 0 <= k < |bs| && bs[k] == b;
        assert Lows(bs)[k] == b.low && Highs(bs)[k] == b.high && Times(bs)[k] == b.ts;
      }
    }
    var kl :| 0 <= kl < |bs| && Lows(bs)[kl] == s.low;
    assert bs[kl] in bs;
    var kh :| 0 <= kh < |bs| && Highs(bs)[kh] == s.high;
    assert bs[kh] in bs;
    var ke :| 0 <= ke < |bs| && Times(bs)[ke] == s.end;
    assert bs[ke] in bs;
  }

  function StatsFor(w: seq<Bar>, weeks: seq<int>): (r: seq<WeekStat>)
    requires forall k :: 0 <= k < |weeks| ==> weeks[k] in Weeks(w)
    ensures |r| == |weeks| && forall k :: 0 <= k < |weeks| ==> r[k] == StatOf(w, weeks[k])
  {
    if weeks == [] then [] else [StatOf(w, weeks[0])] + StatsFor(w, weeks[1..])
  }

  /** The weeks present in the window, each once, ascending. */
  function WeekKeys(w: seq<Bar>): (ks: seq<int>)
    ensures forall k :: 0 <= k < |ks| ==> ks[k] in Weeks(w)
  {
    var u := Dedupe(Weeks(w));
    var ks := SortInts(u, false);
    assert forall k :: 0 <= k < |ks| ==> ks[k] in Weeks(w) by {
      forall k | 0 <= k < |ks| ensures ks[k] in Weeks(w) {
        assert ks[k] in multiset(ks);
        assert ks[k] in u;
      }
    }
    ks
  }

  /** `groupby("week").agg(...).sort_values("week")`. */
  function Weekly(w: seq<Bar>): seq<WeekStat> {
    StatsFor(w, WeekKeys(w))
  }

  lemma WeekKeysProps(w: seq<Bar>)
    ensures var ks := WeekKeys(w);
      Distinct(ks) && Ascending(ks) && forall wk :: wk in ks <==> wk in Weeks(w)
  {
    var u := Dedupe(Weeks(w));
    var ks := WeekKeys(w);
    DistinctPermutation(u, ks);
    forall x | x in Weeks(w) ensures x in ks {
      assert x in u;
      assert x in multiset(ks);
    }
  }

  /** One weekly row per week present, weeks strictly ascending. */
  lemma WeeklyProps(w: seq<Bar>)
    ensures var r := Weekly(w);
      && (forall i, j :: 0 <= i < j < |r| ==> r[i].week < r[j].week)
      && (forall wk :: wk in Weeks(w) <==> exists k :: 0 <= k < |r| && r[k].week == wk)
      && (forall k :: 0 <= k < |r| ==> r[k] == StatOf(w, r[k].week))
  {
    var ks := WeekKeys(w);
    WeekKeysProps(w);
    var r := Weekly(w);
    assert forall k :: 0 <= k < |r| ==> r[k].week == ks[k];
    forall i, j | 0 <= i < j < |r| ensures r[i].week < r[j].week {
      assert ks[i] <= ks[j] && ks[i] != ks[j];
    }
    forall wk | wk in Weeks(w) ensures exists k :: 0 <= k < |r| && r[k].week == wk {
      var k :| 0 <= k < |ks| && ks[k] == wk;
      assert r[k].week == wk;
    }
  }

  /** The last week made a higher high or a lower low than the week before. */
  predicate Breakout(weekly: seq<WeekStat>) {
    |weekly| >= 2
    && (weekly[|weekly| - 1].high > weekly[|weekly| - 2].high
        || weekly[|weekly| - 1].low < weekly[|weekly| - 2].low)
  }

  /** Every week's (low, week end), from the loop over the weekly rows. */
  function WeekLowCandidates(weekly: seq<WeekStat>): seq<Candidate> {
    if weekly == [] then []
    else WeekLowCandidates(weekly[..|weekly| - 1]) + [Candidate(weekly[|weekly| - 1].low, weekly[|weekly| - 1].end)]
  }

  /** Every week's (high, week end). */
  function WeekHighCandidates(weekly: seq<WeekStat>): seq<Candidate> {
    if weekly == [] then []
    else WeekHighCandidates(weekly[..|weekly| - 1]) + [Candidate(weekly[|weekly| - 1].high, weekly[|weekly| - 1].end)]
  }

  lemma {:induction false} WeekCandidatesComplete(weekly: seq<WeekStat>)
    ensures |WeekLowCandidates(weekly)| == |weekly| && |WeekHighCandidates(weekly)| == |weekly|
    ensures forall k :: 0 <= k < |weekly| ==>
      WeekLowCandidates(weekly)[k] == Candidate(weekly[k].low, weekly[k].end)
      && WeekHighCandidates(weekly)[k] == Candidate(weekly[k].high, weekly[k].end)
  {
    if weekly != [] {
      WeekCandidatesComplete(weekly[..|weekly| - 1]);
    }
  }

  function FourHourSupportCandidates(weekly: seq<WeekStat>): seq<Candidate> {
    if Breakout(weekly) then WeekLowCandidates(weekly) else []
  }

  function FourHourResistanceCandidates(weekly: seq<WeekStat>): seq<Candidate> {
    if Breakout(weekly) then WeekHighCandidates(weekly) else []
  }

  /** `_compute_four_hour_levels(df, levels, last_close)`. */
  function FourHourLevels(bars: seq<Bar>, levels: int, lastClose: int): (seq<int>, seq<int>) {
    var w := Tail(bars, FourHourLookbackBars);
    var weekly := Weekly(w);
    var sc := FourHourSupportCandidates(weekly);
    var rc := FourHourResistanceCandidates(weekly);
    if sc == [] && rc == [] then
      (MergedLevels(FallbackSupports(w, levels), Lows(w), FourHourMergeTolerance, true),
       MergedLevels(FallbackResistances(w, levels), Highs(w), FourHourMergeTolerance, false))
    else
      (RankedLevels(sc, lastClose, levels, false, StructureFirst, None, None),
       RankedLevels(rc, lastClose, levels, true, StructureFirst, None, None))
  }

  /** The candidate loop over the weekly rows: every week's low and high, in order. */
  method CollectWeekCandidates(weekly: seq<WeekStat>)
    returns (supportCandidates: seq<Candidate>, resistanceCandidates: seq<Candidate>)
    ensures supportCandidates == WeekLowCandidates(weekly)
    ensures resistanceCandidates == WeekHighCandidates(weekly)
  {
    supportCandidates, resistanceCandidates := [], [];
    var i := 0;
    while i < |weekly|
      invariant 0 <= i <= |weekly|
      invariant supportCandidates == WeekLowCandidates(weekly[..i])
      invariant resistanceCandidates == WeekHighCandidates(weekly[..i])
    {
      assert weekly[..i + 1][..i] == weekly[..i];
      supportCandidates := supportCandidates + [Candidate(weekly[i].low, weekly[i].end)];
      resistanceCandidates := resistanceCandidates + [Candidate(weekly[i].high, weekly[i].end)];
      i := i + 1;
    }
    assert weekly[..|weekly|] == weekly;
  }

  /** `_compute_four_hour_levels`: candidates only after a breakout, the merged extremes otherwise. */
  method ComputeFourHourLevels(bars: seq<Bar>, levels: int, lastClose: int)
    returns (supports: seq<int>, resistances: seq<int>)
    ensures (supports, resistances) == FourHourLevels(bars, levels, lastClose)
  {
    var w := Tail(bars, FourHourLookbackBars);
    var weekly := Weekly(w);
    var supportCandidates: seq<Candidate> := [];
    var resistanceCandidates: seq<Candidate> := [];
    if Breakout(weekly) {
      supportCandidates, resistanceCandidates := CollectWeekCandidates(weekly);
    }
    assert supportCandidates == FourHourSupportCandidates(weekly);
    assert resistanceCandidates == FourHourResistanceCandidates(weekly);
    if |supportCandidates| == 0 && |resistanceCandidates| == 0 {
      var fallbackSupports := FallbackSupports(w, levels);
      var fallbackResistances := FallbackResistances(w, levels);
      supports := MergeNearbyLevels(fallbackSupports, Lows(w), FourHourMergeTolerance, true);
      resistances := MergeNearbyLevels(fallbackResistances, Highs(w), FourHourMergeTolerance, false);
      return;
    }
    supports := RankLevels(supportCandidates, lastClose, levels, false, StructureFirst, None, None);
    resistances := RankLevels(resistanceCandidates, lastClose, levels, true, StructureFirst, None, None);
  }

  /**
   * The 4h rule ranks every week's low and high structure-first exactly when
   * the last week broke out of the previous one, and merges the window's
   * extremes at the 0.05 tolerance otherwise.
   */
  lemma FourHourCases(bars: seq<Bar>, levels: int, lastClose: int)
    ensures var w := Tail(bars, FourHourLookbackBars);
      var weekly := Weekly(w);
      && (Breakout(weekly) ==>
            && |FourHourSupportCandidates(weekly)| == |weekly|
            && (forall k :: 0 <= k < |weekly| ==>
                  Candidate(weekly[k].low, weekly[k].end) in FourHourSupportCandidates(weekly)
                  && Candidate(weekly[k].high, weekly[k].end) in FourHourResistanceCandidates(weekly))
            && FourHourLevels(bars, levels, lastClose) ==
                 (RankedLevels(FourHourSupportCandidates(weekly), lastClose, levels, false, StructureFirst, None, None),
                  RankedLevels(FourHourResistanceCandidates(weekly), lastClose, levels, true, StructureFirst, None, None)))
      && (!Breakout(weekly) ==>
            FourHourLevels(bars, levels, lastClose) ==
              (MergedLevels(FallbackSupports(w, levels), Lows(w), FourHourMergeTolerance, true),
               MergedLevels(FallbackResistances(w, levels), Highs(w), FourHourMergeTolerance, false)))
  {
    var w := Tail(bars, FourHourLookbackBars);
    var weekly := Weekly(w);
    WeekCandidatesComplete(weekly);
    if Breakout(weekly) {
      forall k | 0 <= k < |weekly|
        ensures Candidate(weekly[k].low, weekly[k].end) in FourHourSupportCandidates(weekly)
        ensures Candidate(weekly[k].high, weekly[k].end) in FourHourResistanceCandidates(weekly)
      {
        assert FourHourSupportCandidates(weekly)[k] == Candidate(weekly[k].low, weekly[k].end);
        assert FourHourResistanceCandidates(weekly)[k] == Candidate(weekly[k].high, weekly[k].end);
      }
      assert FourHourSupportCandidates(weekly) != [];
    }
  }

  // ---------------------------------------------------------------- 1d

  /** `close < open`; a missing open compares false. */
  predicate Bearish(b: Bar) { b.open.Some? && b.close < b.open.value }

  /** `close > open`; a missing open compares false. */
  predicate Bullish(b: Bar) { b.open.Some? && b.close > b.open.value }

  /** `abs(p - last_close) <= last_close * 0.005`. */
  predicate NearClose(p: int, lastClose: int) { DailyToleranceDivisor * Abs(p - lastClose) <= lastClose }

  /** The bar at `i` is followed by three bearish bars. */
  predicate BearishFollow(w: seq<Bar>, i: int)
    requires 0 <= i && i + DailyReversalCandles < |w|
  {
    Bearish(w[i + 1]) && Bearish(w[i + 2]) && Bearish(w[i + 3])
  }

  predicate BullishFollow(w: seq<Bar>, i: int)
    requires 0 <= i && i + DailyReversalCandles < |w|
  {
    Bullish(w[i + 1]) && Bullish(w[i + 2]) && Bullish(w[i + 3])
  }

  /** `range(window.shape[0] - 3)`: the bar indices that have three bars after them. */
  function ScanEnd(w: seq<Bar>): nat {
    if |w| > DailyReversalCandles then |w| - DailyReversalCandles else 0
  }

  /** Resistance candidates from the bars `w[..n]`. */
  function DailyResistanceCandidates(w: seq<Bar>, lastClose: int, n: nat): seq<Candidate>
    requires n + DailyReversalCandles <= |w| || n == 0
  {
    if n == 0 then []
    else
      var i := n - 1;
      DailyResistanceCandidates(w, lastClose, i)
        + (if NearClose(w[i].high, lastClose) && BearishFollow(w, i) then [Candidate(w[i].high, w[i].ts)] else [])
  }

  /** Support candidates from the bars `w[..n]`. */
  function DailySupportCandidates(w: seq<Bar>, lastClose: int, n: nat): seq<Candidate>
    requires n + DailyReversalCandles <= |w| || n == 0
  {
    if n == 0 then []
    else
      var i := n - 1;
      DailySupportCandidates(w, lastClose, i)
        + (if NearClose(w[i].low, lastClose) && BullishFollow(w, i) then [Candidate(w[i].low, w[i].ts)] else [])
  }

  /** Bar `i` of `w` yields the resistance candidate `c`. */
  predicate ResistanceBar(w: seq<Bar>, lastClose: int, i: int, c: Candidate) {
    && 0 <= i && i + DailyReversalCandles < |w| && c == Candidate(w[i].high, w[i].ts)
    && NearClose(w[i].high, lastClose) && BearishFollow(w, i)
  }

  /** Bar `i` of `w` yields the support candidate `c`. */
  predicate SupportBar(w: seq<Bar>, lastClose: int, i: int, c: Candidate) {
    && 0 <= i && i + DailyReversalCandles < |w| && c == Candidate(w[i].low, w[i].ts)
    && NearClose(w[i].low, lastClose) && BullishFollow(w, i)
  }

  /**
   * A daily resistance candidate is exactly a bar, not among the last three,
   * whose high is within 0.5% of the last close and which three bearish bars
   * follow.
   */
  lemma {:induction false} DailyResistanceMeaning(w: seq<Bar>, lastClose: int, n: nat, c: Candidate)
    requires n + DailyReversalCandles <= |w| || n == 0
    ensures c in DailyResistanceCandidates(w, lastClose, n) <==> exists i :: i < n && ResistanceBar(w, lastClose, i, c)
  {
    if n > 0 {
      var i := n - 1;
      DailyResistanceMeaning(w, lastClose, i, c);
      var last := if NearClose(w[i].high, lastClose) && BearishFollow(w, i) then [Candidate(w[i].high, w[i].ts)] else [];
      assert DailyResistanceCandidates(w, lastClose, n) == DailyResistanceCandidates(w, lastClose, i) + last;
      assert c in last <==> ResistanceBar(w, lastClose, i, c);
      if exists j :: j < n && ResistanceBar(w, lastClose, j, c) {
        var j :| j < n && ResistanceBar(w, lastClose, j, c);
        if j < i {
          assert exists j :: j < i && ResistanceBar(w, lastClose, j, c);
        }
      }
    }
  }

  /**
   * A daily support candidate is exactly a bar, not among the last three,
   * whose low is within 0.5% of the last close and which three bullish bars
   * follow.
   */
  lemma {:induction false} DailySupportMeaning(w: seq<Bar>, lastClose: int, n: nat, c: Candidate)
    requires n + DailyReversalCandles <= |w| || n == 0
    ensures c in DailySupportCandidates(w, lastClose, n) <==> exists i :: i < n && SupportBar(w, lastClose, i, c)
  {
    if n > 0 {
      var i := n - 1;
      DailySupportMeaning(w, lastClose, i, c);
      var last := if NearClose(w[i].low, lastClose) && BullishFollow(w, i) then [Candidate(w[i].low, w[i].ts)] else [];
      assert DailySupportCandidates(w, lastClose, n) == DailySupportCandidates(w, lastClose, i) + last;
      assert c in last <==> SupportBar(w, lastClose, i, c);
      if exists j :: j < n && SupportBar(w, lastClose, j, c) {
        var j :| j < n && SupportBar(w, lastClose, j, c);
        if j < i {
          assert exists j :: j < i && SupportBar(w, lastClose, j, c);
        }
      }
    }
  }

  /** `_compute_daily_reversals(df, levels, last_close)`. */
  function DailyLevels(bars: seq<Bar>, levels: int, lastClose: int): (seq<int>, seq<int>) {
    var w := Tail(bars, DailyLookbackBars);
    var n := ScanEnd(w);
    var supports := RankedLevels(DailySupportCandidates(w, lastClose, n), lastClose, levels, false, StructureFirst, None, None);
    var resistances := RankedLevels(DailyResistanceCandidates(w, lastClose, n), lastClose, levels, true, StructureFirst, None, None);
    (if supports == [] then FallbackSupports(w, levels) else supports,
     if resistances == [] then FallbackResistances(w, levels) else resistances)
  }

  /** The candidate loop over bar indices: every bar three bars before the end is looked at. */
  method CollectDailyCandidates(w: seq<Bar>, lastClose: int)
    returns (supportCandidates: seq<Candidate>, resistanceCandidates: seq<Candidate>)
    ensures supportCandidates == DailySupportCandidates(w, lastClose, ScanEnd(w))
    ensures resistanceCandidates == DailyResistanceCandidates(w, lastClose, ScanEnd(w))
  {
    supportCandidates, resistanceCandidates := [], [];
    var idx := 0;
    while idx < |w| - DailyReversalCandles
      invariant 0 <= idx <= ScanEnd(w)
      invariant supportCandidates == DailySupportCandidates(w, lastClose, idx)
      invariant resistanceCandidates == DailyResistanceCandidates(w, lastClose, idx)
    {
      var bearish := Bearish(w[idx + 1]) && Bearish(w[idx + 2]) && Bearish(w[idx + 3]);
      var bullish := Bullish(w[idx + 1]) && Bullish(w[idx + 2]) && Bullish(w[idx + 3]);
      var current := w[idx];
      if NearClose(current.high, lastClose) && bearish {
        resistanceCandidates := resistanceCandidates + [Candidate(current.high, current.ts)];
      }
      if NearClose(current.low, lastClose) && bullish {
        supportCandidates := supportCandidates + [Candidate(current.low, current.ts)];
      }
      idx := idx + 1;
    }
  }

  /** `_compute_daily_reversals`: ranked candidates, each side falling back to the window's extremes. */
  method ComputeDailyReversals(bars: seq<Bar>, levels: int, lastClose: int)
    returns (supports: seq<int>, resistances: seq<int>)
    ensures (supports, resistances) == DailyLevels(bars, levels, lastClose)
  {
    var w := Tail(bars, DailyLookbackBars);
    var supportCandidates, resistanceCandidates := CollectDailyCandidates(w, lastClose);
    supports := RankLevels(supportCandidates, lastClose, levels, false, StructureFirst, None, None);
    resistances := RankLevels(resistanceCandidates, lastClose, levels, true, StructureFirst, None, None);
    if |supports| == 0 {
      supports := FallbackSupports(w, levels);
    }
    if |resistances| == 0 {
      resistances := FallbackResistances(w, levels);
    }
  }
}
