/**
 * The OHLC frame the level engine works on.
 *
 * Prices are integer ticks of 0.0001, so rounding a price to four decimals
 * (which the Python code does before comparing or de-duplicating) is the
 * identity here. Timestamps are integer seconds since the Unix epoch, UTC.
 */
module Ohlc {
  import opened Wrappers
  import opened Seqs

  /** One row as read: a field that failed to parse (NaN / NaT) is `None`. */
  datatype Row = Row(ts: Option<int>, open: Option<int>, high: Option<int>, low: Option<int>, close: Option<int>)

  /**
   * A row that survives cleaning: timestamp, high, low and close are present.
   * Cleaning does not look at `open`, so it can still be missing.
   */
  datatype Bar = Bar(ts: int, open: Option<int>, high: int, low: int, close: int)

  function Abs(x: int): nat { if x < 0 then -x else x }

  /** The comparison behind `sorted(xs)` (`desc` false) and `sorted(xs, reverse=True)`. */
  function IntOrder(desc: bool): (int, int) -> bool {
    if desc then (a: int, b: int) => a >= b else (a: int, b: int) => a <= b
  }

  lemma IntOrderTotal(desc: bool)
    ensures TotalPreorder(IntOrder(desc))
  {
  }

  predicate Ascending(s: seq<int>) { forall i, j :: 0 <= i < j < |s| ==> s[i] <= s[j] }
  predicate Descending(s: seq<int>) { forall i, j :: 0 <= i < j < |s| ==> s[i] >= s[j] }

  /** Python's `sorted(s, reverse=desc)` on prices. */
  function SortInts(s: seq<int>, desc: bool): (r: seq<int>)
    ensures |r| == |s| && multiset(r) == multiset(s)
    ensures desc ==> Descending(r)
    ensures !desc ==> Ascending(r)
  {
    IntOrderTotal(desc);
    SortBySorted(s, IntOrder(desc));
    SortBy(s, IntOrder(desc))
  }

  /** The largest element. */
  function MaxOf(s: seq<int>): (m: int)
    requires s != []
    ensures m in s
    ensures forall k :: 0 <= k < |s| ==> s[k] <= m
  {
    if |s| == 1 then s[0]
    else
      var m := MaxOf(s[..|s| - 1]);
      if s[|s| - 1] > m then s[|s| - 1] else m
  }

  /** The smallest element. */
  function MinOf(s: seq<int>): (m: int)
    requires s != []
    ensures m in s
    ensures forall k :: 0 <= k < |s| ==> m <= s[k]
  {
    if |s| == 1 then s[0]
    else
      var m := MinOf(s[..|s| - 1]);
      if s[|s| - 1] < m then s[|s| - 1] else m
  }

  predicate Complete(r: Row) {
    r.ts.Some? && r.high.Some? && r.low.Some? && r.close.Some?
  }

  function ToBar(r: Row): Bar
    requires Complete(r)
  {
    Bar(r.ts.value, r.open, r.high.value, r.low.value, r.close.value)
  }

  /** `dropna(subset=[ts, "high", "low", "close"])`: the complete rows, in order. */
  function Completes(rows: seq<Row>): (bars: seq<Bar>)
    ensures |bars| <= |rows|
    ensures forall k :: 0 <= k < |rows| && Complete(rows[k]) ==> ToBar(rows[k]) in bars
    ensures forall b :: b in bars ==> exists k :: 0 <= k < |rows| && Complete(rows[k]) && b == ToBar(rows[k])
  {
    if rows == [] then []
    else
      var rest := Completes(rows[1..]);
      assert forall k :: 1 <= k < |rows| ==> rows[k] == rows[1..][k - 1];
      (if Complete(rows[0]) then [ToBar(rows[0])] else []) + rest
  }

  ghost predicate ByTime(w: seq<Bar>) {
    forall i, j :: 0 <= i < j < |w| ==> w[i].ts <= w[j].ts
  }

  /** The order `sort_values(ts)` puts bars in. */
  function TimeOrder(): (Bar, Bar) -> bool {
    (a: Bar, b: Bar) => a.ts <= b.ts
  }

  /**
   * The cleaned working frame: complete rows sorted by timestamp (a stable
   * sort, so rows with equal timestamps keep their order).
   */
  function Working(rows: seq<Row>): (w: seq<Bar>)
    ensures |w| <= |rows|
    ensures multiset(w) == multiset(Completes(rows))
    ensures ByTime(w)
    ensures w == [] <==> forall k :: 0 <= k < |rows| ==> !Complete(rows[k])
  {
    var c := Completes(rows);
    assert TotalPreorder(TimeOrder());
    SortBySorted(c, TimeOrder());
    var w := SortBy(c, TimeOrder());
    assert ByTime(w) by {
      forall i, j | 0 <= i < j < |w| ensures w[i].ts <= w[j].ts {
        assert TimeOrder()(w[i], w[j]);
      }
    }
    assert c != [] ==> c[0] in c;
    w
  }

  function Lows(w: seq<Bar>): (r: seq<int>)
    ensures |r| == |w| && forall k :: 0 <= k < |w| ==> r[k] == w[k].low
  {
    seq(|w|, k requires 0 <= k < |w| => w[k].low)
  }

  function Highs(w: seq<Bar>): (r: seq<int>)
    ensures |r| == |w| && forall k :: 0 <= k < |w| ==> r[k] == w[k].high
  {
    seq(|w|, k requires 0 <= k < |w| => w[k].high)
  }

  function Closes(w: seq<Bar>): (r: seq<int>)
    ensures |r| == |w| && forall k :: 0 <= k < |w| ==> r[k] == w[k].close
  {
    seq(|w|, k requires 0 <= k < |w| => w[k].close)
  }

  function Times(w: seq<Bar>): (r: seq<int>)
    ensures |r| == |w| && forall k :: 0 <= k < |w| ==> r[k] == w[k].ts
  {
    seq(|w|, k requires 0 <= k < |w| => w[k].ts)
  }

  lemma TailKeepsOrder(w: seq<Bar>, n: nat)
    requires ByTime(w)
    ensures ByTime(Tail(w, n))
  {
    var t := Tail(w, n);
    forall i, j | 0 <= i < j < |t| ensures t[i].ts <= t[j].ts {
      assert t[i] == w[|w| - |t| + i] && t[j] == w[|w| - |t| + j];
    }
  }
}
