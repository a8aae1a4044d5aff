/**
 * The pure decisions inside the data fetcher: period and interval parsing,
 * counting business days, choosing between the primary and the fallback
 * download, the empty-result error type, the business-day trim, and the
 * CSV exports.
 *
 * A frame is the prepared download: rows indexed by a JST timestamp in
 * seconds, so the normalised (midnight) day of a row is `ts / 86400`.
 */
module Fetcher {
  import opened Wrappers
  import opened Seqs
  import opened Text
  import Analysis

  // ---------------------------------------------------------------------
  // Period and interval strings
  // ---------------------------------------------------------------------

  /** `_extract_business_days(period)`: n for `"<n>d"` with n > 0, else None. */
  function ExtractBusinessDays(period: string): (r: Option<nat>)
    ensures r.Some? ==> r.value > 0
  {
    match NumberWithUnit(RegexBody(period), IsLower)
    case None => None
    case Some((value, unit)) =>
      if unit != "d" then None
      else
        var days := DigitsValue(value);
        if days > 0 then Some(days) else None
  }

  /** A positive count written in decimal and followed by `d` is read back. */
  lemma ExtractBusinessDaysRoundTrip(n: nat)
    requires n > 0
    ensures ExtractBusinessDays(NatToString(n) + "d") == Some(n)
    ensures ExtractBusinessDays(NatToString(n) + "d\n") == Some(n)
  {
    NumberWithUnitOf(NatToString(n), "d", IsLower);
    NatToStringRoundTrip(n);
    assert RegexBody(NatToString(n) + "d") == NatToString(n) + "d";
    assert RegexBody(NatToString(n) + "d\n") == NatToString(n) + "d";
  }

  /** Conversely, a period that is read has exactly that shape. */
  lemma ExtractBusinessDaysShape(period: string) returns (digits: string)
    requires ExtractBusinessDays(period).Some?
    ensures |digits| >= 1 && AllDigits(digits)
    ensures DigitsValue(digits) == ExtractBusinessDays(period).value
    ensures period == digits + "d" || period == digits + "d\n"
  {
    var (value, unit) := NumberWithUnit(RegexBody(period), IsLower).value;
    digits := value;
  }

  /** Months, a zero count and an upper-case unit are all refused. */
  lemma ExtractBusinessDaysRefuses()
    ensures ExtractBusinessDays("3mo") == None
    ensures ExtractBusinessDays("0d") == None
    ensures ExtractBusinessDays("5D") == None
  {
    assert LeadingDigits("3mo") == 1 by { assert "3mo"[1..] == "mo"; }
    assert "3mo"[1..] == "mo";
    assert LeadingDigits("0d") == 1 by { assert "0d"[1..] == "d"; }
    assert "0d"[..1] == "0" && "0d"[1..] == "d";
    assert DigitsValue("0") == 0 by { assert "0"[..0] == ""; }
    assert !IsLower("5D"[1]);
  }

  /** `_parse_interval(interval)`: the count and the unit, or `(None, None)`. */
  function ParseInterval(interval: string): (r: (Option<nat>, Option<string>))
    ensures r.0.Some? <==> r.1.Some?
    ensures r.1.Some? ==> |r.1.value| >= 1 && AllLower(r.1.value)
  {
    match NumberWithUnit(RegexBody(interval), IsLower)
    case None => (None, None)
    case Some((value, unit)) => (Some(DigitsValue(value)), Some(unit))
  }

  lemma ParseIntervalRoundTrip(n: nat, unit: string)
    requires |unit| >= 1 && AllLower(unit)
    ensures ParseInterval(NatToString(n) + unit) == (Some(n), Some(unit))
  {
    NumberWithUnitOf(NatToString(n), unit, IsLower);
    NatToStringRoundTrip(n);
    assert RegexBody(NatToString(n) + unit) == NatToString(n) + unit;
  }

  /**
   * Conversely, an interval that is read is digits followed by a lower-case
   * unit (and at most one final newline), and the count is those digits.
   */
  lemma ParseIntervalShape(interval: string) returns (digits: string)
    requires ParseInterval(interval).0.Some?
    ensures |digits| >= 1 && AllDigits(digits)
    ensures DigitsValue(digits) == ParseInterval(interval).0.value
    ensures var unit := ParseInterval(interval).1.value;
      interval == digits + unit || interval == digits + unit + "\n"
  {
    var (value, unit) := NumberWithUnit(RegexBody(interval), IsLower).value;
    digits := value;
  }

  /** A missing count, a missing unit and an upper-case unit all give `(None, None)`. */
  lemma ParseIntervalRefuses()
    ensures ParseInterval("h") == (None, None)
    ensures ParseInterval("15") == (None, None)
    ensures ParseInterval("1H") == (None, None)
  {
    assert LeadingDigits("15") == 2 by {
      assert "15"[1..] == "5";
      assert "5"[1..] == "";
    }
    assert LeadingDigits("1H") == 1 by { assert "1H"[1..] == "H"; }
    assert !IsLower("1H"[1]);
  }

  function IsMinuteInterval(interval: string): bool {
    ParseInterval(interval).1 == Some("m")
  }

  // ---------------------------------------------------------------------
  // Frames and business days
  // ---------------------------------------------------------------------

  const SecondsPerDay := 86400

  /** One prepared row: JST timestamp in seconds and the price fields. */
  datatype FxRow = FxRow(ts: int, open: real, high: real, low: real, close: real, volume: int)

  /** `index.normalize()` of a row: its JST calendar day. */
  function Day(r: FxRow): int { r.ts / SecondsPerDay }

  function Days(frame: seq<FxRow>): (d: seq<int>)
    ensures |d| == |frame| && forall i :: 0 <= i < |frame| ==> d[i] == Day(frame[i])
  {
    seq(|frame|, i requires 0 <= i < |frame| => Day(frame[i]))
  }

  /** `_count_unique_business_days(df)`. */
  function CountUniqueBusinessDays(frame: seq<FxRow>): nat {
    if frame == [] then 0 else |Dedupe(Days(frame))|
  }

  /** The count is the number of distinct days, and 0 exactly for an empty frame. */
  lemma CountUniqueMeaning(frame: seq<FxRow>)
    ensures CountUniqueBusinessDays(frame) == |set r | r in frame :: Day(r)|
    ensures CountUniqueBusinessDays(frame) == 0 <==> frame == []
  {
    var d := Days(frame);
    DedupeCount(d);
    assert (set x | x in d) == (set r | r in frame :: Day(r)) by {
      forall x | x in d ensures x in (set r | r in frame :: Day(r)) {
        var i :| 0 <= i < |d| && d[i] == x;
        assert frame[i] in frame;
      }
      forall r | r in frame ensures Day(r) in d {
        var i :| 0 <= i < |frame| && frame[i] == r;
        assert d[i] == Day(r);
      }
    }
    if frame != [] {
      assert d[0] in d;
      assert d[0] in Dedupe(d);
    }
  }

  /** The fallback download is attempted when a day-count period is visibly under-covered. */
  function NeedsFallback(interval: string, period: string, primary: seq<FxRow>): bool {
    var expected := ExtractBusinessDays(period);
    !IsMinuteInterval(interval) && expected.Some? && CountUniqueBusinessDays(primary) < expected.value
  }

  /** The choice between the primary frame and the fallback frame, as written. */
  function SelectFrame(primary: seq<FxRow>, fallback: seq<FxRow>): seq<FxRow> {
    if CountUniqueBusinessDays(fallback) >= CountUniqueBusinessDays(primary) then fallback
    else if primary == [] && fallback != [] then fallback
    else primary
  }

  /**
   * The second test never decides anything: an empty primary frame has 0
   * days, so the first test already picked the fallback.
   */
  lemma SelectFrameSecondTestDead(primary: seq<FxRow>, fallback: seq<FxRow>)
    ensures SelectFrame(primary, fallback)
         == if CountUniqueBusinessDays(fallback) >= CountUniqueBusinessDays(primary) then fallback else primary
    ensures primary == [] ==> SelectFrame(primary, fallback) == fallback
  {
  }

  /** The error type reported when the final frame is empty. */
  function EmptyResultError(rawDataPresent: bool, excludeWeekends: bool): (t: string)
    ensures t == "AllWeekendData" <==> rawDataPresent && excludeWeekends
    ensures t == "AllWeekendData" || t == "NoDataAvailable"
  {
    if rawDataPresent && excludeWeekends then "AllWeekendData" else "NoDataAvailable"
  }

  /** `seq[-n:]`: the last `n` elements; `-0` is 0, which keeps everything. */
  function LastN<T>(s: seq<T>, n: nat): (r: seq<T>)
    requires n <= |s|
    ensures n > 0 ==> r == s[|s| - n..]
  {
    if n == 0 then s else s[|s| - n..]
  }

  /** The test `normalized_index.isin(keep_days)`. */
  function OnDays(keep: set<int>): FxRow -> bool {
    (r: FxRow) => Day(r) in keep
  }

  /**
   * The trim to the requested number of business days: with more distinct
   * days than requested, keep the rows whose day is among the last ones.
   */
  function TrimToBusinessDays(frame: seq<FxRow>, expected: Option<nat>): seq<FxRow> {
    if expected.None? || frame == [] then frame
    else
      var unique := Dedupe(Days(frame));
      if |unique| > expected.value then
        Filter(frame, OnDays(set d | d in LastN(unique, expected.value)))
      else frame
  }

  /** With no more distinct days than requested the frame is left as it is. */
  lemma TrimNoOp(frame: seq<FxRow>, n: nat)
    requires CountUniqueBusinessDays(frame) <= n
    ensures TrimToBusinessDays(frame, Some(n)) == frame
  {
  }

  /**
   * Otherwise the trimmed frame keeps rows in their order, keeps every row
   * of a kept day, and has exactly the last `n` distinct days.
   */
  lemma TrimKeepsLastDays(frame: seq<FxRow>, n: nat)
    requires n >= 1
    requires CountUniqueBusinessDays(frame) > n
    ensures var t := TrimToBusinessDays(frame, Some(n));
      var unique := Dedupe(Days(frame));
      && Subsequence(t, frame)
      && (forall r :: r in frame ==> (r in t <==> Day(r) in unique[|unique| - n..]))
      && (forall r :: r in t ==> multiset(t)[r] == multiset(frame)[r])
      && CountUniqueBusinessDays(t) == n
  {
    var unique := Dedupe(Days(frame));
    var p := OnDays(set d | d in LastN(unique, n));
    var t := Filter(frame, p);
    assert t == TrimToBusinessDays(frame, Some(n));
    FilterSubsequence(frame, p);
    forall r | r in t ensures multiset(t)[r] == multiset(frame)[r] {
      FilterMultiset(frame, p, r);
    }
    TrimmedDays(frame, n);
  }

  lemma TrimmedDays(frame: seq<FxRow>, n: nat)
    requires n >= 1
    requires CountUniqueBusinessDays(frame) > n
    ensures var t := TrimToBusinessDays(frame, Some(n));
      CountUniqueBusinessDays(t) == n
  {
    var unique := Dedupe(Days(frame));
    var keep := set d | d in LastN(unique, n);
    assert TrimToBusinessDays(frame, Some(n)) == Filter(frame, OnDays(keep));
    LastDays(Days(frame), n);
    FilterDays(frame, keep);
    CountUniqueMeaning(Filter(frame, OnDays(keep)));
  }

  /** The last `n` distinct days are `n` days, all of them among the given ones. */
  lemma LastDays(days: seq<int>, n: nat)
    requires 1 <= n <= |Dedupe(days)|
    ensures var unique := Dedupe(days);
      var keep := set d | d in LastN(unique, n);
      |keep| == n && forall d :: d in keep ==> d in days
  {
    var unique := Dedupe(days);
    SuffixDistinct(unique, n);
    DistinctCardinality(LastN(unique, n));
  }

  /** Filtering on days that all occur in the frame leaves exactly those days. */
  lemma FilterDays(frame: seq<FxRow>, keep: set<int>)
    requires forall d :: d in keep ==> d in Days(frame)
    ensures (set r | r in Filter(frame, OnDays(keep)) :: Day(r)) == keep
  {
    var t := Filter(frame, OnDays(keep));
    forall d | d in keep ensures d in (set r | r in t :: Day(r)) {
      var i :| 0 <= i < |frame| && Days(frame)[i] == d;
      assert frame[i] in t;
    }
  }

  lemma SuffixDistinct<T>(s: seq<T>, n: nat)
    requires Distinct(s) && n <= |s|
    ensures Distinct(s[|s| - n..])
  {
    var last := s[|s| - n..];
    forall i, j | 0 <= i < j < |last| ensures last[i] != last[j] {
      assert last[i] == s[|s| - n + i] && last[j] == s[|s| - n + j];
    }
  }

  // ---------------------------------------------------------------------
  // The frame `fetch_single_ohlc` ends up with
  // ---------------------------------------------------------------------

  /**
   * The prepared primary and fallback downloads come in as parameters
   * (the fallback is only consulted when `NeedsFallback` holds), together
   * with whether each raw download had rows. The result is the trimmed
   * frame or the empty-result error type.
   */
  function FetchedFrame(
    interval: string, period: string, excludeWeekends: bool,
    primary: seq<FxRow>, primaryRaw: bool,
    fallback: seq<FxRow>, fallbackRaw: bool): Result<seq<FxRow>, string>
  {
    var expected := ExtractBusinessDays(period);
    var useFallback := NeedsFallback(interval, period, primary);
    var raw := primaryRaw || (useFallback && fallbackRaw);
    var frame := if useFallback then SelectFrame(primary, fallback) else primary;
    if frame == [] then Failure(EmptyResultError(raw, excludeWeekends))
    else Success(TrimToBusinessDays(frame, expected))
  }

  /**
   * A fetched frame is never empty and never spans more business days than
   * the period asks for; an empty outcome is `AllWeekendData` exactly when a
   * raw download had rows and weekends were being excluded.
   */
  lemma FetchedFrameProps(
    interval: string, period: string, excludeWeekends: bool,
    primary: seq<FxRow>, primaryRaw: bool,
    fallback: seq<FxRow>, fallbackRaw: bool)
    ensures var r := FetchedFrame(interval, period, excludeWeekends, primary, primaryRaw, fallback, fallbackRaw);
      var expected := ExtractBusinessDays(period);
      && (r.Success? ==> r.value != [])
      && (r.Success? && expected.Some? ==> CountUniqueBusinessDays(r.value) <= expected.value)
      && (r.Failure? ==> (r.error == "AllWeekendData" <==>
            excludeWeekends && (primaryRaw || (NeedsFallback(interval, period, primary) && fallbackRaw))))
  {
    var expected := ExtractBusinessDays(period);
    var useFallback := NeedsFallback(interval, period, primary);
    var frame := if useFallback then SelectFrame(primary, fallback) else primary;
    if frame != [] {
      var t := TrimToBusinessDays(frame, expected);
      if expected.Some? {
        var n := expected.value;
        if CountUniqueBusinessDays(frame) > n {
          TrimKeepsLastDays(frame, n);
          CountUniqueMeaning(t);
        } else {
          TrimNoOp(frame, n);
        }
      }
    }
  }

  // ---------------------------------------------------------------------
  // CSV export
  // ---------------------------------------------------------------------

  /** One exported row: its keys in order, each with the rendered value. */
  type Record = seq<(string, string)>

  /** `OHLCData`: the fetched rows, already rendered as strings. */
  datatype OhlcData = OhlcData(pair: string, interval: string, period: string,
                               dataCount: int, columns: seq<string>, rows: seq<Record>)

  function Keys(r: Record): (ks: seq<string>)
    ensures |ks| == |r| && forall i :: 0 <= i < |r| ==> ks[i] == r[i].0
  {
    seq(|r|, i requires 0 <= i < |r| => r[i].0)
  }

  function Values(r: Record): (vs: seq<string>)
    ensures |vs| == |r| && forall i :: 0 <= i < |r| ==> vs[i] == r[i].1
  {
    seq(|r|, i requires 0 <= i < |r| => r[i].1)
  }

  /** The optional header line. */
  function HeaderLines(rows: seq<Record>, includeHeader: bool): (h: seq<string>)
    ensures |h| == if includeHeader && rows != [] then 1 else 0
  {
    if includeHeader && rows != [] then [Join(Keys(rows[0]), ',')] else []
  }

  /** One line per row: its values joined by commas. */
  function RowLines(rows: seq<Record>): (ls: seq<string>)
    ensures |ls| == |rows| && forall i :: 0 <= i < |rows| ==> ls[i] == Join(Values(rows[i]), ',')
  {
    seq(|rows|, i requires 0 <= i < |rows| => Join(Values(rows[i]), ','))
  }

  function CsvLines(rows: seq<Record>, includeHeader: bool): seq<string> {
    HeaderLines(rows, includeHeader) + RowLines(rows)
  }

  /** `export_to_csv_string(ohlc_data, include_header)`. */
  method ExportToCsvString(data: OhlcData, includeHeader: bool) returns (csv: string)
    ensures csv == Join(CsvLines(data.rows, includeHeader), '\n')
  {
    var lines: seq<string> := [];
    if includeHeader && data.rows != [] {
      lines := lines + [Join(Keys(data.rows[0]), ',')];
    }
    var i := 0;
    while i < |data.rows|
      invariant 0 <= i <= |data.rows|
      invariant lines == HeaderLines(data.rows, includeHeader) + RowLines(data.rows[..i])
    {
      assert RowLines(data.rows[..i + 1]) == RowLines(data.rows[..i]) + [Join(Values(data.rows[i]), ',')];
      lines := lines + [Join(Values(data.rows[i]), ',')];
      i := i + 1;
    }
    assert data.rows[..i] == data.rows;
    csv := Join(lines, '\n');
  }

  predicate NoCharInRecords(rows: seq<Record>, c: char) {
    forall i, j :: 0 <= i < |rows| && 0 <= j < |rows[i]| ==> c !in rows[i][j].0 && c !in rows[i][j].1
  }

  /**
   * With no newline in any key or value, splitting the export on newlines
   * gives back the header (if any) and one line per row; with no comma in a
   * row's values, splitting its line on commas gives back those values.
   */
  lemma CsvRoundTrip(rows: seq<Record>, includeHeader: bool)
    requires NoCharInRecords(rows, '\n')
    ensures var lines := CsvLines(rows, includeHeader);
      && |lines| == |rows| + (if includeHeader && rows != [] then 1 else 0)
      && (lines != [] ==> Split(Join(lines, '\n'), '\n') == lines)
      && (rows == [] ==> Join(lines, '\n') == "")
  {
    var lines := CsvLines(rows, includeHeader);
    forall k | 0 <= k < |lines| ensures '\n' !in lines[k] {
      var h := HeaderLines(rows, includeHeader);
      if k < |h| {
        JoinExcludes(Keys(rows[0]), ',', '\n');
      } else {
        JoinExcludes(Values(rows[k - |h|]), ',', '\n');
      }
    }
    if lines != [] {
      SplitJoin(lines, '\n');
    }
  }

  lemma CsvFields(r: Record)
    requires |r| >= 1
    requires forall j :: 0 <= j < |r| ==> ',' !in r[j].1
    ensures Split(Join(Values(r), ','), ',') == Values(r)
  {
    SplitJoin(Values(r), ',');
  }

  // ---------------------------------------------------------------------
  // Batch export
  // ---------------------------------------------------------------------

  /** The key `"{pair}_{interval}_{period}"` of one export. */
  function BatchKey(d: OhlcData): string {
    d.pair + "_" + d.interval + "_" + d.period
  }

  /**
   * The export map after the successful results so far; a later result
   * with the same key replaces an earlier one. `render` stands for
   * `export_to_csv`, the pandas writer.
   */
  function BatchExports(successful: seq<OhlcData>, render: OhlcData -> string): map<string, string> {
    if successful == [] then map[]
    else
      var last := successful[|successful| - 1];
      BatchExports(successful[..|successful| - 1], render)[BatchKey(last) := render(last)]
  }

  /** `get_batch_csv_export(response)` over `response.successful`. */
  method GetBatchCsvExport(successful: seq<OhlcData>, render: OhlcData -> string)
    returns (exports: map<string, string>)
    ensures exports == BatchExports(successful, render)
  {
    exports := map[];
    var i := 0;
    while i < |successful|
      invariant 0 <= i <= |successful|
      invariant exports == BatchExports(successful[..i], render)
    {
      assert successful[..i + 1][..i] == successful[..i];
      exports := exports[BatchKey(successful[i]) := render(successful[i])];
      i := i + 1;
    }
    assert successful[..i] == successful;
  }

  /** No later result has the key of result `i`. */
  predicate LastWithKey(successful: seq<OhlcData>, i: nat)
    requires i < |successful|
  {
    forall j :: i < j < |successful| ==> BatchKey(successful[j]) != BatchKey(successful[i])
  }

  /** The map has one key per result. */
  lemma {:induction false} BatchExportsKeys(successful: seq<OhlcData>, render: OhlcData -> string)
    ensures BatchExports(successful, render).Keys == set d | d in successful :: BatchKey(d)
  {
    if successful != [] {
      var p := successful[..|successful| - 1];
      var last := successful[|successful| - 1];
      BatchExportsKeys(p, render);
      assert successful == p + [last];
      assert (set d | d in successful :: BatchKey(d)) == (set d | d in p :: BatchKey(d)) + {BatchKey(last)};
    }
  }

  /** Each key holds the export of the last result with that key. */
  lemma {:induction false} BatchExportsLastWins(successful: seq<OhlcData>, render: OhlcData -> string, i: nat)
    requires i < |successful| && LastWithKey(successful, i)
    ensures BatchKey(successful[i]) in BatchExports(successful, render)
    ensures BatchExports(successful, render)[BatchKey(successful[i])] == render(successful[i])
  {
    var p := successful[..|successful| - 1];
    if i < |successful| - 1 {
      assert LastWithKey(p, i) by {
        forall j | i < j < |p| ensures BatchKey(p[j]) != BatchKey(p[i]) {
          assert p[j] == successful[j] && p[i] == successful[i];
        }
      }
      BatchExportsLastWins(p, render, i);
      assert BatchKey(successful[|successful| - 1]) != BatchKey(successful[i]);
    }
  }

  /**
   * For a pair of letters and interval and period of the form digits then
   * letters, the batch key is a file stem the analysis parser reads back.
   */
  lemma BatchKeyParses(d: OhlcData)
    requires |d.pair| >= 1 && AllLetters(d.pair)
    requires NumberWithUnit(d.interval, IsLetter).Some?
    requires NumberWithUnit(d.period, IsLetter).Some?
    ensures Analysis.ParseMetadata(BatchKey(d) + ".csv") == Success((Upper(d.pair), d.interval, d.period))
  {
    Analysis.ParseMetadataRoundTrip(d.pair, d.interval, d.period);
  }
}
