/**
 * One analysis document per CSV file: metadata from the file name, then
 * trend, levels, RSI, ATR and the average bar range of the loaded frame.
 */
module Analysis {
  import opened Wrappers
  import opened Seqs
  import opened Text
  import opened Ohlc
  import opened Indicators
  import opened SupportResistance

  const SchemaVersion := 1

  /** The JSON document written per input file (`AnalysisResult`). */
  datatype AnalysisResult = AnalysisResult(
    pair: string,
    interval: string,
    period: string,
    trend: string,
    supportLevels: seq<real>,
    resistanceLevels: seq<real>,
    rsi: Option<real>,
    atr: Option<real>,
    averageVolatility: Option<real>,
    generatedAt: string,
    schemaVersion: int)

  /** The `ValueError`s raised while analysing one file. */
  datatype AnalysisError = FilenameMismatch(name: string) | NoDataRows(name: string)

  /** Index of the last occurrence of `c`, or -1 (`str.rfind`). */
  function RFind(s: string, c: char): (i: int)
    ensures -1 <= i < |s|
    ensures i >= 0 ==> s[i] == c
    ensures forall j :: i < j < |s| ==> s[j] != c
  {
    if s == [] then -1
    else if s[|s| - 1] == c then |s| - 1
    else RFind(s[..|s| - 1], c)
  }

  /**
   * `Path(path).name`: the part after the last `/`. The name is a suffix of
   * the path, free of `/`, and either the whole path or preceded by `/`.
   */
  function FileName(path: string): (name: string)
    ensures '/' !in name
    ensures |name| <= |path| && path == path[..|path| - |name|] + name
    ensures |name| < |path| ==> path[|path| - |name| - 1] == '/'
  {
    var i := RFind(path, '/');
    var name := path[i + 1..];
    forall j | 0 <= j < |name| ensures name[j] != '/' {
      assert name[j] == path[i + 1 + j];
    }
    name
  }

  /** `Path.stem`: the name without its last suffix, where a suffix needs a dot that is neither first nor last. */
  function Stem(name: string): string {
    var i := RFind(name, '.');
    if 0 < i < |name| - 1 then name[..i] else name
  }

  /** `<letters>_<digits><letters>_<digits><letters>` split at its two underscores. */
  predicate MetadataParts(parts: seq<string>) {
    && |parts| == 3
    && |parts[0]| >= 1 && AllLetters(parts[0])
    && NumberWithUnit(parts[1], IsLetter).Some?
    && NumberWithUnit(parts[2], IsLetter).Some?
  }

  /**
   * `parse_metadata_from_filename(path)`: the stem must match the file-name
   * pattern; the pair comes back upper-cased, interval and period as written.
   */
  function ParseMetadata(path: string): (r: Result<(string, string, string), AnalysisError>)
    ensures r.Success? ==> && |r.value.0| >= 1 && AllLetters(r.value.0)
                           && (forall i :: 0 <= i < |r.value.0| ==> !IsLower(r.value.0[i]))
                           && NumberWithUnit(r.value.1, IsLetter).Some?
                           && NumberWithUnit(r.value.2, IsLetter).Some?
    ensures r.Failure? ==> r.error == FilenameMismatch(FileName(path))
  {
    var name := FileName(path);
    var parts := Split(RegexBody(Stem(name)), '_');
    if MetadataParts(parts) then
      assert forall i :: 0 <= i < |parts[0]| ==> IsLetter(Upper(parts[0])[i]);
      Success((Upper(parts[0]), parts[1], parts[2]))
    else Failure(FilenameMismatch(name))
  }

  /**
   * Conversely, a name that parses is a stem of the form
   * `<pair>_<interval>_<period>` (before the regex's optional final
   * newline), with the returned pair the upper-cased letters of the first
   * part. Every other name is refused.
   */
  lemma ParseMetadataShape(path: string) returns (pair: string)
    requires ParseMetadata(path).Success?
    ensures |pair| >= 1 && AllLetters(pair)
    ensures var v := ParseMetadata(path).value;
      && Upper(pair) == v.0
      && RegexBody(Stem(FileName(path))) == pair + "_" + v.1 + "_" + v.2
  {
    var body := RegexBody(Stem(FileName(path)));
    var parts := Split(body, '_');
    pair := parts[0];
    JoinSplit(body, '_');
    JoinThree(parts, '_');
  }

  /** Three pieces joined: the pieces with one separator between each. */
  lemma JoinThree(xs: seq<string>, sep: char)
    requires |xs| == 3
    ensures Join(xs, sep) == xs[0] + [sep] + xs[1] + [sep] + xs[2]
  {
    assert xs[1..][1..] == [xs[2]];
  }

  /** A stem with two parts does not match the file-name pattern. */
  lemma ParseMetadataRefusesTwoParts()
    ensures ParseMetadata("USDJPY_1h.csv") == Failure(FilenameMismatch("USDJPY_1h.csv"))
  {
    TwoPartsStem();
    TwoPartsSplit();
  }

  lemma TwoPartsStem()
    ensures FileName("USDJPY_1h.csv") == "USDJPY_1h.csv"
    ensures RegexBody(Stem("USDJPY_1h.csv")) == "USDJPY_1h"
  {
    var a := "USDJPY_1h.csv";
    RFindNone(a, '/');
    assert a[0..] == a;
    RFindAt(a, '.', 9);
    assert a[..9] == "USDJPY_1h";
  }

  lemma TwoPartsSplit()
    ensures Split("USDJPY_1h", '_') == ["USDJPY", "1h"]
  {
    SplitNoSep("1h", '_');
    SplitPiece("USDJPY", "1h", '_');
    assert "USDJPY" + ['_'] + "1h" == "USDJPY_1h";
  }

  /** A stem without underscores does not match either; the error names the file, not the path. */
  lemma ParseMetadataRefusesOnePart()
    ensures ParseMetadata("data/notes.txt") == Failure(FilenameMismatch("notes.txt"))
  {
    var b := "data/notes.txt";
    RFindAt(b, '/', 4);
    assert b[5..] == "notes.txt";
    RFindAt("notes.txt", '.', 5);
    assert "notes.txt"[..5] == "notes";
    SplitNoSep("notes", '_');
  }

  /** `rfind` gives -1 when the character does not occur. */
  lemma {:induction false} RFindNone(s: string, c: char)
    requires c !in s
    ensures RFind(s, c) == -1
  {
    if s != [] {
      RFindNone(s[..|s| - 1], c);
    }
  }

  lemma NoCharIn(s: string, c: char)
    requires forall i :: 0 <= i < |s| ==> IsLetter(s[i]) || IsDigit(s[i])
    requires !IsLetter(c) && !IsDigit(c)
    ensures c !in s
  {
  }

  lemma UnitChars(s: string)
    requires NumberWithUnit(s, IsLetter).Some?
    ensures |s| >= 2
    ensures forall i :: 0 <= i < |s| ==> IsLetter(s[i]) || IsDigit(s[i])
    ensures IsLetter(s[|s| - 1])
  {
    var (ds, u) := NumberWithUnit(s, IsLetter).value;
    assert forall i :: 0 <= i < |s| ==> s[i] == if i < |ds| then ds[i] else u[i - |ds|];
  }

  /**
   * A name built as `<pair>_<interval>_<period>.csv` parses back to its
   * parts, with the pair upper-cased.
   */
  lemma ParseMetadataRoundTrip(pair: string, interval: string, period: string)
    requires |pair| >= 1 && AllLetters(pair)
    requires NumberWithUnit(interval, IsLetter).Some?
    requires NumberWithUnit(period, IsLetter).Some?
    ensures ParseMetadata(pair + "_" + interval + "_" + period + ".csv")
         == Success((Upper(pair), interval, period))
  {
    UnitChars(interval);
    UnitChars(period);
    var stem := pair + "_" + interval + "_" + period;
    ComposedChars(pair, interval, period);
    CsvName(stem);
    var path := stem + ".csv";
    assert RegexBody(Stem(FileName(path))) == stem;
    StemSplits(pair, interval, period);
    assert MetadataParts([pair, interval, period]);
  }

  /** The stem splits back into its three parts at the underscores. */
  lemma StemSplits(pair: string, interval: string, period: string)
    requires AllLetters(pair)
    requires forall i :: 0 <= i < |interval| ==> IsLetter(interval[i]) || IsDigit(interval[i])
    requires forall i :: 0 <= i < |period| ==> IsLetter(period[i]) || IsDigit(period[i])
    ensures Split(pair + "_" + interval + "_" + period, '_') == [pair, interval, period]
  {
    NoCharIn(pair, '_');
    NoCharIn(interval, '_');
    NoCharIn(period, '_');
    assert Join([pair, interval, period], '_') == pair + "_" + interval + "_" + period;
    SplitJoin([pair, interval, period], '_');
  }

  /** The stem built from letter-and-digit parts and two underscores holds nothing else. */
  lemma ComposedChars(pair: string, interval: string, period: string)
    requires AllLetters(pair)
    requires forall i :: 0 <= i < |interval| ==> IsLetter(interval[i]) || IsDigit(interval[i])
    requires forall i :: 0 <= i < |period| ==> IsLetter(period[i]) || IsDigit(period[i])
    ensures var stem := pair + "_" + interval + "_" + period;
      forall i :: 0 <= i < |stem| ==> IsLetter(stem[i]) || IsDigit(stem[i]) || stem[i] == '_'
  {
    var stem := pair + "_" + interval + "_" + period;
    assert forall i :: 0 <= i < |stem| ==>
      (stem[i] == if i < |pair| then pair[i]
                  else if i == |pair| then '_'
                  else if i < |pair| + 1 + |interval| then interval[i - |pair| - 1]
                  else if i == |pair| + 1 + |interval| then '_'
                  else period[i - |pair| - 2 - |interval|]);
  }

  /** A stem without slashes, dots or a newline is its own file name's stem and regex body. */
  lemma CsvName(stem: string)
    requires stem != []
    requires forall i :: 0 <= i < |stem| ==> IsLetter(stem[i]) || IsDigit(stem[i]) || stem[i] == '_'
    ensures FileName(stem + ".csv") == stem + ".csv"
    ensures Stem(stem + ".csv") == stem
    ensures RegexBody(stem) == stem
  {
    var path := stem + ".csv";
    assert RFind(path, '/') == -1 by {
      assert forall j :: 0 <= j < |path| ==> path[j] != '/';
    }
    assert RFind(path, '.') == |stem| by {
      assert path[|stem|] == '.';
      assert forall j :: |stem| < j < |path| ==> path[j] != '.';
      RFindAt(path, '.', |stem|);
    }
    assert path[0..] == path;
    assert path[..|stem|] == stem;
    assert IsLetter(stem[|stem| - 1]) || IsDigit(stem[|stem| - 1]) || stem[|stem| - 1] == '_';
  }

  /** `rfind` finds `c` at `i` when no later character is `c`. */
  lemma RFindAt(s: string, c: char, i: nat)
    requires i < |s| && s[i] == c
    requires forall j :: i < j < |s| ==> s[j] != c
    ensures RFind(s, c) == i
  {
    if i < |s| - 1 {
      RFindAt(s[..|s| - 1], c, i);
    }
  }

  /** A frame row as the level engine reads it. */
  function RowOf(b: Bar): Row {
    Row(Some(b.ts), b.open, Some(b.high), Some(b.low), Some(b.close))
  }

  /** A tick count as a price. */
  function Price(t: int): real { t as real / 10000.0 }

  function PricesOf(s: seq<int>): (r: seq<real>)
    ensures |r| == |s| && forall i :: 0 <= i < |s| ==> r[i] == Price(s[i])
  {
    seq(|s|, i requires 0 <= i < |s| => Price(s[i]))
  }

  predicate AscendingReal(s: seq<real>) { forall i, j :: 0 <= i < j < |s| ==> s[i] <= s[j] }
  predicate DescendingReal(s: seq<real>) { forall i, j :: 0 <= i < j < |s| ==> s[i] >= s[j] }

  function CandleOf(b: Bar): Candle {
    Candle(Price(b.high), Price(b.low), Price(b.close))
  }

  function Candles(frame: seq<Bar>): (r: seq<Candle>)
    ensures |r| == |frame| && forall i :: 0 <= i < |frame| ==> r[i] == CandleOf(frame[i])
  {
    seq(|frame|, i requires 0 <= i < |frame| => CandleOf(frame[i]))
  }

  function CloseSeries(frame: seq<Bar>): (r: seq<Option<real>>)
    ensures |r| == |frame| && forall i :: 0 <= i < |frame| ==> r[i] == Some(Price(frame[i].close))
  {
    seq(|frame|, i requires 0 <= i < |frame| => Some(Price(frame[i].close)))
  }

  function RowsOf(frame: seq<Bar>): (r: seq<Row>)
    ensures |r| == |frame| && forall i :: 0 <= i < |frame| ==> r[i] == RowOf(frame[i])
  {
    seq(|frame|, i requires 0 <= i < |frame| => RowOf(frame[i]))
  }

  /** `analyze_dataframe(df, pair, interval, period)` with the clock reading passed in. */
  function Analyze(frame: seq<Bar>, pair: string, interval: string, period: string, generatedAt: string): AnalysisResult {
    var (supports, resistances) := ComputeSupportResistance(RowsOf(frame), interval, DefaultLevels);
    AnalysisResult(
      pair, interval, period,
      TrendName(DetectTrend(CloseSeries(frame))),
      PricesOf(supports), PricesOf(resistances),
      ComputeRsi(CloseSeries(frame)),
      ComputeAtr(Candles(frame)),
      AverageVolatility(Candles(frame)),
      generatedAt,
      SchemaVersion)
  }

  lemma PricesOfOrder(s: seq<int>)
    ensures Ascending(s) ==> AscendingReal(PricesOf(s))
    ensures Descending(s) ==> DescendingReal(PricesOf(s))
  {
  }

  /** At most two levels per side and at least one, supports ascending and resistances descending. */
  lemma AnalyzeLevels(frame: seq<Bar>, interval: string)
    requires frame != []
    ensures var (supports, resistances) := ComputeSupportResistance(RowsOf(frame), interval, DefaultLevels);
      && 1 <= |PricesOf(supports)| <= 2 && 1 <= |PricesOf(resistances)| <= 2
      && AscendingReal(PricesOf(supports)) && DescendingReal(PricesOf(resistances))
  {
    var rows := RowsOf(frame);
    assert Complete(rows[0]);
    LevelsShape(rows, interval, DefaultLevels);
    LevelsNonEmpty(rows, interval, DefaultLevels);
    var (supports, resistances) := ComputeSupportResistance(rows, interval, DefaultLevels);
    PricesOfOrder(supports);
    PricesOfOrder(resistances);
  }

  /** RSI in [0, 100] from two closes on, an ATR exactly from two bars on and never negative, and an average range. */
  lemma AnalyzeIndicators(frame: seq<Bar>)
    requires frame != []
    ensures |frame| >= 2 ==> ComputeRsi(CloseSeries(frame)).Some? && 0.0 <= ComputeRsi(CloseSeries(frame)).value <= 100.0
    ensures |frame| >= 2 <==> ComputeAtr(Candles(frame)).Some?
    ensures ComputeAtr(Candles(frame)).Some? ==> ComputeAtr(Candles(frame)).value >= 0.0
    ensures AverageVolatility(Candles(frame)).Some?
  {
    var closes := CloseSeries(frame);
    SomesSuffix(closes, 0);
    RsiRange(closes);
    AtrMeaning(Candles(frame));
    AverageVolatilityMeaning(Candles(frame));
  }

  /**
   * The document of a non-empty frame: schema version 1, at most two levels
   * per side and at least one, supports ascending and resistances
   * descending, RSI in [0, 100] from two closes on, a non-negative ATR.
   */
  lemma AnalyzeProps(frame: seq<Bar>, pair: string, interval: string, period: string, generatedAt: string)
    requires frame != []
    ensures var a := Analyze(frame, pair, interval, period, generatedAt);
      && a.schemaVersion == 1
      && 1 <= |a.supportLevels| <= 2 && 1 <= |a.resistanceLevels| <= 2
      && AscendingReal(a.supportLevels) && DescendingReal(a.resistanceLevels)
      && (|frame| >= 2 ==> a.rsi.Some? && 0.0 <= a.rsi.value <= 100.0)
      && (|frame| >= 2 <==> a.atr.Some?)
      && (a.atr.Some? ==> a.atr.value >= 0.0)
      && a.averageVolatility.Some?
  {
    AnalyzeLevels(frame, interval);
    AnalyzeIndicators(frame);
  }

  /**
   * `analyze_file(path)` with the loaded frame passed in: the name is checked
   * first, then an empty frame is refused.
   */
  function AnalyzeFile(path: string, frame: seq<Bar>, generatedAt: string): (r: Result<AnalysisResult, AnalysisError>)
    ensures r.Success? <==> ParseMetadata(path).Success? && frame != []
    ensures r.Success? ==> r.value.pair == ParseMetadata(path).value.0 && r.value.schemaVersion == SchemaVersion
    ensures ParseMetadata(path).Success? && frame == [] ==> r == Failure(NoDataRows(FileName(path)))
  {
    match ParseMetadata(path)
    case Failure(e) => Failure(e)
    case Success((pair, interval, period)) =>
      if frame == [] then Failure(NoDataRows(FileName(path)))
      else Success(Analyze(frame, pair, interval, period, generatedAt))
  }
}
