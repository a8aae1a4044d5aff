/**
 * The MCP layer's error taxonomy (category, hint, recoverability, follow-up
 * tools), the JSON normaliser that turns datetimes into ISO strings, and
 * the guard on the size of a batch request.
 */
module McpTools {
  import opened Wrappers
  import opened Text
  import Fetcher

  const MaxBatchSize := 50

  // ---------------------------------------------------------------------
  // Error taxonomy
  // ---------------------------------------------------------------------

  /** The error types the taxonomy names; any other string is unknown to it. */
  const KnownErrorTypes: set<string> :=
    {"ValidationError", "BatchSizeExceeded", "NoDataAvailable", "AllWeekendData", "NoOHLCColumns", "UnexpectedError"}

  /** `_categorize_error(error_type)`. */
  function CategorizeError(errorType: string): string {
    if errorType in {"ValidationError", "BatchSizeExceeded"} then "ClientError"
    else if errorType in {"NoDataAvailable", "AllWeekendData", "NoOHLCColumns"} then "DataError"
    else "ServerError"
  }

  const DefaultHint := "Review the error message and adjust your request"

  /** `_generate_hint(error_type)`: a fixed hint per known type, a default otherwise. */
  function GenerateHint(errorType: string): string {
    if errorType == "ValidationError" then
      "Call 'list_available_pairs' or 'list_available_timeframes' to see supported values"
    else if errorType == "BatchSizeExceeded" then
      "Reduce the number of requests to " + NatToString(MaxBatchSize) + " or fewer and try again"
    else if errorType == "NoDataAvailable" then
      "Try extending the time period or choosing a different interval"
    else if errorType == "AllWeekendData" then
      "Extend the time period to include weekdays, or set exclude_weekends=false"
    else if errorType == "NoOHLCColumns" then
      "This may be a temporary issue with the data source. Try again later"
    else if errorType == "UnexpectedError" then
      "Check the error message for details and try again"
    else DefaultHint
  }

  /** `_is_recoverable(error_type)`. */
  predicate IsRecoverable(errorType: string) {
    errorType in {"ValidationError", "BatchSizeExceeded", "NoDataAvailable", "AllWeekendData"}
  }

  /** `_suggest_tools(error_type)`: only a validation error points anywhere. */
  function SuggestTools(errorType: string): seq<string> {
    if errorType == "ValidationError" then ["list_available_pairs", "list_available_timeframes"]
    else []
  }

  /** The categories, spelled out per type. */
  lemma CategoryMeaning(errorType: string)
    ensures CategorizeError(errorType) == "ClientError" <==>
      errorType == "ValidationError" || errorType == "BatchSizeExceeded"
    ensures CategorizeError(errorType) == "DataError" <==>
      errorType == "NoDataAvailable" || errorType == "AllWeekendData" || errorType == "NoOHLCColumns"
    ensures CategorizeError(errorType) == "ServerError" <==>
      errorType !in {"ValidationError", "BatchSizeExceeded", "NoDataAvailable", "AllWeekendData", "NoOHLCColumns"}
    ensures CategorizeError("UnexpectedError") == "ServerError"
  {
  }

  /**
   * Recoverable errors are never server errors; the one data error that is
   * not recoverable is `NoOHLCColumns`.
   */
  lemma RecoverableNotServer(errorType: string)
    ensures IsRecoverable(errorType) ==> CategorizeError(errorType) != "ServerError"
    ensures CategorizeError(errorType) == "DataError" && !IsRecoverable(errorType) <==> errorType == "NoOHLCColumns"
    ensures CategorizeError(errorType) == "ClientError" ==> IsRecoverable(errorType)
  {
  }

  /** An unknown type gets the default hint and no tools. */
  lemma UnknownErrorDefaults(errorType: string)
    requires errorType !in KnownErrorTypes
    ensures GenerateHint(errorType) == DefaultHint
    ensures SuggestTools(errorType) == []
  {
  }

  /** Only a validation error suggests follow-up tools. */
  lemma SuggestToolsOnlyValidation(errorType: string)
    ensures SuggestTools(errorType) != [] <==> errorType == "ValidationError"
  {
  }

  /** Every known type has a hint of its own, never the default one. */
  lemma KnownHintDiffers(errorType: string)
    requires errorType in KnownErrorTypes
    ensures GenerateHint(errorType) != DefaultHint
  {
  }

  /** The hint for an oversized batch names the limit. */
  lemma BatchSizeHint()
    ensures GenerateHint("BatchSizeExceeded") == "Reduce the number of requests to 50 or fewer and try again"
  {
    assert NatToString(50) == "50" by {
      assert NatToString(5) == [DigitChar(5)] == "5";
      assert NatToString(50) == NatToString(5) + [DigitChar(0)];
    }
  }

  /** The fetcher's empty-result errors are data errors the user can recover from. */
  lemma FetcherEmptyErrorsRecoverable(rawDataPresent: bool, excludeWeekends: bool)
    ensures var t := Fetcher.EmptyResultError(rawDataPresent, excludeWeekends);
      CategorizeError(t) == "DataError" && IsRecoverable(t)
  {
  }

  // ---------------------------------------------------------------------
  // JSON values and _normalize_datetime
  // ---------------------------------------------------------------------

  /**
   * A JSON-like Python value. A datetime carries the text its `isoformat()`
   * produces; dictionaries keep their keys in insertion order.
   */
  datatype JValue =
    | JNull
    | JBool(b: bool)
    | JInt(i: int)
    | JReal(r: real)
    | JStr(s: string)
    | JDateTime(iso: string)
    | JList(items: seq<JValue>)
    | JDict(entries: seq<(string, JValue)>)

  /** `_normalize_datetime(obj)`. */
  function Normalize(v: JValue): JValue {
    match v
    case JDateTime(iso) => JStr(iso)
    case JDict(es) => JDict(seq(|es|, i requires 0 <= i < |es| => (es[i].0, Normalize(es[i].1))))
    case JList(xs) => JList(seq(|xs|, i requires 0 <= i < |xs| => Normalize(xs[i])))
    case _ => v
  }

  /** No datetime anywhere inside. */
  ghost predicate NoDateTime(v: JValue) {
    match v
    case JDateTime(_) => false
    case JDict(es) => forall i :: 0 <= i < |es| ==> NoDateTime(es[i].1)
    case JList(xs) => forall i :: 0 <= i < |xs| ==> NoDateTime(xs[i])
    case _ => true
  }

  /**
   * `b` is `a` with each datetime replaced by its ISO string: dictionaries
   * keep their keys in order, lists their length and order, other values
   * are equal.
   */
  ghost predicate DatetimesReplaced(a: JValue, b: JValue) {
    match a
    case JDateTime(iso) => b == JStr(iso)
    case JDict(es) =>
      b.JDict? && |b.entries| == |es| &&
      forall i :: 0 <= i < |es| ==> b.entries[i].0 == es[i].0 && DatetimesReplaced(es[i].1, b.entries[i].1)
    case JList(xs) =>
      b.JList? && |b.items| == |xs| &&
      forall i :: 0 <= i < |xs| ==> DatetimesReplaced(xs[i], b.items[i])
    case _ => b == a
  }

  lemma {:induction false} NormalizeReplaces(v: JValue)
    ensures DatetimesReplaced(v, Normalize(v))
    ensures NoDateTime(Normalize(v))
  {
    match v
    case JDict(es) =>
      forall i | 0 <= i < |es| ensures DatetimesReplaced(es[i].1, Normalize(es[i].1)) && NoDateTime(Normalize(es[i].1)) {
        NormalizeReplaces(es[i].1);
      }
    case JList(xs) =>
      forall i | 0 <= i < |xs| ensures DatetimesReplaced(xs[i], Normalize(xs[i])) && NoDateTime(Normalize(xs[i])) {
        NormalizeReplaces(xs[i]);
      }
    case _ =>
  }

  /** A value without datetimes comes back unchanged. */
  lemma {:induction false} NormalizeFixes(v: JValue)
    requires NoDateTime(v)
    ensures Normalize(v) == v
  {
    match v
    case JDict(es) =>
      forall i | 0 <= i < |es| ensures Normalize(es[i].1) == es[i].1 {
        NormalizeFixes(es[i].1);
      }
      assert seq(|es|, i requires 0 <= i < |es| => (es[i].0, Normalize(es[i].1))) == es;
    case JList(xs) =>
      forall i | 0 <= i < |xs| ensures Normalize(xs[i]) == xs[i] {
        NormalizeFixes(xs[i]);
      }
      assert seq(|xs|, i requires 0 <= i < |xs| => Normalize(xs[i])) == xs;
    case _ =>
  }

  /** Normalising twice is normalising once. */
  lemma NormalizeIdempotent(v: JValue)
    ensures Normalize(Normalize(v)) == Normalize(v)
  {
    NormalizeReplaces(v);
    NormalizeFixes(Normalize(v));
  }

  // ---------------------------------------------------------------------
  // The batch-size guard of fetch_ohlc_batch_tool
  // ---------------------------------------------------------------------

  /** One `OHLCRequest` built from a request dictionary. */
  datatype Request = Request(pair: string, interval: string, period: string)

  /** The follow-up tools as a JSON list. */
  function ToolList(errorType: string): (v: JValue)
    ensures NoDateTime(v)
  {
    var tools := SuggestTools(errorType);
    JList(seq(|tools|, i requires 0 <= i < |tools| => JStr(tools[i])))
  }

  /** The `error` object of a failed tool call. */
  function ErrorObject(errorType: string, message: string, context: seq<(string, JValue)>): JValue {
    JDict([
      ("type", JStr(errorType)),
      ("category", JStr(CategorizeError(errorType))),
      ("message", JStr(message)),
      ("hint", JStr(GenerateHint(errorType))),
      ("recoverable", JBool(IsRecoverable(errorType))),
      ("suggested_tools", ToolList(errorType)),
      ("context", JDict(context))])
  }

  /** The whole result of a failed tool call. */
  function ErrorPayload(errorType: string, message: string, context: seq<(string, JValue)>): JValue {
    JDict([("success", JBool(false)), ("error", ErrorObject(errorType, message, context))])
  }

  function Lookup(d: map<string, string>, key: string, default: string): string {
    if key in d then d[key] else default
  }

  predicate HasPairs(requests: seq<map<string, string>>) {
    forall k :: 0 <= k < |requests| ==> "pair" in requests[k]
  }

  /**
   * The first steps of `fetch_ohlc_batch_tool(requests)`: more than 50
   * requests are refused with `BatchSizeExceeded` before any request is
   * built; a request without a pair raises `KeyError`, reported as an
   * `UnexpectedError` whose message is the quoted key.
   */
  function PrepareBatch(requests: seq<map<string, string>>): Result<seq<Request>, JValue> {
    if |requests| > MaxBatchSize then
      Failure(ErrorPayload("BatchSizeExceeded",
        "Batch size (" + NatToString(|requests|) + ") exceeds maximum allowed (" + NatToString(MaxBatchSize) + ")",
        [("max_batch_size", JInt(MaxBatchSize)), ("requested_size", JInt(|requests|))]))
    else if !HasPairs(requests) then
      Failure(ErrorPayload("UnexpectedError", "'pair'", []))
    else
      Success(seq(|requests|, k requires 0 <= k < |requests| =>
        Request(requests[k]["pair"], Lookup(requests[k], "interval", "1d"), Lookup(requests[k], "period", "30d"))))
  }

  /**
   * Over 50 requests is always a client error that can be recovered from;
   * up to 50 requests that each name a pair are all built, in order, with
   * `1d` and `30d` as the defaults.
   */
  lemma PrepareBatchGuard(requests: seq<map<string, string>>)
    ensures |requests| > MaxBatchSize ==>
      && PrepareBatch(requests).Failure?
      && PrepareBatch(requests).error.entries[1].1.entries[0].1 == JStr("BatchSizeExceeded")
      && CategorizeError("BatchSizeExceeded") == "ClientError" && IsRecoverable("BatchSizeExceeded")
    ensures |requests| <= MaxBatchSize && HasPairs(requests) ==>
      && PrepareBatch(requests).Success?
      && |PrepareBatch(requests).value| == |requests|
      && forall k :: 0 <= k < |requests| ==>
           && PrepareBatch(requests).value[k].pair == requests[k]["pair"]
           && PrepareBatch(requests).value[k].interval == Lookup(requests[k], "interval", "1d")
           && PrepareBatch(requests).value[k].period == Lookup(requests[k], "period", "30d")
  {
  }

  /** Exactly 50 requests pass the guard; 51 do not. */
  lemma BatchLimitEdge(requests: seq<map<string, string>>)
    requires HasPairs(requests)
    ensures |requests| == 50 ==> PrepareBatch(requests).Success?
    ensures |requests| == 51 ==> PrepareBatch(requests).Failure?
  {
  }

  /** The scalar fields of a dictionary never hold a datetime. */
  lemma ErrorObjectNoDateTime(errorType: string, message: string, context: seq<(string, JValue)>)
    requires forall i :: 0 <= i < |context| ==> NoDateTime(context[i].1)
    ensures NoDateTime(ErrorObject(errorType, message, context))
  {
    var es := [
      ("type", JStr(errorType)),
      ("category", JStr(CategorizeError(errorType))),
      ("message", JStr(message)),
      ("hint", JStr(GenerateHint(errorType))),
      ("recoverable", JBool(IsRecoverable(errorType))),
      ("suggested_tools", ToolList(errorType)),
      ("context", JDict(context))];
    assert ErrorObject(errorType, message, context) == JDict(es);
    assert NoDateTime(JDict(context));
    forall i | 0 <= i < |es| ensures NoDateTime(es[i].1) {
    }
  }

  /** The refusal and every other tool payload are free of datetimes once normalised. */
  lemma PayloadNormalised(errorType: string, message: string, context: seq<(string, JValue)>)
    requires forall i :: 0 <= i < |context| ==> NoDateTime(context[i].1)
    ensures Normalize(ErrorPayload(errorType, message, context)) == ErrorPayload(errorType, message, context)
  {
    ErrorObjectNoDateTime(errorType, message, context);
    NormalizeFixes(ErrorPayload(errorType, message, context));
  }
}
