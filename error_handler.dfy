/**
 * Error handling and monitoring for the WhatsApp integration: the table that
 * turns Graph API error codes into a category, a severity and a suggested
 * action; a per-code, per-day error log bounded to the 100 newest entries; the
 * dashboard summary read back from that log; the retry decision and the
 * exponential backoff loop; and the monitor's message counters.
 *
 * The Django cache is a map held by the class that writes it. Its keys are a
 * datatype with the fields the source formats into the key string; time is an
 * integer number of seconds and a date is its ISO text, both passed in.
 */
module ErrorHandler {
  import opened Wrappers
  import opened PyJson
  import Text
  import Ordering

  datatype Severity = Low | Medium | High | Critical {
    /** The enum's `.value` */
    function Value(): string {
      match this
      case Low => "low"
      case Medium => "medium"
      case High => "high"
      case Critical => "critical"
    }
  }

  datatype Category =
    | Authentication | Network | Validation | RateLimit | ApiError | Configuration | Unknown
  {
    /** The enum's `.value` */
    function Value(): string {
      match this
      case Authentication => "authentication"
      case Network => "network"
      case Validation => "validation"
      case RateLimit => "rate_limit"
      case ApiError => "api_error"
      case Configuration => "configuration"
      case Unknown => "unknown"
    }
  }

  /** One entry of `ERROR_MAPPINGS`. */
  datatype ErrorInfo = ErrorInfo(category: Category, severity: Severity, message: string, action: string)

  const ERROR_MAPPINGS: map<int, ErrorInfo> := map[
    190 := ErrorInfo(Authentication, High, "Access token expired or invalid", "refresh_token"),
    104 := ErrorInfo(Authentication, High, "Access token required", "check_token_config"),
    4 := ErrorInfo(RateLimit, Medium, "Application request limit reached", "implement_backoff"),
    80007 := ErrorInfo(RateLimit, Medium, "Message rate limit exceeded", "implement_backoff"),
    100 := ErrorInfo(ApiError, Medium, "Invalid parameter", "validate_request"),
    131030 := ErrorInfo(ApiError, Low, "Recipient cannot receive messages", "skip_user")
  ]

  /** The keys of `ERROR_MAPPINGS` in the order the dict yields them. */
  const MAPPED_CODES: seq<nat> := [190, 104, 4, 80007, 100, 131030]

  lemma MappedCodesAreTheMappingKeys()
    ensures forall c :: c in MAPPED_CODES <==> c in ERROR_MAPPINGS
  {
  }

  /** What the handler sees of a `requests.Response`: `body` is None when `.json()` raises. */
  datatype Response = Response(statusCode: int, body: Option<Json>, text: string)

  datatype ErrorContext = ErrorContext(
    errorCode: string,
    category: Category,
    severity: Severity,
    message: Json,
    details: map<string, Json>,
    timestamp: int,
    userId: Option<string>,
    phoneNumber: Option<string>,
    retryCount: int)

  /** `context or {}` */
  function ContextOrEmpty(context: Option<map<string, Json>>): Json {
    JObj(context.GetOr(map[]))
  }

  /**
   * `ERROR_MAPPINGS.get(code, ...)`. A list or a dict is unhashable and raises;
   * an int finds its entry. A bool hashes like 0 or 1, neither of which is mapped.
   */
  function MappingFor(code: Json): (r: Py<Option<ErrorInfo>>)
    ensures r.Err? <==> code.JArr? || code.JObj?
    ensures r.Ok? && r.value.Some? <==> code.JNum? && code.n in ERROR_MAPPINGS
    ensures r.Ok? && r.value.Some? ==> r.value.value == ERROR_MAPPINGS[code.n]
  {
    match code
    case JArr(_) => Err(TypeError)
    case JObj(_) => Err(TypeError)
    case JNum(n) => Ok(if n in ERROR_MAPPINGS then Some(ERROR_MAPPINGS[n]) else None)
    case _ => Ok(None)
  }

  /** `response.json().get('error', {})` */
  function ErrorData(response: Response): Py<Json> {
    if response.body.None? then Err(TypeError) else Get(response.body.value, "error", JObj(map[]))
  }

  /**
   * The `try` block of `handle_api_error`: the error context it builds, or None
   * when any step of reading the response raises.
   */
  function ParseApiError(response: Response, context: Option<map<string, Json>>, now: int): (r: Option<ErrorContext>)
    ensures r.None? <==>
      ErrorData(response).Err? || !ErrorData(response).value.JObj? ||
      MappingFor(Get(ErrorData(response).value, "code", JStr("unknown")).value).Err?
    ensures r.Some? ==> r.value.errorCode == Show(Get(ErrorData(response).value, "code", JStr("unknown")).value)
    ensures r.Some? ==> r.value.timestamp == now && r.value.retryCount == 0
    ensures r.Some? ==> r.value.details.Keys == {"status_code", "api_response", "suggested_action", "context"}
    ensures r.Some? ==> r.value.details["status_code"] == JNum(response.statusCode)
    ensures r.Some? ==> r.value.details["api_response"] == ErrorData(response).value
    ensures r.Some? ==> r.value.details["context"] == ContextOrEmpty(context)
  {
    var errorData := ErrorData(response);
    if errorData.Err? || !errorData.value.JObj? then None
    else
      var code := Get(errorData.value, "code", JStr("unknown")).value;
      var apiMessage := Get(errorData.value, "message", JStr("Unknown error")).value;
      var info := MappingFor(code);
      if info.Err? then None
      else
        var category := if info.value.Some? then info.value.value.category else Unknown;
        var severity := if info.value.Some? then info.value.value.severity else Medium;
        var message := if info.value.Some? then JStr(info.value.value.message) else apiMessage;
        var action := if info.value.Some? then info.value.value.action else "investigate";
        Some(ErrorContext(
          Show(code), category, severity, message,
          map["status_code" := JNum(response.statusCode),
              "api_response" := errorData.value,
              "suggested_action" := JStr(action),
              "context" := ContextOrEmpty(context)],
          now, None, None, 0))
  }

  /** A code found in the table takes its category, severity, message and action from there. */
  lemma MappedCodeTakesTableEntry(response: Response, context: Option<map<string, Json>>, now: int,
                                  body: map<string, Json>, error: map<string, Json>, c: int)
    requires response.body == Some(JObj(body)) && "error" in body && body["error"] == JObj(error)
    requires "code" in error && error["code"] == JNum(c) && c in ERROR_MAPPINGS
    ensures var r := ParseApiError(response, context, now);
            r.Some? &&
            r.value.errorCode == Text.IntToString(c) &&
            r.value.category == ERROR_MAPPINGS[c].category &&
            r.value.severity == ERROR_MAPPINGS[c].severity &&
            r.value.message == JStr(ERROR_MAPPINGS[c].message) &&
            r.value.details["suggested_action"] == JStr(ERROR_MAPPINGS[c].action)
  {
  }

  /**
   * A code that is not in the table (or no code at all) becomes UNKNOWN/MEDIUM,
   * keeping the API's own message (or 'Unknown error') and the action 'investigate'.
   */
  lemma UnmappedCodeIsUnknown(response: Response, context: Option<map<string, Json>>, now: int,
                              body: map<string, Json>, error: map<string, Json>)
    requires response.body == Some(JObj(body)) && "error" in body && body["error"] == JObj(error)
    requires "code" in error ==> !error["code"].JArr? && !error["code"].JObj?
    requires "code" in error && error["code"].JNum? ==> error["code"].n !in ERROR_MAPPINGS
    ensures var r := ParseApiError(response, context, now);
            r.Some? &&
            r.value.errorCode == (if "code" in error then Show(error["code"]) else "unknown") &&
            r.value.category == Unknown && r.value.severity == Medium &&
            r.value.message == (if "message" in error then error["message"] else JStr("Unknown error")) &&
            r.value.details["suggested_action"] == JStr("investigate")
  {
  }

  /** A body that is not JSON, not a dict, or whose `error` is not a dict cannot be parsed. */
  lemma UnreadableResponsesFail(response: Response, context: Option<map<string, Json>>, now: int)
    requires response.body.None? || !response.body.value.JObj? ||
             ("error" in response.body.value.fields && !response.body.value.fields["error"].JObj?)
    ensures ParseApiError(response, context, now).None?
  {
  }

  /** `_create_fallback_error` */
  function FallbackError(response: Response, context: Option<map<string, Json>>, now: int): (r: ErrorContext)
    ensures r.errorCode == "PARSE_ERROR" && r.category == Unknown && r.severity == Medium
    ensures r.message == JStr("Failed to parse error response: " + Text.IntToString(response.statusCode))
    ensures r.details.Keys == {"status_code", "response_text", "context"}
    ensures r.details["response_text"].JStr?
    ensures var t := r.details["response_text"].s;
            |t| == (if |response.text| <= 500 then |response.text| else 500) && t == response.text[..|t|]
  {
    ErrorContext(
      "PARSE_ERROR", Unknown, Medium,
      JStr("Failed to parse error response: " + Text.IntToString(response.statusCode)),
      map["status_code" := JNum(response.statusCode),
          "response_text" := JStr(Ordering.Take(response.text, 500)),
          "context" := ContextOrEmpty(context)],
      now, None, None, 0)
  }

  /** `handle_network_error`: `exceptionType` is `type(exception).__name__`, `exceptionText` is `str(exception)`. */
  function NetworkError(exceptionType: string, exceptionText: string, context: Option<map<string, Json>>, now: int): (r: ErrorContext)
    ensures r.errorCode == "NETWORK_ERROR" && r.category == Network && r.severity == High
    ensures r.message == JStr("Network error: " + exceptionText)
    ensures r.details == map["exception_type" := JStr(exceptionType), "context" := ContextOrEmpty(context)]
  {
    ErrorContext(
      "NETWORK_ERROR", Network, High, JStr("Network error: " + exceptionText),
      map["exception_type" := JStr(exceptionType), "context" := ContextOrEmpty(context)],
      now, None, None, 0)
  }

  // ---------------------------------------------------------------------------
  // The error log
  // ---------------------------------------------------------------------------

  /** `f"{cache_prefix}:{error_code}:{date}"` */
  datatype ErrorKey = ErrorKey(code: string, day: string)

  /** What `_cache_error` stores for one error; `severity` is stored by its `.value`. */
  datatype ErrorRecord = ErrorRecord(timestamp: int, severity: Severity, message: Json, phoneNumber: Option<string>)

  type ErrorLog = map<ErrorKey, seq<ErrorRecord>>

  const LOG_LIMIT: nat := 100

  /** `cache.get(key, [])` */
  function Logged(log: ErrorLog, key: ErrorKey): seq<ErrorRecord> {
    if key in log then log[key] else []
  }

  function RecordOf(e: ErrorContext): ErrorRecord {
    ErrorRecord(e.timestamp, e.severity, e.message, e.phoneNumber)
  }

  /** The log after `_cache_error(e)` on `today`. */
  function WithError(log: ErrorLog, e: ErrorContext, today: string): ErrorLog {
    var key := ErrorKey(e.errorCode, today);
    log[key := Ordering.TakeLast(Logged(log, key) + [RecordOf(e)], LOG_LIMIT)]
  }

  /**
   * Caching an error appends its record to that code's list for the day and
   * keeps the 100 newest; every other list is untouched.
   */
  lemma CachingKeepsNewest100(log: ErrorLog, e: ErrorContext, today: string)
    ensures var key := ErrorKey(e.errorCode, today);
            var before := Logged(log, key);
            var after := Logged(WithError(log, e, today), key);
            |after| == (if |before| < LOG_LIMIT then |before| + 1 else LOG_LIMIT) &&
            after[|after| - 1] == RecordOf(e) &&
            after[..|after| - 1] == before[|before| + 1 - |after|..]
    ensures forall k :: k != ErrorKey(e.errorCode, today) ==> Logged(WithError(log, e, today), k) == Logged(log, k)
  {
    var key := ErrorKey(e.errorCode, today);
    var before := Logged(log, key);
    var after := Logged(WithError(log, e, today), key);
    var all := before + [RecordOf(e)];
    assert after == all[|all| - |after|..];
    assert after[..|after| - 1] == all[|all| - |after|..|all| - 1];
    assert all[..|before|] == before;
  }

  // ---------------------------------------------------------------------------
  // The dashboard summary
  // ---------------------------------------------------------------------------

  /** One cache read of `get_error_summary`: a mapped code on one day. */
  datatype Read = Read(code: nat, day: string)

  function KeyOf(r: Read): ErrorKey {
    ErrorKey(Text.NatToString(r.code), r.day)
  }

  /** The visits of one day, in the order of `ERROR_MAPPINGS`. */
  function DayReads(day: string): (r: seq<Read>)
    ensures |r| == |MAPPED_CODES|
    ensures forall j :: 0 <= j < |r| ==> r[j] == Read(MAPPED_CODES[j], day)
  {
    [Read(190, day), Read(104, day), Read(4, day), Read(80007, day), Read(100, day), Read(131030, day)]
  }

  /** Every read `get_error_summary(days)` makes, day by day; `dateBack(k)` is the date k days ago. */
  function SummaryReads(days: nat, dateBack: nat -> string): (r: seq<Read>)
    ensures forall x :: x in r ==> x.code in ERROR_MAPPINGS
  {
    if days == 0 then [] else SummaryReads(days - 1, dateBack) + DayReads(dateBack(days - 1))
  }

  predicate MappedReads(visits: seq<Read>) {
    forall x :: x in visits ==> x.code in ERROR_MAPPINGS
  }

  datatype ErrorSummary = ErrorSummary(
    totalErrors: int,
    byCategory: map<string, int>,
    bySeverity: map<string, int>,
    recentErrors: seq<ErrorRecord>)

  /** `d.get(k, 0)` */
  function CountOf(m: map<string, int>, k: string): int {
    if k in m then m[k] else 0
  }

  const RECENT_PER_CODE: nat := 10
  const RECENT_LIMIT: nat := 20

  /** One turn of the inner loop: count the code's errors and take its 10 newest. */
  function Tally(s: ErrorSummary, info: ErrorInfo, errors: seq<ErrorRecord>): ErrorSummary {
    if errors == [] then s
    else
      var category := info.category.Value();
      var severity := info.severity.Value();
      ErrorSummary(
        s.totalErrors + |errors|,
        s.byCategory[category := CountOf(s.byCategory, category) + |errors|],
        s.bySeverity[severity := CountOf(s.bySeverity, severity) + |errors|],
        s.recentErrors + Ordering.TakeLast(errors, RECENT_PER_CODE))
  }

  /** The summary after the visits `visits`, before sorting. */
  function Scan(log: ErrorLog, visits: seq<Read>): ErrorSummary
    requires MappedReads(visits)
  {
    if visits == [] then ErrorSummary(0, map[], map[], [])
    else
      var last := visits[|visits| - 1];
      Tally(Scan(log, visits[..|visits| - 1]), ERROR_MAPPINGS[last.code], Logged(log, KeyOf(last)))
  }

  /** `recent_errors.sort(key=timestamp, reverse=True)`: a stable sort, newest first. */
  function NewestFirst(r: ErrorRecord): int {
    -r.timestamp
  }

  /** `get_error_summary(days)` on the log `log`. */
  function SummaryOf(log: ErrorLog, days: int, dateBack: nat -> string): ErrorSummary {
    var raw := Scan(log, SummaryReads(if days > 0 then days else 0, dateBack));
    raw.(recentErrors := Ordering.Take(Ordering.SortBy(raw.recentErrors, NewestFirst), RECENT_LIMIT))
  }

  /** The reference count: the lengths of the lists read, added up. */
  function TotalLogged(log: ErrorLog, visits: seq<Read>): nat {
    if visits == [] then 0 else TotalLogged(log, visits[..|visits| - 1]) + |Logged(log, KeyOf(visits[|visits| - 1]))|
  }

  predicate Breakdown(s: ErrorSummary) {
    s.byCategory.Keys <= {"authentication", "rate_limit", "api_error"} &&
    s.bySeverity.Keys <= {"high", "medium", "low"} &&
    s.totalErrors ==
      CountOf(s.byCategory, "authentication") + CountOf(s.byCategory, "rate_limit") + CountOf(s.byCategory, "api_error") &&
    s.totalErrors ==
      CountOf(s.bySeverity, "high") + CountOf(s.bySeverity, "medium") + CountOf(s.bySeverity, "low")
  }

  lemma AppendOne<T>(a: seq<T>, b: seq<T>, j: nat)
    requires j < |b|
    ensures a + b[..j + 1] == (a + b[..j]) + [b[j]]
  {
    assert b[..j + 1] == b[..j] + [b[j]];
  }

  /** Reading one more list tallies it onto the scan so far. */
  lemma ScanStep(log: ErrorLog, visits: seq<Read>, r: Read)
    requires MappedReads(visits) && r.code in ERROR_MAPPINGS
    ensures MappedReads(visits + [r])
    ensures Scan(log, visits + [r]) == Tally(Scan(log, visits), ERROR_MAPPINGS[r.code], Logged(log, KeyOf(r)))
  {
    assert (visits + [r])[..|visits|] == visits;
  }

  /** The scan's total is the sum of the lengths of the lists it read. */
  lemma {:induction false} ScanTotal(log: ErrorLog, visits: seq<Read>)
    requires MappedReads(visits)
    ensures Scan(log, visits).totalErrors == TotalLogged(log, visits)
  {
    if visits != [] {
      var init := visits[..|visits| - 1];
      assert forall x :: x in init ==> x in visits;
      ScanTotal(log, init);
    }
  }

  /** One turn of the loop keeps the per-category and per-severity counts adding up to the total. */
  lemma TallyKeepsBreakdown(s: ErrorSummary, info: ErrorInfo, errors: seq<ErrorRecord>)
    requires Breakdown(s)
    requires info.category in {Authentication, RateLimit, ApiError} && info.severity in {High, Medium, Low}
    ensures Breakdown(Tally(s, info, errors))
  {
  }

  /** The per-category and per-severity counts add up to the total. */
  lemma {:induction false} ScanBreakdown(log: ErrorLog, visits: seq<Read>)
    requires MappedReads(visits)
    ensures Breakdown(Scan(log, visits))
  {
    if visits != [] {
      var init := visits[..|visits| - 1];
      var last := visits[|visits| - 1];
      assert forall x :: x in init ==> x in visits;
      assert last in visits;
      ScanBreakdown(log, init);
      TallyKeepsBreakdown(Scan(log, init), ERROR_MAPPINGS[last.code], Logged(log, KeyOf(last)));
    }
  }

  /** `x` is among the last 10 entries logged under one of the keys the scan read (`errors[-10:]`). */
  predicate ReadFrom(log: ErrorLog, visits: seq<Read>, x: ErrorRecord) {
    exists r :: r in visits && x in Ordering.TakeLast(Logged(log, KeyOf(r)), RECENT_PER_CODE)
  }

  /** At most 10 recent entries come from each list the scan read. */
  lemma {:induction false} ScanRecentCount(log: ErrorLog, visits: seq<Read>)
    requires MappedReads(visits)
    ensures |Scan(log, visits).recentErrors| <= RECENT_PER_CODE * |visits|
  {
    if visits != [] {
      var init := visits[..|visits| - 1];
      assert forall x :: x in init ==> x in visits;
      ScanRecentCount(log, init);
    }
  }

  /** One turn of the loop extends the recent list with the last 10 of the list read. */
  lemma TallyRecent(s: ErrorSummary, info: ErrorInfo, errors: seq<ErrorRecord>)
    ensures Tally(s, info, errors).recentErrors == s.recentErrors + Ordering.TakeLast(errors, RECENT_PER_CODE)
  {
    if errors == [] {
      assert s.recentErrors + [] == s.recentErrors;
    }
  }

  /** An entry is read from one more key exactly when it is among that key's last 10 or was read before. */
  lemma ReadFromSnoc(log: ErrorLog, init: seq<Read>, last: Read, x: ErrorRecord)
    ensures ReadFrom(log, init + [last], x) <==>
            ReadFrom(log, init, x) || x in Ordering.TakeLast(Logged(log, KeyOf(last)), RECENT_PER_CODE)
  {
    var visits := init + [last];
    if ReadFrom(log, init, x) {
      var r :| r in init && x in Ordering.TakeLast(Logged(log, KeyOf(r)), RECENT_PER_CODE);
      assert r in visits;
    }
    if x in Ordering.TakeLast(Logged(log, KeyOf(last)), RECENT_PER_CODE) {
      assert last in visits;
    }
    if ReadFrom(log, visits, x) {
      var r :| r in visits && x in Ordering.TakeLast(Logged(log, KeyOf(r)), RECENT_PER_CODE);
      if r != last {
        assert r in init;
      }
    }
  }

  /** The recent entries are exactly the last 10 of each list the scan read. */
  lemma {:induction false} ScanRecentOrigin(log: ErrorLog, visits: seq<Read>)
    requires MappedReads(visits)
    ensures forall x :: x in Scan(log, visits).recentErrors <==> ReadFrom(log, visits, x)
  {
    if visits != [] {
      var init := visits[..|visits| - 1];
      var last := visits[|visits| - 1];
      assert visits == init + [last];
      assert forall x :: x in init ==> x in visits;
      ScanRecentOrigin(log, init);
      TallyRecent(Scan(log, init), ERROR_MAPPINGS[last.code], Logged(log, KeyOf(last)));
      forall x
        ensures x in Scan(log, visits).recentErrors <==> ReadFrom(log, visits, x)
      {
        ReadFromSnoc(log, init, last, x);
      }
    }
  }

  /** The scan never looks at a key it does not read. */
  lemma {:induction false} ScanIgnoresUnreadKeys(log: ErrorLog, visits: seq<Read>, key: ErrorKey, v: seq<ErrorRecord>)
    requires MappedReads(visits)
    requires forall r :: r in visits ==> KeyOf(r) != key
    ensures Scan(log[key := v], visits) == Scan(log, visits)
  {
    if visits != [] {
      var init := visits[..|visits| - 1];
      assert forall x :: x in init ==> x in visits;
      ScanIgnoresUnreadKeys(log, init, key, v);
      assert visits[|visits| - 1] in visits;
    }
  }

  /** A decimal rendering never starts with a letter. */
  lemma NotADecimal(n: nat, code: string)
    requires code != [] && !Text.IsDigit(code[0])
    ensures Text.NatToString(n) != code
  {
  }

  /**
   * Network errors and parse errors are logged under codes that are not
   * numbers, so they never reach the summary.
   */
  lemma SummaryIgnoresNonApiCodes(log: ErrorLog, days: int, dateBack: nat -> string, day: string, v: seq<ErrorRecord>)
    ensures SummaryOf(log[ErrorKey("NETWORK_ERROR", day) := v], days, dateBack) == SummaryOf(log, days, dateBack)
    ensures SummaryOf(log[ErrorKey("PARSE_ERROR", day) := v], days, dateBack) == SummaryOf(log, days, dateBack)
  {
    var visits := SummaryReads(if days > 0 then days else 0, dateBack);
    forall r | r in visits
      ensures KeyOf(r) != ErrorKey("NETWORK_ERROR", day) && KeyOf(r) != ErrorKey("PARSE_ERROR", day)
    {
      NotADecimal(r.code, "NETWORK_ERROR");
      NotADecimal(r.code, "PARSE_ERROR");
    }
    ScanIgnoresUnreadKeys(log, visits, ErrorKey("NETWORK_ERROR", day), v);
    ScanIgnoresUnreadKeys(log, visits, ErrorKey("PARSE_ERROR", day), v);
  }

  /**
   * The summary's total is the number of errors logged under the mapped codes
   * on the days it covers, broken down by category and by severity.
   */
  lemma SummaryCounts(log: ErrorLog, days: int, dateBack: nat -> string)
    ensures var visits := SummaryReads(if days > 0 then days else 0, dateBack);
            var s := SummaryOf(log, days, dateBack);
            s.totalErrors == TotalLogged(log, visits) && Breakdown(s)
  {
    var visits := SummaryReads(if days > 0 then days else 0, dateBack);
    ScanTotal(log, visits);
    ScanBreakdown(log, visits);
  }

  /**
   * The summary's recent list holds the 20 newest of the entries gathered
   * (the last 10 of each list read), newest first; all of them when fewer.
   */
  lemma SummaryRecent(log: ErrorLog, days: int, dateBack: nat -> string)
    ensures var visits := SummaryReads(if days > 0 then days else 0, dateBack);
            var s := SummaryOf(log, days, dateBack);
            |s.recentErrors| <= RECENT_LIMIT &&
            Ordering.SortedBy(s.recentErrors, NewestFirst) &&
            (forall x :: x in s.recentErrors ==> ReadFrom(log, visits, x)) &&
            (|s.recentErrors| < RECENT_LIMIT ==> forall x :: ReadFrom(log, visits, x) ==> x in s.recentErrors) &&
            (|s.recentErrors| == RECENT_LIMIT ==>
               forall x :: ReadFrom(log, visits, x) && x !in s.recentErrors ==>
                 x.timestamp <= s.recentErrors[RECENT_LIMIT - 1].timestamp)
  {
    var visits := SummaryReads(if days > 0 then days else 0, dateBack);
    var raw := Scan(log, visits);
    ScanRecentOrigin(log, visits);
    Ordering.TakeOfSorted(raw.recentErrors, NewestFirst, RECENT_LIMIT);
  }

  /** The handler and the log it writes to. */
  class WhatsAppErrorHandler {
    var log: ErrorLog

    constructor(log: ErrorLog)
      ensures this.log == log
    {
      this.log := log;
    }

    /** `handle_api_error`: a parsed error is logged; the fallback is only returned. */
    method HandleApiError(response: Response, context: Option<map<string, Json>>, now: int, today: string)
      returns (e: ErrorContext)
      modifies this
      ensures var parsed := ParseApiError(response, context, now);
              e == (if parsed.Some? then parsed.value else FallbackError(response, context, now)) &&
              log == (if parsed.Some? then WithError(old(log), e, today) else old(log))
    {
      var parsed := ParseApiError(response, context, now);
      if parsed.Some? {
        e := parsed.value;
        CacheError(e, today);
      } else {
        e := FallbackError(response, context, now);
      }
    }

    /** `handle_network_error` */
    method HandleNetworkError(exceptionType: string, exceptionText: string, context: Option<map<string, Json>>,
                              now: int, today: string)
      returns (e: ErrorContext)
      modifies this
      ensures e == NetworkError(exceptionType, exceptionText, context, now)
      ensures log == WithError(old(log), e, today)
    {
      e := NetworkError(exceptionType, exceptionText, context, now);
      CacheError(e, today);
    }

    /** `_cache_error` */
    method CacheError(e: ErrorContext, today: string)
      modifies this
      ensures log == WithError(old(log), e, today)
    {
      var key := ErrorKey(e.errorCode, today);
      var existing := if key in log then log[key] else [];
      existing := existing + [RecordOf(e)];
      if |existing| > LOG_LIMIT {
        existing := existing[|existing| - LOG_LIMIT..];
      }
      log := log[key := existing];
    }

    /** `get_error_summary(days)`; `dateBack(k)` is the date k days before today. */
    method GetErrorSummary(days: int, dateBack: nat -> string) returns (summary: ErrorSummary)
      ensures summary == SummaryOf(log, days, dateBack)
    {
      var raw := ScanDays(log, days, dateBack);
      var sorted := Ordering.SortBy(raw.recentErrors, NewestFirst);
      summary := raw.(recentErrors := Ordering.Take(sorted, RECENT_LIMIT));
    }
  }

  /** The outer loop of `get_error_summary`: every day, newest first, before the sort. */
  method ScanDays(log: ErrorLog, days: int, dateBack: nat -> string) returns (summary: ErrorSummary)
    ensures summary == Scan(log, SummaryReads(if days > 0 then days else 0, dateBack))
  {
    summary := ErrorSummary(0, map[], map[], []);
    var n: nat := if days > 0 then days else 0;
    var dayOffset: nat := 0;
    ghost var done: seq<Read> := [];
    while dayOffset < n
      invariant dayOffset <= n
      invariant done == SummaryReads(dayOffset, dateBack)
      invariant MappedReads(done)
      invariant summary == Scan(log, done)
    {
      summary := ReadDay(log, dateBack(dayOffset), summary, done);
      done := done + DayReads(dateBack(dayOffset));
      dayOffset := dayOffset + 1;
    }
  }

  /** The inner loop of `get_error_summary`: the six mapped codes of one day. */
  method ReadDay(log: ErrorLog, date: string, summary0: ErrorSummary, ghost done: seq<Read>)
    returns (summary: ErrorSummary)
    requires MappedReads(done) && summary0 == Scan(log, done)
    ensures MappedReads(done + DayReads(date))
    ensures summary == Scan(log, done + DayReads(date))
  {
    summary := summary0;
    ghost var visited := done;
    var j := 0;
    while j < |MAPPED_CODES|
      invariant j <= |MAPPED_CODES|
      invariant visited == done + DayReads(date)[..j]
      invariant MappedReads(visited)
      invariant summary == Scan(log, visited)
    {
      var errorCode := MAPPED_CODES[j];
      assert errorCode in ERROR_MAPPINGS;
      summary := ReadCode(log, errorCode, date, summary);
      ScanStep(log, visited, Read(errorCode, date));
      AppendOne(done, DayReads(date), j);
      visited := visited + [Read(errorCode, date)];
      j := j + 1;
    }
    assert DayReads(date)[..j] == DayReads(date);
  }

  /** One turn of the inner loop: the errors logged under one mapped code on one day. */
  method ReadCode(log: ErrorLog, errorCode: nat, date: string, summary0: ErrorSummary)
    returns (summary: ErrorSummary)
    requires errorCode in ERROR_MAPPINGS
    ensures summary == Tally(summary0, ERROR_MAPPINGS[errorCode], Logged(log, KeyOf(Read(errorCode, date))))
  {
    var cacheKey := ErrorKey(Text.NatToString(errorCode), date);
    var errors := if cacheKey in log then log[cacheKey] else [];
    summary := summary0.(totalErrors := summary0.totalErrors + |errors|);
    if errors != [] {
      var info := ERROR_MAPPINGS[errorCode];
      var category := info.category.Value();
      var severity := info.severity.Value();
      summary := summary.(byCategory := summary.byCategory[category := CountOf(summary.byCategory, category) + |errors|]);
      summary := summary.(bySeverity := summary.bySeverity[severity := CountOf(summary.bySeverity, severity) + |errors|]);
      summary := summary.(recentErrors := summary.recentErrors + Ordering.TakeLast(errors, RECENT_PER_CODE));
    }
  }

  // ---------------------------------------------------------------------------
  // Retrying
  // ---------------------------------------------------------------------------

  /** `should_retry` */
  function ShouldRetry(e: ErrorContext): (r: bool)
    ensures e.category in {Authentication, Validation} ==> !r
    ensures e.category in {Network, RateLimit} ==> r
    ensures e.category == ApiError ==> (r <==> e.retryCount < 2)
    ensures e.category in {Configuration, Unknown} ==> !r
  {
    if e.category == Authentication then false
    else if e.category == Validation then false
    else if e.category in [Network, RateLimit] then true
    else if e.category == ApiError && e.retryCount < 2 then true
    else false
  }

  /**
   * For the codes in the table: token errors are never retried, rate limits
   * always are, and parameter and recipient errors only for the first two tries.
   */
  lemma RetryForMappedCodes(response: Response, context: Option<map<string, Json>>, now: int,
                            body: map<string, Json>, error: map<string, Json>, c: int)
    requires response.body == Some(JObj(body)) && "error" in body && body["error"] == JObj(error)
    requires "code" in error && error["code"] == JNum(c) && c in ERROR_MAPPINGS
    ensures var e := ParseApiError(response, context, now).value;
            (c in {190, 104} ==> !ShouldRetry(e)) &&
            (c in {4, 80007} ==> ShouldRetry(e)) &&
            (c in {100, 131030} ==> ShouldRetry(e) && !ShouldRetry(e.(retryCount := 2)))
  {
    MappedCodeTakesTableEntry(response, context, now, body, error, c);
  }

  /** What one call of the retried function does. */
  datatype Attempt = Succeeded(value: Json) | Failed(error: string)

  /** How `retry_with_backoff` ends: a value, the last exception, or `raise None` when it never called. */
  datatype Outcome = Returned(value: Json) | Raised(error: string) | RaisedNothing

  function Pow2(k: nat): (p: nat)
    ensures p >= 1
  {
    if k == 0 then 1 else 2 * Pow2(k - 1)
  }

  /** `min(base_delay * 2 ** k, max_delay)`, in whole seconds. */
  function BackoffDelay(baseDelay: nat, maxDelay: nat, k: nat): nat {
    if baseDelay * Pow2(k) <= maxDelay then baseDelay * Pow2(k) else maxDelay
  }

  /** The waits before retries 1 .. m. */
  function Backoff(baseDelay: nat, maxDelay: nat, m: nat): (r: seq<nat>)
    ensures |r| == m
  {
    if m == 0 then [] else Backoff(baseDelay, maxDelay, m - 1) + [BackoffDelay(baseDelay, maxDelay, m - 1)]
  }

  lemma Pow2Grows(i: nat, j: nat)
    requires i <= j
    ensures Pow2(i) <= Pow2(j)
  {
  }

  /** The waits double until they reach `max_delay`, and never exceed it. */
  lemma {:induction false} BackoffShape(baseDelay: nat, maxDelay: nat, m: nat)
    ensures var w := Backoff(baseDelay, maxDelay, m);
            (forall i :: 0 <= i < m ==> w[i] == BackoffDelay(baseDelay, maxDelay, i) && w[i] <= maxDelay) &&
            (forall i, j :: 0 <= i <= j < m ==> w[i] <= w[j])
  {
    if m > 0 {
      BackoffShape(baseDelay, maxDelay, m - 1);
      var w := Backoff(baseDelay, maxDelay, m);
      assert w[..m - 1] == Backoff(baseDelay, maxDelay, m - 1);
      forall i, j | 0 <= i <= j < m
        ensures w[i] <= w[j]
      {
        Pow2Grows(i, j);
        assert baseDelay * Pow2(i) <= baseDelay * Pow2(j) by {
          MulMonotone(baseDelay, Pow2(i), Pow2(j));
        }
      }
    }
  }

  lemma MulMonotone(a: nat, x: nat, y: nat)
    requires x <= y
    ensures a * x <= a * y
  {
  }

  /** The index of the first success among calls 0 .. n-1, or -1. */
  function FirstSuccess(func: nat -> Attempt, n: nat): (k: int)
    ensures -1 <= k < n
    ensures k >= 0 ==> func(k).Succeeded? && forall i :: 0 <= i < k ==> func(i).Failed?
    ensures k == -1 <==> forall i :: 0 <= i < n ==> func(i).Failed?
  {
    if n == 0 then -1
    else
      var k := FirstSuccess(func, n - 1);
      if k >= 0 then k else if func(n - 1).Succeeded? then n - 1 else -1
  }

  class RetryHandler {
    const maxRetries: int
    const baseDelay: nat
    const maxDelay: nat

    constructor(maxRetries: int, baseDelay: nat, maxDelay: nat)
      ensures this.maxRetries == maxRetries && this.baseDelay == baseDelay && this.maxDelay == maxDelay
    {
      this.maxRetries := maxRetries;
      this.baseDelay := baseDelay;
      this.maxDelay := maxDelay;
    }

    /**
     * `retry_with_backoff(func)`: `func(k)` is what the k-th call does. Returns
     * the outcome, how many calls were made, and the waits between them.
     */
    method RetryWithBackoff(func: nat -> Attempt) returns (outcome: Outcome, calls: nat, waits: seq<nat>)
      ensures var n := if maxRetries < 0 then 0 else maxRetries + 1; calls <= n
      ensures var k := FirstSuccess(func, if maxRetries < 0 then 0 else maxRetries + 1);
              k >= 0 ==> outcome == Returned(func(k).value) && calls == k + 1 && waits == Backoff(baseDelay, maxDelay, k)
      ensures var k := FirstSuccess(func, if maxRetries < 0 then 0 else maxRetries + 1);
              k < 0 && maxRetries >= 0 ==>
                outcome == Raised(func(maxRetries).error) && calls == maxRetries + 1 &&
                waits == Backoff(baseDelay, maxDelay, maxRetries)
      ensures maxRetries < 0 ==> outcome == RaisedNothing && calls == 0 && waits == []
    {
      ghost var n := if maxRetries < 0 then 0 else maxRetries + 1;
      var lastError: Option<string> := None;
      calls := 0;
      waits := [];
      var attempt: nat := 0;
      while attempt <= maxRetries
        invariant attempt <= n
        invariant maxRetries >= 0 ==> attempt <= maxRetries
        invariant calls == attempt && waits == Backoff(baseDelay, maxDelay, attempt)
        invariant forall i :: 0 <= i < attempt ==> func(i).Failed?
        invariant lastError == if attempt == 0 then None else Some(func(attempt - 1).error)
      {
        var a := func(attempt);
        calls := calls + 1;
        if a.Succeeded? {
          assert FirstSuccess(func, n) == attempt by {
            FirstSuccessIs(func, n, attempt);
          }
          outcome := Returned(a.value);
          return;
        }
        lastError := Some(a.error);
        if attempt == maxRetries {
          break;
        }
        waits := waits + [BackoffDelay(baseDelay, maxDelay, attempt)];
        attempt := attempt + 1;
      }
      outcome := if lastError.Some? then Raised(lastError.value) else RaisedNothing;
    }
  }

  lemma FirstSuccessIs(func: nat -> Attempt, n: nat, k: nat)
    requires k < n && func(k).Succeeded? && forall i :: 0 <= i < k ==> func(i).Failed?
    ensures FirstSuccess(func, n) == k
  {
  }

  // ---------------------------------------------------------------------------
  // Monitoring
  // ---------------------------------------------------------------------------

  /** The monitor's counter keys, `f"{metrics_prefix}:<name>[:<detail>]:{date}"`. */
  datatype Counter =
    | MessagesSent(day: string)
    | MessagesSuccess(day: string)
    | MessagesFailed(day: string)
    | MessagesByType(messageType: string, day: string)
    | MessagesReceived(day: string)
    | ReceivedByType(messageType: string, day: string)
    | UserInteractions(day: string)
    | Commands(command: string, day: string)

  type Counters = map<Counter, int>

  /** `cache.get(key, 0)` */
  function Count(c: Counters, key: Counter): int {
    if key in c then c[key] else 0
  }

  /** `_increment_counter(key)` */
  function Bump(c: Counters, key: Counter): Counters {
    c[key := Count(c, key) + 1]
  }

  /** The counters after `record_message_sent`. */
  function AfterSent(c: Counters, success: bool, messageType: string, today: string): Counters {
    var c1 := Bump(c, MessagesSent(today));
    var c2 := Bump(c1, if success then MessagesSuccess(today) else MessagesFailed(today));
    Bump(c2, MessagesByType(messageType, today))
  }

  /**
   * Recording a sent message adds one to messages_sent, to exactly one of
   * success and failed, and to its type's counter; nothing else changes.
   */
  lemma SentCounts(c: Counters, success: bool, messageType: string, today: string)
    ensures var c' := AfterSent(c, success, messageType, today);
            Count(c', MessagesSent(today)) == Count(c, MessagesSent(today)) + 1 &&
            Count(c', MessagesSuccess(today)) == Count(c, MessagesSuccess(today)) + (if success then 1 else 0) &&
            Count(c', MessagesFailed(today)) == Count(c, MessagesFailed(today)) + (if success then 0 else 1) &&
            Count(c', MessagesByType(messageType, today)) == Count(c, MessagesByType(messageType, today)) + 1 &&
            forall k :: k !in {MessagesSent(today), MessagesSuccess(today), MessagesFailed(today), MessagesByType(messageType, today)}
                        ==> Count(c', k) == Count(c, k)
  {
  }

  datatype DailyStats = DailyStats(date: string, sent: int, received: int, success: int)

  /** `success_rate`: 0 when nothing was sent, else `success / sent * 100` (kept as the exact ratio). */
  datatype SuccessRate = NothingSent | Percentage(success: int, sent: int)

  datatype MetricsSummary = MetricsSummary(
    messagesSent: int,
    messagesReceived: int,
    successRate: SuccessRate,
    topCommands: map<string, int>,
    dailyStats: seq<DailyStats>)

  /** One day's entry of `daily_stats`. */
  function DayStats(c: Counters, date: string): DailyStats {
    DailyStats(date, Count(c, MessagesSent(date)), Count(c, MessagesReceived(date)), Count(c, MessagesSuccess(date)))
  }

  function SumSent(stats: seq<DailyStats>): int {
    if stats == [] then 0 else SumSent(stats[..|stats| - 1]) + stats[|stats| - 1].sent
  }

  function SumSuccess(stats: seq<DailyStats>): int {
    if stats == [] then 0 else SumSuccess(stats[..|stats| - 1]) + stats[|stats| - 1].success
  }

  lemma SumsSnoc(stats: seq<DailyStats>, d: DailyStats)
    ensures SumSent(stats + [d]) == SumSent(stats) + d.sent
    ensures SumSuccess(stats + [d]) == SumSuccess(stats) + d.success
  {
    assert (stats + [d])[..|stats|] == stats;
  }

  /** One more day's entry keeps the list day by day. */
  lemma DaysSnoc(c: Counters, dateBack: nat -> string, stats: seq<DailyStats>, d: DailyStats)
    requires forall i :: 0 <= i < |stats| ==> stats[i] == DayStats(c, dateBack(i))
    requires d == DayStats(c, dateBack(|stats|))
    ensures forall i :: 0 <= i < |stats| + 1 ==> (stats + [d])[i] == DayStats(c, dateBack(i))
  {
  }

  class WhatsAppMonitor {
    var counters: Counters

    constructor(counters: Counters)
      ensures this.counters == counters
    {
      this.counters := counters;
    }

    /** `record_message_sent`; the phone number is not used. */
    method RecordMessageSent(success: bool, phoneNumber: string, messageType: string, today: string)
      modifies this
      ensures counters == AfterSent(old(counters), success, messageType, today)
    {
      IncrementCounter(MessagesSent(today));
      if success {
        IncrementCounter(MessagesSuccess(today));
      } else {
        IncrementCounter(MessagesFailed(today));
      }
      IncrementCounter(MessagesByType(messageType, today));
    }

    /** `record_message_received` */
    method RecordMessageReceived(phoneNumber: string, messageType: string, today: string)
      modifies this
      ensures counters == Bump(Bump(old(counters), MessagesReceived(today)), ReceivedByType(messageType, today))
    {
      IncrementCounter(MessagesReceived(today));
      IncrementCounter(ReceivedByType(messageType, today));
    }

    /** `record_user_interaction` */
    method RecordUserInteraction(phoneNumber: string, command: string, today: string)
      modifies this
      ensures counters == Bump(Bump(old(counters), UserInteractions(today)), Commands(command, today))
    {
      IncrementCounter(UserInteractions(today));
      IncrementCounter(Commands(command, today));
    }

    /** `_increment_counter(key)` with the default amount 1. */
    method IncrementCounter(key: Counter)
      modifies this
      ensures counters == Bump(old(counters), key)
    {
      var current := if key in counters then counters[key] else 0;
      counters := counters[key := current + 1];
    }

    /**
     * `get_metrics_summary(days)`: one entry per day, the sent total, and the
     * success rate; `messages_received` and `top_commands` are never filled in.
     */
    method GetMetricsSummary(days: int, dateBack: nat -> string) returns (summary: MetricsSummary)
      ensures |summary.dailyStats| == if days > 0 then days else 0
      ensures forall i :: 0 <= i < |summary.dailyStats| ==> summary.dailyStats[i] == DayStats(counters, dateBack(i))
      ensures summary.messagesSent == SumSent(summary.dailyStats)
      ensures summary.messagesReceived == 0 && summary.topCommands == map[]
      ensures summary.successRate ==
                if summary.messagesSent > 0 then Percentage(SumSuccess(summary.dailyStats), summary.messagesSent)
                else NothingSent
    {
      var stats: seq<DailyStats> := [];
      var totalSent := 0;
      var totalSuccess := 0;
      var dayOffset: nat := 0;
      while dayOffset < days
        invariant dayOffset == |stats| && (days > 0 ==> dayOffset <= days) && (days <= 0 ==> dayOffset == 0)
        invariant forall i :: 0 <= i < |stats| ==> stats[i] == DayStats(counters, dateBack(i))
        invariant totalSent == SumSent(stats) && totalSuccess == SumSuccess(stats)
      {
        var date := dateBack(dayOffset);
        var sent := if MessagesSent(date) in counters then counters[MessagesSent(date)] else 0;
        var received := if MessagesReceived(date) in counters then counters[MessagesReceived(date)] else 0;
        var success := if MessagesSuccess(date) in counters then counters[MessagesSuccess(date)] else 0;
        var entry := DailyStats(date, sent, received, success);
        assert entry == DayStats(counters, date);
        SumsSnoc(stats, entry);
        DaysSnoc(counters, dateBack, stats, entry);
        stats := stats + [entry];
        totalSent := totalSent + sent;
        totalSuccess := totalSuccess + success;
        dayOffset := dayOffset + 1;
      }
      var rate := if totalSent > 0 then Percentage(totalSuccess, totalSent) else NothingSent;
      summary := MetricsSummary(totalSent, 0, rate, map[], stats);
    }
  }
}
