/**
 * The LLM server logger's counters: requests, errors and tokens, the entries written
 * for each event, and the metrics derived from the counters. The rotating file handlers
 * and the JSON rendering of an entry are not modelled; an entry keeps its fields.
 */
module LlmLogger {
  import opened Wrappers
  import opened Json

  /** One log record: its level, its event name and its data fields. */
  datatype Entry = Entry(level: string, event: string, data: map<string, Value>)

  /**
   * The logging methods `getattr` finds on the logger and that accept an event and
   * `extra`; any other name raises (a missing attribute, or a method with another signature).
   */
  const Levels := {"debug", "info", "warning", "warn", "error", "exception", "critical", "fatal"}

  /** The threshold `setLevel(logging.INFO)` sets: records below it are dropped. */
  const Threshold := 20

  /** The numeric level of the record each logging method makes. */
  function LevelNumber(name: string): (n: int)
    requires name in Levels
    ensures name == "debug" <==> n < Threshold
  {
    if name == "debug" then 10
    else if name == "info" then 20
    else if name in {"warning", "warn"} then 30
    else if name in {"error", "exception"} then 40
    else 50
  }

  /** The level name a record carries: `warn` logs at WARNING, `exception` at ERROR and `fatal` at CRITICAL. */
  function RecordLevel(name: string): (r: string)
    requires name in Levels && LevelNumber(name) >= Threshold
    ensures r in {"info", "warning", "error", "critical"}
    ensures name in {"info", "warning", "error", "critical"} ==> r == name
    ensures LevelNumber(r) == LevelNumber(name)
  {
    var n := LevelNumber(name);
    if n == 20 then "info" else if n == 30 then "warning" else if n == 40 then "error" else "critical"
  }

  /** The metrics of `get_metrics`. */
  datatype LogMetrics = LogMetrics(requestCount: int, errorCount: int, totalTokens: int,
                                   errorRate: real, avgTokens: real)

  /** `max(request_count, 1)`, the denominator of both averages. */
  function Denominator(requests: int): (d: int)
    ensures d >= 1 && d >= requests && (requests >= 1 ==> d == requests)
  {
    if requests > 1 then requests else 1
  }

  /** The data of a request entry: the three fields, overridden by any extra field of the same name. */
  function RequestData(model: string, tokens: int, durationMs: int, extra: map<string, Value>): (d: map<string, Value>)
    ensures d.Keys == {"model", "tokens", "duration_ms"} + extra.Keys
    ensures forall k :: k in extra ==> d[k] == extra[k]
    ensures "model" !in extra ==> d["model"] == Str(model)
    ensures "tokens" !in extra ==> d["tokens"] == Num(tokens as real)
  {
    map["model" := Str(model), "tokens" := Num(tokens as real), "duration_ms" := Num(durationMs as real)] + extra
  }

  class Logger {
    var requestCount: int
    var errorCount: int
    var totalTokens: int
    var entries: seq<Entry>

    /** Counters start at zero, with nothing logged. */
    constructor()
      ensures requestCount == 0 && errorCount == 0 && totalTokens == 0 && entries == []
    {
      requestCount, errorCount, totalTokens := 0, 0, 0;
      entries := [];
    }

    /**
     * `log_request`: a non-empty error counts an error and logs `request_error` with the
     * error in the data; otherwise the request and its tokens are counted and
     * `request_complete` is logged.
     */
    method LogRequest(model: string, tokens: int, durationMs: int, error: Option<string>, extra: map<string, Value>)
      modifies this
      ensures var failed := error.Some? && error.value != [];
        var data := RequestData(model, tokens, durationMs, extra);
        (failed ==> errorCount == old(errorCount) + 1 && requestCount == old(requestCount)
                    && totalTokens == old(totalTokens)
                    && entries == old(entries) + [Entry("error", "request_error", data["error" := Str(error.value)])])
        && (!failed ==> requestCount == old(requestCount) + 1 && totalTokens == old(totalTokens) + tokens
                        && errorCount == old(errorCount)
                        && entries == old(entries) + [Entry("info", "request_complete", data)])
    {
      var data := RequestData(model, tokens, durationMs, extra);
      if error.Some? && error.value != [] {
        errorCount := errorCount + 1;
        data := data["error" := Str(error.value)];
        entries := entries + [Entry("error", "request_error", data)];
      } else {
        requestCount := requestCount + 1;
        totalTokens := totalTokens + tokens;
        entries := entries + [Entry("info", "request_complete", data)];
      }
    }

    /**
     * `log_system`: one entry at the named level, stamped with `now`; the counters never
     * change. A level the logger lacks raises (`false`) and logs nothing; `debug` is
     * below the logger's INFO threshold, so it succeeds and logs nothing either.
     */
    method LogSystem(event: string, level: string, now: string, extra: map<string, Value>) returns (ok: bool)
      modifies this
      ensures requestCount == old(requestCount) && errorCount == old(errorCount) && totalTokens == old(totalTokens)
      ensures ok <==> level in Levels
      ensures ok && level != "debug" ==>
        entries == old(entries) + [Entry(RecordLevel(level), event, map["timestamp" := Str(now)] + extra)]
      ensures !ok || level == "debug" ==> entries == old(entries)
    {
      if level !in Levels {
        return false;
      }
      if LevelNumber(level) >= Threshold {
        entries := entries + [Entry(RecordLevel(level), event, map["timestamp" := Str(now)] + extra)];
      }
      return true;
    }

    /**
     * `get_metrics`: the counters and the two averages over `max(request_count, 1)`. Only
     * successful requests are in the denominator, so the error rate can exceed 1.
     */
    function GetMetrics(): (m: LogMetrics)
      reads this
      ensures m.requestCount == requestCount && m.errorCount == errorCount && m.totalTokens == totalTokens
      ensures m.errorRate * Denominator(requestCount) as real == errorCount as real
      ensures m.avgTokens * Denominator(requestCount) as real == totalTokens as real
    {
      var d := Denominator(requestCount) as real;
      LogMetrics(requestCount, errorCount, totalTokens, errorCount as real / d, totalTokens as real / d)
    }
  }

  /** With non-negative token counts no counter ever decreases, whatever is logged. */
  method CountersNeverDecrease(l: Logger, model: string, tokens: int, durationMs: int, error: Option<string>,
                               extra: map<string, Value>, event: string, level: string, now: string)
    requires tokens >= 0
    modifies l
    ensures l.requestCount >= old(l.requestCount) && l.errorCount >= old(l.errorCount)
    ensures l.totalTokens >= old(l.totalTokens)
  {
    l.LogRequest(model, tokens, durationMs, error, extra);
    var _ := l.LogSystem(event, level, now, extra);
  }

  /** Two failed requests and no successful one give an error rate of 2. */
  method ErrorRateAboveOne() returns (rate: real)
    ensures rate == 2.0
  {
    var l := new Logger();
    l.LogRequest("m", 10, 5, Some("timeout"), map[]);
    l.LogRequest("m", 10, 5, Some("timeout"), map[]);
    rate := l.GetMetrics().errorRate;
  }
}
