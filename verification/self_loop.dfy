/**
 * The original self-improvement loop (`self_loop_agent.py`, kept as identical copies
 * under `trading/` and `utils/`): each iteration reads the last backtest summary into a
 * five-entry short-term memory and an unbounded long-term memory, asks the chat model
 * for a `minimal_roi`/`stoploss` pair, rewrites the strategy source, and backtests it.
 */
module SelfLoop {
  import opened Wrappers
  import opened Text
  import opened Json
  import opened SelfLoopCommon

  const MemoryWindow: nat := 5
  const StrategyName := "SimpleAlwaysBuySell"
  const MaxRetries: nat := 3

  /** The strategy source written when the strategy file does not exist yet. */
  const Baseline :=
    "from freqtrade.strategy.interface import IStrategy\n"
    + "from pandas import DataFrame\n\n"
    + "class SimpleAlwaysBuySell(IStrategy):\n"
    + "    minimal_roi = {\"0\": 0.01}\n"
    + "    stoploss = -0.10\n"
    + "    timeframe = \"1h\"\n"
    + "    startup_candle_count = 10\n\n"
    + "    def populate_indicators(self, dataframe: DataFrame, metadata: dict) -> DataFrame:\n"
    + "        return dataframe\n\n"
    + "    def populate_buy_trend(self, dataframe: DataFrame, metadata: dict) -> DataFrame:\n"
    + "        dataframe[\"buy\"] = 1\n"
    + "        return dataframe\n\n"
    + "    def populate_sell_trend(self, dataframe: DataFrame, metadata: dict) -> DataFrame:\n"
    + "        dataframe[\"sell\"] = 1\n"
    + "        return dataframe\n"

  /** How many `-v` flags the three `if verbosity >= k` tests add. */
  function VerboseCount(verbosity: int): nat {
    if verbosity >= 3 then 3 else if verbosity >= 1 then verbosity else 0
  }

  /** `_download_data`'s argument list. */
  method DownloadCommand(bin: string, config: string, timeframe: string, verbosity: int) returns (cmd: seq<string>)
    ensures cmd == [bin, "download-data", "-c", config, "-t", timeframe] + VFlags(VerboseCount(verbosity))
  {
    cmd := [bin, "download-data", "-c", config, "-t", timeframe];
    if verbosity >= 1 { cmd := cmd + ["-v"]; }
    if verbosity >= 2 { cmd := cmd + ["-v"]; }
    if verbosity >= 3 { cmd := cmd + ["-v"]; }
  }

  /** `_backtest`'s argument list: the fixed prefix, up to three `-v`, then `--export trades` when asked. */
  method BacktestCommand(bin: string, config: string, timeframe: string, timerange: string, verbosity: int, exportTrades: bool)
    returns (cmd: seq<string>)
    ensures cmd == BacktestPrefix(bin, config, StrategyName, timeframe, timerange) + VFlags(VerboseCount(verbosity))
      + (if exportTrades then ["--export", "trades"] else [])
  {
    cmd := BacktestPrefix(bin, config, StrategyName, timeframe, timerange);
    if verbosity >= 1 { cmd := cmd + ["-v"]; }
    if verbosity >= 2 { cmd := cmd + ["-v"]; }
    if verbosity >= 3 { cmd := cmd + ["-v"]; }
    if exportTrades { cmd := cmd + ["--export", "trades"]; }
  }

  /** The flag count is the verbosity level, capped at three; the prefix is kept as it is. */
  lemma BacktestCommandShape(bin: string, config: string, timeframe: string, timerange: string, verbosity: int, exportTrades: bool)
    ensures var cmd := BacktestPrefix(bin, config, StrategyName, timeframe, timerange) + VFlags(VerboseCount(verbosity))
      + (if exportTrades then ["--export", "trades"] else []);
      cmd[..14] == BacktestPrefix(bin, config, StrategyName, timeframe, timerange)
      && (forall k :: 14 <= k < 14 + VerboseCount(verbosity) ==> cmd[k] == "-v")
      && VerboseCount(verbosity) <= 3
      && (verbosity <= 3 ==> VerboseCount(verbosity) == if verbosity < 0 then 0 else verbosity)
      && (exportTrades <==> |cmd| == 16 + VerboseCount(verbosity))
      && (exportTrades ==> cmd[|cmd| - 2..] == ["--export", "trades"])
  {
  }

  /** `--export` is on the command line exactly when trade export was requested. */
  lemma ExportFlagIff(bin: string, config: string, timeframe: string, timerange: string, verbosity: int, exportTrades: bool)
    requires bin != "--export" && config != "--export" && timeframe != "--export" && timerange != "--export"
    ensures var cmd := BacktestPrefix(bin, config, StrategyName, timeframe, timerange) + VFlags(VerboseCount(verbosity))
      + (if exportTrades then ["--export", "trades"] else []);
      "--export" in cmd <==> exportTrades
  {
    var pre := BacktestPrefix(bin, config, StrategyName, timeframe, timerange);
    var v := VFlags(VerboseCount(verbosity));
    var tail: seq<string> := if exportTrades then ["--export", "trades"] else [];
    var cmd := pre + v + tail;
    forall k | 0 <= k < |pre| + |v| ensures cmd[k] != "--export" {
      if k < |pre| {
        assert cmd[k] == pre[k];
      } else {
        assert cmd[k] == v[k - |pre|];
      }
    }
    if exportTrades {
      assert cmd[|pre| + |v|] == "--export";
    }
  }

  // ---------------------------------------------------------------------------------
  // Memory.

  /** `[str(x) for x in raw] if isinstance(raw, list) else []`, with `str` a parameter. */
  function LoadList(raw: Option<Value>, show: Value -> string): (r: seq<string>)
    ensures raw.Some? && raw.value.Arr? ==>
      |r| == |raw.value.items| && forall k :: 0 <= k < |r| ==> r[k] == show(raw.value.items[k])
    ensures !(raw.Some? && raw.value.Arr?) ==> r == []
  {
    if raw.Some? && raw.value.Arr? then
      var items := raw.value.items;
      seq(|items|, k requires 0 <= k < |items| => show(items[k]))
    else []
  }

  /** A list of strings as the memory store keeps it. */
  function StrList(xs: seq<string>): (v: Value)
    ensures v.Arr? && |v.items| == |xs| && forall k :: 0 <= k < |xs| ==> v.items[k] == Str(xs[k])
  {
    Arr(seq(|xs|, k requires 0 <= k < |xs| => Str(xs[k])))
  }

  /** A list the loop stored comes back unchanged, since `str` of a string is the string. */
  lemma StoredListRoundTrip(xs: seq<string>, show: Value -> string)
    requires forall s :: show(Str(s)) == s
    ensures LoadList(Some(StrList(xs)), show) == xs
  {
  }

  /** One summary appended, then the oldest entry popped once if the window overflows. */
  function Window(memory: seq<string>, summary: string): seq<string> {
    var m := memory + [summary];
    if |m| > MemoryWindow then m[1..] else m
  }

  /**
   * The window keeps a list of at most five entries at most five long, always ends with
   * the new summary, and is a suffix of the old list followed by it.
   */
  lemma WindowBounded(memory: seq<string>, summary: string)
    ensures var w := Window(memory, summary);
      (|memory| <= MemoryWindow ==> |w| <= MemoryWindow)
      && |w| >= 1 && w[|w| - 1] == summary
      && w == (memory + [summary])[|memory| + 1 - |w|..]
      && |w| >= |memory|
  {
  }

  /** What the loop reads from `user_data/backtest_result.log`. */
  datatype LogFile = Missing | Unreadable(error: string) | Present(text: string)

  /** The stripped log text, or the message of the exception that reading it raised. */
  function ReadSummary(log: LogFile): string {
    match log
    case Missing => Unavailable(MissingLog)
    case Unreadable(e) => Unavailable(e)
    case Present(t) => Strip(t)
  }

  const MissingLog := "[Errno 2] No such file or directory: 'user_data/backtest_result.log'"

  /** The message standing in for a summary that could not be read. */
  function Unavailable(e: string): (r: string)
    ensures |r| > |e|
  {
    "(summary unavailable: " + e + ")"
  }

  /**
   * The summary is empty, and so leaves the memories alone, exactly when the log exists
   * and holds only whitespace; a missing or unreadable log always yields a message.
   */
  lemma ReadSummaryEmpty(log: LogFile)
    ensures ReadSummary(log) == [] <==> log.Present? && forall k :: 0 <= k < |log.text| ==> IsSpace(log.text[k])
  {
    if log.Present? {
      StripEmptyIff(log.text);
    }
  }

  /** The prompt: the memory-bearing instructions when short-term memory is non-empty, else the spec. */
  function Prompt(shortTerm: seq<string>, longTerm: seq<string>, spec: string): string {
    if shortTerm != [] then
      PromptHead
      + Join(shortTerm, "\n---\n")
      + "\n\nLong-term memory (all summaries so far):\n"
      + Join(longTerm, "\n---\n")
      + "\n"
    else spec
  }

  const PromptHead :=
      "You are improving a Freqtrade strategy in Python called SimpleAlwaysBuySell.\n"
      + "Only suggest SMALL numeric tweaks to either or both of:\n"
      + "- minimal_roi (dict like {\"0\": float})\n"
      + "- stoploss (negative float between -0.30 and -0.01).\n\n"
      + "Return STRICT JSON only with keys: minimal_roi_0 (float), stoploss (float).\n"
      + "Do not include text outside the JSON.\n\n"
      + "Short-term memory (last 5 summaries):\n"

  /** With memory, every short- and long-term entry is quoted in the prompt; without it, the spec is. */
  lemma PromptCarriesMemory(shortTerm: seq<string>, longTerm: seq<string>, spec: string)
    ensures shortTerm == [] ==> Prompt(shortTerm, longTerm, spec) == spec
    ensures shortTerm != [] ==> forall k :: 0 <= k < |shortTerm| ==> Contains(Prompt(shortTerm, longTerm, spec), shortTerm[k])
    ensures shortTerm != [] ==> forall k :: 0 <= k < |longTerm| ==> Contains(Prompt(shortTerm, longTerm, spec), longTerm[k])
  {
    if shortTerm != [] {
      var head := PromptHead;
      var mid := "\n\nLong-term memory (all summaries so far):\n";
      var s := Join(shortTerm, "\n---\n");
      var l := Join(longTerm, "\n---\n");
      var p := Prompt(shortTerm, longTerm, spec);
      assert p == head + s + mid + l + "\n";
      forall k | 0 <= k < |shortTerm| ensures Contains(p, shortTerm[k]) {
        JoinContains(shortTerm, "\n---\n", k);
        ContainsWithin(head, s, mid + l + "\n", shortTerm[k]);
        assert head + s + (mid + l + "\n") == p;
      }
      forall k | 0 <= k < |longTerm| ensures Contains(p, longTerm[k]) {
        JoinContains(longTerm, "\n---\n", k);
        ContainsWithin(head + s + mid, l, "\n", longTerm[k]);
      }
    }
  }

  /**
   * The outcome of `main`'s retry loop from attempt `k` on: the first attempt whose
   * suggestion `convert` accepts is kept; an exception from the suggester escapes at
   * once; after `MaxRetries` rejected attempts the fallback pair stays. The second
   * component is the number of suggester calls made.
   */
  function RetryOutcome(ask: nat -> Suggestion, convert: Params -> Option<Params>, k: nat): (r: (Suggestion, nat))
    decreases MaxRetries - k
    ensures k <= MaxRetries ==> k < r.1 || (k == MaxRetries && r.1 == k)
    ensures r.1 <= MaxRetries || r.1 == k
  {
    if k >= MaxRetries then (Suggested(Fallback(Original)), k)
    else if ask(k).Raised? then (Raised, k + 1)
    else match convert(ask(k).p)
      case Some(p) => (Suggested(p), k + 1)
      case None => RetryOutcome(ask, convert, k + 1)
  }

  /** `float(rec_raw.get(key, default))` on the suggester's result, which always holds both keys. */
  function Convert(p: Params): Option<Params> {
    var m0 := ToFloat(Num(p.roi));
    var sl := ToFloat(Num(p.sl));
    if m0.Some? && sl.Some? then Some(Params(m0.value, sl.value)) else None
  }

  /** The retry loop of `main`: up to three attempts, each kept once `convert` accepts it. */
  method RetryLoop(ask: nat -> Suggestion, convert: Params -> Option<Params>) returns (out: Suggestion, calls: nat)
    ensures (out, calls) == RetryOutcome(ask, convert, 0)
  {
    var rec := Fallback(Original);
    var attempt: nat := 0;
    while attempt < MaxRetries
      invariant attempt <= MaxRetries
      invariant RetryOutcome(ask, convert, 0) == RetryOutcome(ask, convert, attempt)
    {
      var raw := ask(attempt);
      if raw.Raised? {
        return Raised, attempt + 1;
      }
      var c := convert(raw.p);
      if c.Some? {
        return Suggested(c.value), attempt + 1;
      }
      attempt := attempt + 1;
    }
    out, calls := Suggested(rec), attempt;
  }

  /**
   * The suggester already returns floats, so the conversion never fails: the loop makes
   * exactly one call and keeps that call's outcome, and the retries are never used.
   */
  lemma RetryOnce(ask: nat -> Suggestion)
    ensures RetryOutcome(ask, Convert, 0) == (ask(0), 1)
  {
  }

  /** The same loop, with the original agent's suggester behind it. */
  method RetrySuggest(replies: nat -> Reply, decode: Decoder) returns (out: Suggestion, calls: nat)
    ensures calls == 1
    ensures out == Suggest(Original, replies(0), decode, false)
    ensures out.Suggested? ==> InRange(Original, out.p)
  {
    BoundsWellFormed();
    var ask := (k: nat) => Suggest(Original, replies(k), decode, false);
    out, calls := RetryLoop(ask, Convert);
    RetryOnce(ask);
  }

  // ---------------------------------------------------------------------------------
  // The loop.

  /** The window after each of `summaries` joined it in turn. */
  function Windowed(memory: seq<string>, summaries: seq<string>): seq<string>
    decreases |summaries|
  {
    if summaries == [] then memory
    else Window(Windowed(memory, summaries[..|summaries| - 1]), summaries[|summaries| - 1])
  }

  /**
   * From a loaded memory of at most five entries, the window is the last five of
   * everything remembered. (A longer loaded memory only loses one entry per summary.)
   */
  lemma {:induction false} WindowedIsLast(memory: seq<string>, summaries: seq<string>)
    requires |memory| <= MemoryWindow
    ensures Windowed(memory, summaries) == LastN(memory + summaries, MemoryWindow)
    decreases |summaries|
  {
    if summaries == [] {
      assert memory + summaries == memory;
    } else {
      var init := summaries[..|summaries| - 1];
      var x := summaries[|summaries| - 1];
      assert memory + summaries == (memory + init) + [x] by {
        assert summaries == init + [x];
      }
      WindowedIsLast(memory, init);
      var a := memory + init;
      var w := LastN(a, MemoryWindow);
      assert Windowed(memory, summaries) == Window(w, x);
      if |a| >= MemoryWindow {
        assert (w + [x])[1..] == (a + [x])[|a| + 1 - MemoryWindow..];
      }
    }
  }

  /** The summary log after iterations 1..k: each completed backtest writes a new one. */
  function LogAfter(log: LogFile, runs: nat -> Run, k: nat): LogFile
    decreases k
  {
    if k == 0 then log
    else if runs(k).Completed? then Present(SummaryText(runs(k).stdout))
    else LogAfter(log, runs, k - 1)
  }

  /** The non-empty summaries read at the start of iterations 1..k. */
  function Summaries(log: LogFile, runs: nat -> Run, k: nat): (r: seq<string>)
    ensures |r| <= k
    decreases k
  {
    if k == 0 then []
    else
      var s := ReadSummary(LogAfter(log, runs, k - 1));
      Summaries(log, runs, k - 1) + (if s == [] then [] else [s])
  }

  /** Every reply of iterations 1..k gives a pair. */
  predicate AllSuggested(replies: nat -> nat -> Reply, decode: Decoder, k: nat) {
    forall j :: 1 <= j <= k ==> Suggest(Original, replies(j)(0), decode, false).Suggested?
  }

  /** A reply with a pair extends the run of suggested iterations. */
  lemma AllSuggestedStep(replies: nat -> nat -> Reply, decode: Decoder, k: nat)
    requires k >= 1 && AllSuggested(replies, decode, k - 1) && Suggest(Original, replies(k)(0), decode, false).Suggested?
    ensures AllSuggested(replies, decode, k)
  {
    forall j | 1 <= j <= k
      ensures Suggest(Original, replies(j)(0), decode, false).Suggested?
    {
      if j < k {
      }
    }
  }

  /** The pair of iteration `j`. */
  function PairAt(replies: nat -> nat -> Reply, decode: Decoder, j: nat): Params
    requires Suggest(Original, replies(j)(0), decode, false).Suggested?
  {
    Suggest(Original, replies(j)(0), decode, false).p
  }

  /** The strategy text after iterations 1..k rewrote it. */
  function Rewrites(strategy: string, replies: nat -> nat -> Reply, decode: Decoder, k: nat): string
    requires AllSuggested(replies, decode, k)
    decreases k
  {
    if k == 0 then strategy else Mutate(Rewrites(strategy, replies, decode, k - 1), PairAt(replies, decode, k))
  }

  /** The store after both memories were saved (the second `put` lands last). */
  function Saved(stored: map<string, Value>, shortTerm: seq<string>, longTerm: seq<string>): map<string, Value> {
    stored["short_term_memory" := StrList(shortTerm)]["long_term_memory" := StrList(longTerm)]
  }

  /** The agent's files and memories at one moment. */
  datatype Snapshot = Snapshot(shortTerm: seq<string>, longTerm: seq<string>, strategy: string, log: LogFile,
                               stored: map<string, Value>)

  /** The start of an iteration: a non-empty summary of the log joins both memories and, with memory on, the store. */
  function Observed(s: Snapshot, memoryEnabled: bool): Snapshot {
    var summary := ReadSummary(s.log);
    if summary == [] then s
    else
      var st := Window(s.shortTerm, summary);
      var lt := s.longTerm + [summary];
      s.(shortTerm := st, longTerm := lt, stored := if memoryEnabled then Saved(s.stored, st, lt) else s.stored)
  }

  /** The rest of an iteration with a pair: the strategy takes it, and a completed backtest replaces the log. */
  function Rewritten(s: Snapshot, p: Params, run: Run): Snapshot {
    s.(strategy := Mutate(s.strategy, p), log := if run.Completed? then Present(SummaryText(run.stdout)) else s.log)
  }

  /**
   * The state after iterations 1..observed read the summary log and the first `rewrote`
   * of them also rewrote the strategy and backtested: every non-empty summary read has
   * joined both memories (and, with memory enabled, the store), each pair has rewritten
   * the strategy, and each completed backtest has replaced the log.
   */
  function After(s0: Snapshot, memoryEnabled: bool, replies: nat -> nat -> Reply, decode: Decoder, runs: nat -> Run,
                 observed: nat, rewrote: nat): Snapshot
    requires AllSuggested(replies, decode, rewrote) && rewrote <= observed
  {
    ReadAll(s0, memoryEnabled, Summaries(s0.log, runs, observed), Rewrites(s0.strategy, replies, decode, rewrote),
            LogAfter(s0.log, runs, rewrote))
  }

  /** Reading the log at the start of iteration k: the summary joins the memories, nothing else moves. */
  lemma AfterObserve(s0: Snapshot, memoryEnabled: bool, replies: nat -> nat -> Reply, decode: Decoder, runs: nat -> Run, k: nat)
    requires k >= 1 && AllSuggested(replies, decode, k - 1)
    ensures After(s0, memoryEnabled, replies, decode, runs, k, k - 1)
      == Observed(After(s0, memoryEnabled, replies, decode, runs, k - 1, k - 1), memoryEnabled)
  {
    var before := Summaries(s0.log, runs, k - 1);
    var log := LogAfter(s0.log, runs, k - 1);
    SummariesStep(s0.log, runs, k);
    ObservedAfter(s0, memoryEnabled, before, Rewrites(s0.strategy, replies, decode, k - 1), log);
  }

  /** The memories and store after the summaries `sums` were read from the start `s0`. */
  function ReadAll(s0: Snapshot, memoryEnabled: bool, sums: seq<string>, strategy: string, log: LogFile): Snapshot {
    var st := Windowed(s0.shortTerm, sums);
    var lt := s0.longTerm + sums;
    Snapshot(st, lt, strategy, log, if memoryEnabled && sums != [] then Saved(s0.stored, st, lt) else s0.stored)
  }

  /** Observing once more reads one more summary, when non-empty. */
  lemma ObservedAfter(s0: Snapshot, memoryEnabled: bool, before: seq<string>, strategy: string, log: LogFile)
    ensures var summary := ReadSummary(log);
      Observed(ReadAll(s0, memoryEnabled, before, strategy, log), memoryEnabled)
      == ReadAll(s0, memoryEnabled, before + (if summary == [] then [] else [summary]), strategy, log)
  {
    var summary := ReadSummary(log);
    WindowedStep(s0.shortTerm, before, summary);
    StoredObserve(s0.stored, memoryEnabled, s0.shortTerm, s0.longTerm, before, summary);
    if summary == [] {
      assert before + [] == before;
    } else {
      assert s0.longTerm + (before + [summary]) == s0.longTerm + before + [summary];
    }
  }

  /** The store after one more summary was read: saved again exactly when it was non-empty and memory is on. */
  lemma StoredObserve(stored: map<string, Value>, memoryEnabled: bool, shortTerm: seq<string>, longTerm: seq<string>,
                      before: seq<string>, summary: string)
    ensures var after := before + (if summary == [] then [] else [summary]);
      var prev := if memoryEnabled && before != [] then Saved(stored, Windowed(shortTerm, before), longTerm + before) else stored;
      (if memoryEnabled && after != [] then Saved(stored, Windowed(shortTerm, after), longTerm + after) else stored)
      == (if memoryEnabled && summary != [] then Saved(prev, Windowed(shortTerm, after), longTerm + after) else prev)
  {
    var after := before + (if summary == [] then [] else [summary]);
    if summary == [] {
      assert after == before;
    } else if memoryEnabled && before != [] {
      SavedTwice(stored, Windowed(shortTerm, before), longTerm + before, Windowed(shortTerm, after), longTerm + after);
    }
  }

  /** Saving again overwrites both keys of the earlier save. */
  lemma SavedTwice(stored: map<string, Value>, st: seq<string>, lt: seq<string>, st2: seq<string>, lt2: seq<string>)
    ensures Saved(Saved(stored, st, lt), st2, lt2) == Saved(stored, st2, lt2)
  {
  }

  /** Iteration k adds the summary it read, when non-empty. */
  lemma SummariesStep(log: LogFile, runs: nat -> Run, k: nat)
    requires k >= 1
    ensures var s := ReadSummary(LogAfter(log, runs, k - 1));
      Summaries(log, runs, k) == Summaries(log, runs, k - 1) + (if s == [] then [] else [s])
  {
  }

  /** One more non-empty summary moves the window once more. */
  lemma WindowedStep(memory: seq<string>, before: seq<string>, summary: string)
    ensures Windowed(memory, before + (if summary == [] then [] else [summary]))
      == if summary == [] then Windowed(memory, before) else Window(Windowed(memory, before), summary)
  {
    if summary == [] {
      assert before + [] == before;
    } else {
      assert (before + [summary])[..|before|] == before;
    }
  }

  /** Rewriting and backtesting in iteration k: the strategy takes the pair, a completed backtest replaces the log. */
  lemma AfterRewrite(s0: Snapshot, memoryEnabled: bool, replies: nat -> nat -> Reply, decode: Decoder, runs: nat -> Run, k: nat)
    requires k >= 1 && AllSuggested(replies, decode, k)
    ensures After(s0, memoryEnabled, replies, decode, runs, k, k)
      == Rewritten(After(s0, memoryEnabled, replies, decode, runs, k, k - 1), PairAt(replies, decode, k), runs(k))
  {
  }

  /**
   * Long-term memory keeps the loaded entries and adds at most one per iteration; from a
   * loaded window of at most five, short-term memory is the last five of the loaded window
   * followed by what long-term memory gained.
   */
  lemma MemoriesAfter(s0: Snapshot, memoryEnabled: bool, replies: nat -> nat -> Reply, decode: Decoder, runs: nat -> Run,
                      observed: nat, rewrote: nat)
    requires AllSuggested(replies, decode, rewrote) && rewrote <= observed
    ensures var a := After(s0, memoryEnabled, replies, decode, runs, observed, rewrote);
      |s0.longTerm| <= |a.longTerm| <= |s0.longTerm| + observed
      && a.longTerm[..|s0.longTerm|] == s0.longTerm
      && (|s0.shortTerm| <= MemoryWindow ==>
            |a.shortTerm| <= MemoryWindow && a.shortTerm == LastN(s0.shortTerm + a.longTerm[|s0.longTerm|..], MemoryWindow))
  {
    var a := After(s0, memoryEnabled, replies, decode, runs, observed, rewrote);
    var sums := Summaries(s0.log, runs, observed);
    assert a.longTerm[|s0.longTerm|..] == sums;
    if |s0.shortTerm| <= MemoryWindow {
      WindowedIsLast(s0.shortTerm, sums);
    }
  }

  /** The state `main` works on: its memories, the files it reads and writes, and the memory store. */
  class Agent {
    var shortTerm: seq<string>
    var longTerm: seq<string>
    var strategy: string
    var log: LogFile
    var stored: map<string, Value>
    const memoryEnabled: bool

    /**
     * Start-up: the strategy file is written with the baseline only when it is missing,
     * and the memories are loaded from the store when memory is enabled.
     */
    constructor(existing: Option<string>, log: LogFile, stored: map<string, Value>, memoryEnabled: bool, show: Value -> string)
      ensures this.strategy == (if existing.Some? then existing.value else Baseline)
      ensures this.log == log && this.stored == stored && this.memoryEnabled == memoryEnabled
      ensures memoryEnabled ==> this.shortTerm == LoadList(if "short_term_memory" in stored then Some(stored["short_term_memory"]) else None, show)
      ensures memoryEnabled ==> this.longTerm == LoadList(if "long_term_memory" in stored then Some(stored["long_term_memory"]) else None, show)
      ensures !memoryEnabled ==> this.shortTerm == [] && this.longTerm == []
    {
      strategy := if existing.Some? then existing.value else Baseline;
      this.log := log;
      this.stored := stored;
      this.memoryEnabled := memoryEnabled;
      if memoryEnabled {
        shortTerm := LoadList(if "short_term_memory" in stored then Some(stored["short_term_memory"]) else None, show);
        longTerm := LoadList(if "long_term_memory" in stored then Some(stored["long_term_memory"]) else None, show);
      } else {
        shortTerm := [];
        longTerm := [];
      }
    }

    /** A non-empty summary joins both memories (and the store, when enabled); an empty one changes nothing. */
    method Remember(summary: string)
      modifies this
      ensures summary == [] ==> shortTerm == old(shortTerm) && longTerm == old(longTerm) && stored == old(stored)
      ensures summary != [] ==> shortTerm == Window(old(shortTerm), summary) && longTerm == old(longTerm) + [summary]
      ensures summary != [] ==> stored == if memoryEnabled then Saved(old(stored), shortTerm, longTerm) else old(stored)
      ensures strategy == old(strategy) && log == old(log)
    {
      if summary != [] {
        shortTerm := shortTerm + [summary];
        longTerm := longTerm + [summary];
        if |shortTerm| > MemoryWindow {
          shortTerm := shortTerm[1..];
        }
        if memoryEnabled {
          stored := stored["short_term_memory" := StrList(shortTerm)];
          stored := stored["long_term_memory" := StrList(longTerm)];
        }
      }
    }

    /**
     * The start of an iteration: the last summary (or the read error) is remembered,
     * and the prompt is built from the updated memories.
     */
    method Observe(spec: string) returns (prompt: string)
      modifies this
      ensures var summary := ReadSummary(old(log));
        (summary == [] ==> shortTerm == old(shortTerm) && longTerm == old(longTerm))
        && (summary != [] ==> shortTerm == Window(old(shortTerm), summary) && longTerm == old(longTerm) + [summary])
        && stored == (if memoryEnabled && summary != [] then Saved(old(stored), shortTerm, longTerm) else old(stored))
      ensures strategy == old(strategy) && log == old(log)
      ensures prompt == Prompt(shortTerm, longTerm, spec)
    {
      var summary := ReadSummary(log);
      Remember(summary);
      prompt := Prompt(shortTerm, longTerm, spec);
    }

    /**
     * The rest of an iteration: suggestion, rewrite and backtest. Returns whether the
     * suggester raised (ending the run) and whether the backtest succeeded; a successful
     * backtest replaces the summary log.
     */
    method Propose(replies: nat -> Reply, decode: Decoder, run: Run,
                   bin: string, config: string, timeframe: string, timerange: string, verbosity: int, exportTrades: bool)
      returns (raised: bool, ok: bool)
      modifies this
      ensures shortTerm == old(shortTerm) && longTerm == old(longTerm) && stored == old(stored)
      ensures var s := Suggest(Original, replies(0), decode, false);
        raised == s.Raised?
        && (s.Raised? ==> strategy == old(strategy) && log == old(log) && !ok)
        && (s.Suggested? ==> strategy == Mutate(old(strategy), s.p))
      ensures !raised ==> ok == run.Completed?
      ensures !raised && run.Completed? ==> log == Present(SummaryText(run.stdout))
      ensures !raised && run.Failed? ==> log == old(log)
    {
      ok := false;
      var s, _ := RetrySuggest(replies, decode);
      if s.Raised? {
        raised := true;
        return;
      }
      raised := false;
      strategy := Mutate(strategy, s.p);
      ok := Backtest(run, bin, config, timeframe, timerange, verbosity, exportTrades);
    }

    /** `_backtest`: a completed run's summary replaces the log; a failed one leaves it. */
    method Backtest(run: Run, bin: string, config: string, timeframe: string, timerange: string,
                    verbosity: int, exportTrades: bool) returns (ok: bool)
      modifies this
      ensures ok == run.Completed?
      ensures run.Completed? ==> log == Present(SummaryText(run.stdout))
      ensures run.Failed? ==> log == old(log)
      ensures strategy == old(strategy) && shortTerm == old(shortTerm) && longTerm == old(longTerm) && stored == old(stored)
    {
      ok := false;
      var _ := BacktestCommand(bin, config, timeframe, timerange, verbosity, exportTrades);
      match run {
        case Failed =>
        case Completed(stdout) =>
          var lines := ExtractSummary(stdout);
          log := Present(Join(lines, "\n") + "\n");
          ok := true;
      }
    }

    function Snap(): Snapshot
      reads this
    {
      Snapshot(shortTerm, longTerm, strategy, log, stored)
    }

    /**
     * One whole iteration: remember the last summary, build the prompt, then suggest,
     * rewrite and backtest. The memories take the summary even when the suggester then
     * raises; the strategy and the log only change when it does not.
     */
    method Iterate(spec: string, replies: nat -> Reply, decode: Decoder, run: Run,
                   bin: string, config: string, timeframe: string, timerange: string, verbosity: int, exportTrades: bool)
      returns (raised: bool, prompt: string, ok: bool)
      modifies this
      ensures prompt == Prompt(Observed(old(Snap()), memoryEnabled).shortTerm, Observed(old(Snap()), memoryEnabled).longTerm, spec)
      ensures var s := Suggest(Original, replies(0), decode, false);
        (raised <==> s.Raised?)
        && (raised ==> Snap() == Observed(old(Snap()), memoryEnabled) && !ok)
        && (!raised ==> Snap() == Rewritten(Observed(old(Snap()), memoryEnabled), s.p, run) && ok == run.Completed?)
    {
      prompt := Observe(spec);
      raised, ok := Propose(replies, decode, run, bin, config, timeframe, timerange, verbosity, exportTrades);
    }

    /**
     * `main`'s loop over `maxLoops` iterations; iteration `i` (from 1) sees the replies
     * `replies(i)` and the backtest outcome `runs(i)`. A failed backtest does not stop it.
     * Returns how many iterations ran to the end.
     */
    method RunLoops(maxLoops: int, spec: string, replies: nat -> nat -> Reply, decode: Decoder, runs: nat -> Run,
                    bin: string, config: string, timeframe: string, timerange: string, verbosity: int, exportTrades: bool)
      returns (completed: nat)
      modifies this
      ensures maxLoops <= 0 ==> completed == 0
      ensures maxLoops > 0 ==> completed <= maxLoops
      ensures AllSuggested(replies, decode, completed)
      ensures completed < maxLoops ==> NoText(replies(completed + 1)(0))
      ensures Snap() == After(old(Snap()), memoryEnabled, replies, decode, runs,
                              if completed < maxLoops then completed + 1 else completed, completed)
      ensures |old(shortTerm)| <= MemoryWindow ==> |shortTerm| <= MemoryWindow
      ensures old(longTerm) <= longTerm
    {
      ghost var s0 := Snap();
      completed := 0;
      var stop := false;
      while completed < maxLoops && !stop
        invariant maxLoops > 0 ==> completed <= maxLoops
        invariant maxLoops <= 0 ==> completed == 0
        invariant AllSuggested(replies, decode, completed)
        invariant stop ==> completed < maxLoops && Suggest(Original, replies(completed + 1)(0), decode, false).Raised?
        invariant Snap() == After(s0, memoryEnabled, replies, decode, runs, if stop then completed + 1 else completed, completed)
        decreases maxLoops - completed, if stop then 0 else 1
      {
        var i := completed + 1;
        ghost var prev := Snap();
        var raised, _, _ := Iterate(spec, replies(i), decode, runs(i), bin, config, timeframe, timerange, verbosity, exportTrades);
        AfterObserve(s0, memoryEnabled, replies, decode, runs, i);
        ghost var seen := Observed(prev, memoryEnabled);
        assert seen == After(s0, memoryEnabled, replies, decode, runs, i, completed);
        if raised {
          assert Snap() == After(s0, memoryEnabled, replies, decode, runs, i, completed);
          stop := true;
        } else {
          AllSuggestedStep(replies, decode, i);
          AfterRewrite(s0, memoryEnabled, replies, decode, runs, i);
          assert Snap() == Rewritten(seen, PairAt(replies, decode, i), runs(i));
          assert Snap() == After(s0, memoryEnabled, replies, decode, runs, i, i);
          completed := i;
        }
      }
      assert completed < maxLoops ==> stop;
      assert (|s0.shortTerm| <= MemoryWindow ==> |shortTerm| <= MemoryWindow) && s0.longTerm <= longTerm by {
        MemoriesAfter(s0, memoryEnabled, replies, decode, runs, if stop then completed + 1 else completed, completed);
      }
    }
  }
}
