/**
 * The revised self-improvement loop (`self_loop_agent_fixed.py`): narrower guard rails,
 * a strategy file regenerated at every start, at most one `-v`, a ten-entry short-term
 * memory of one-line loop notes, a history record per loop, and a long-term memory that
 * only successful backtests extend.
 */
module SelfLoopFixed {
  import opened Wrappers
  import opened Text
  import opened Numeric
  import opened Json
  import opened SelfLoopCommon

  const ShortTermLimit: nat := 10
  const PromptEntries: nat := 3
  const StrategyName := "SimpleAlwaysBuySell"

  /** `_download_data`'s argument list: one `-v` at most. */
  method DownloadCommand(bin: string, config: string, timeframe: string, verbosity: int) returns (cmd: seq<string>)
    ensures cmd == [bin, "download-data", "-c", config, "-t", timeframe] + (if verbosity >= 1 then ["-v"] else [])
  {
    cmd := [bin, "download-data", "-c", config, "-t", timeframe];
    if verbosity >= 1 { cmd := cmd + ["-v"]; }
  }

  /** `_backtest`'s argument list: the fixed prefix, one `-v` at most, then `--export trades` when asked. */
  method BacktestCommand(bin: string, config: string, timeframe: string, timerange: string, verbosity: int, exportTrades: bool)
    returns (cmd: seq<string>)
    ensures |cmd| == 14 + (if verbosity >= 1 then 1 else 0) + (if exportTrades then 2 else 0)
    ensures cmd[..14] == BacktestPrefix(bin, config, StrategyName, timeframe, timerange)
    ensures verbosity >= 1 <==> |cmd| > 14 && cmd[14] == "-v"
    ensures exportTrades <==> cmd[|cmd| - 2..] == ["--export", "trades"]
  {
    cmd := BacktestPrefix(bin, config, StrategyName, timeframe, timerange);
    if verbosity >= 1 { cmd := cmd + ["-v"]; }
    if exportTrades { cmd := cmd + ["--export", "trades"]; }
  }

  /** Python's `str(b)` for a boolean. */
  function BoolText(b: bool): string {
    if b then "True" else "False"
  }

  /** The short-term note `Loop {i}: roi={m0:.3f}, stoploss={sl:.2f}, success={ok}`. */
  function LoopNote(i: nat, p: Params, ok: bool): string {
    LoopLabel + NatToString(i) + RoiLabel + FormatFixed(p.roi, 3) + StopLabel + FormatFixed(p.sl, 2)
    + SuccessLabel + BoolText(ok)
  }

  const LoopLabel := "Loop "
  const RoiLabel := ": roi="
  const StopLabel := ", stoploss="
  const SuccessLabel := ", success="
  const ConfigLabel := "Successful config: roi="

  /** The long-term note `Successful config: roi={m0:.3f}, stoploss={sl:.2f}`. */
  function SuccessNote(p: Params): string {
    ConfigLabel + FormatFixed(p.roi, 3) + StopLabel + FormatFixed(p.sl, 2)
  }

  /** The history record of one loop; `now` stands for `time.time()`. */
  function LoopRecord(i: nat, p: Params, ok: bool, now: real): Value {
    Obj(map[
      LoopKey := Num(i as real),
      ParametersKey := Obj(map[RoiKey := Num(p.roi), StopKey := Num(p.sl)]),
      SuccessKey := Bool(ok),
      TimestampKey := Num(now)])
  }

  const LoopKey := "loop"
  const ParametersKey := "parameters"
  const RoiKey := "minimal_roi_0"
  const StopKey := "stoploss"
  const SuccessKey := "backtest_success"
  const TimestampKey := "timestamp"

  /** The memory-store keys the loop reads and writes. */
  const ShortTermKey := "short_term_memory"
  const LongTermKey := "long_term_memory"
  const HistoryKey := "backtest_history"

  /** The ten-entry window: one note appended, then only the last ten kept. */
  function Window(memory: seq<Value>, note: Value): seq<Value> {
    LastN(memory + [note], ShortTermLimit)
  }

  /** The window is at most ten long, ends with the new note, and keeps the latest entries in order. */
  lemma WindowBounded(memory: seq<Value>, note: Value)
    ensures var w := Window(memory, note);
      |w| <= ShortTermLimit && |w| >= 1 && w[|w| - 1] == note
      && w == (memory + [note])[|memory| + 1 - |w|..]
      && (|memory| < ShortTermLimit ==> w == memory + [note])
  {
  }

  const PromptHead :=
      "You are improving a Freqtrade strategy called SimpleAlwaysBuySell.\n"
      + "Only suggest SMALL numeric tweaks to either or both of:\n"
      + "- minimal_roi (dict like {\"0\": float})\n"
      + "- stoploss (negative float between -0.30 and -0.01).\n\n"
      + "Return STRICT JSON only with keys: minimal_roi_0 (float), stoploss (float).\n"
      + "Short-term memory:\n"

  /** `str` applied to each entry. */
  function Shown(xs: seq<Value>, show: Value -> string): (r: seq<string>)
    ensures |r| == |xs| && forall k :: 0 <= k < |xs| ==> r[k] == show(xs[k])
  {
    seq(|xs|, k requires 0 <= k < |xs| => show(xs[k]))
  }

  /** The prompt: the last three short-term entries when there are any, else the spec. */
  function Prompt(shortTerm: seq<Value>, spec: string, show: Value -> string): string {
    if shortTerm != [] then PromptHead + Join(Shown(LastN(shortTerm, PromptEntries), show), "\n---\n")
    else spec
  }

  /** Each of the last three entries is quoted in the prompt; with no entries the prompt is the spec. */
  lemma PromptQuotesRecent(shortTerm: seq<Value>, spec: string, show: Value -> string)
    ensures shortTerm == [] ==> Prompt(shortTerm, spec, show) == spec
    ensures forall k :: |shortTerm| - PromptEntries <= k < |shortTerm| && 0 <= k ==>
      Contains(Prompt(shortTerm, spec, show), show(shortTerm[k]))
  {
    var recent := LastN(shortTerm, PromptEntries);
    var parts := Shown(recent, show);
    var off := |shortTerm| - |recent|;
    forall k | |shortTerm| - PromptEntries <= k < |shortTerm| && 0 <= k
      ensures Contains(Prompt(shortTerm, spec, show), show(shortTerm[k]))
    {
      assert parts[k - off] == show(shortTerm[k]);
      JoinContains(parts, "\n---\n", k - off);
      ContainsWithin(PromptHead, Join(parts, "\n---\n"), [], show(shortTerm[k]));
      assert PromptHead + Join(parts, "\n---\n") + [] == Prompt(shortTerm, spec, show);
    }
  }

  /** The window after each of `notes` joined it in turn. */
  function Windowed(memory: seq<Value>, notes: seq<Value>): seq<Value>
    decreases |notes|
  {
    if notes == [] then memory else Window(Windowed(memory, notes[..|notes| - 1]), notes[|notes| - 1])
  }

  /** Once a note has joined, the window is the last ten of everything remembered, whatever was loaded. */
  lemma {:induction false} WindowedIsLast(memory: seq<Value>, notes: seq<Value>)
    requires notes != []
    ensures Windowed(memory, notes) == LastN(memory + notes, ShortTermLimit)
    decreases |notes|
  {
    var init := notes[..|notes| - 1];
    var x := notes[|notes| - 1];
    assert memory + notes == (memory + init) + [x] by {
      assert notes == init + [x];
    }
    if init != [] {
      WindowedIsLast(memory, init);
      var a := memory + init;
      var w := LastN(a, ShortTermLimit);
      assert LastN(w + [x], ShortTermLimit) == LastN(a + [x], ShortTermLimit) by {
        assert w + [x] == (a + [x])[|a| - |w|..];
      }
    }
  }

  /** The store after a recorded loop: the window and history always, the long-term list when a loop succeeded. */
  function StoredWith(stored: map<string, Value>, shortTerm: seq<Value>, history: Value, longTerm: seq<Value>, withLong: bool)
    : map<string, Value>
  {
    var s := stored[ShortTermKey := Arr(shortTerm)][HistoryKey := history];
    if withLong then s[LongTermKey := Arr(longTerm)] else s
  }

  /** Every reply of iterations 1..k gives a pair. */
  predicate AllSuggested(replies: nat -> Reply, decode: Decoder, k: nat) {
    forall j :: 1 <= j <= k ==> Suggest(Fixed, replies(j), decode, false).Suggested?
  }

  /** The pair of iteration `j`. */
  function PairAt(replies: nat -> Reply, decode: Decoder, j: nat): Params
    requires Suggest(Fixed, replies(j), decode, false).Suggested?
  {
    Suggest(Fixed, replies(j), decode, false).p
  }

  /** The strategy text after iterations 1..k rewrote it. */
  function Rewrites(strategy: string, replies: nat -> Reply, decode: Decoder, k: nat): string
    requires AllSuggested(replies, decode, k)
    decreases k
  {
    if k == 0 then strategy else Mutate(Rewrites(strategy, replies, decode, k - 1), PairAt(replies, decode, k))
  }

  /** The summary file after iterations 1..k: the last completed backtest's summary, or the file at the start. */
  function LogAfter(log: Option<string>, runs: nat -> Run, k: nat): Option<string>
    decreases k
  {
    if k == 0 then log else if runs(k).Completed? then Some(SummaryText(runs(k).stdout)) else LogAfter(log, runs, k - 1)
  }

  /** The short-term notes of iterations 1..k. */
  function Notes(replies: nat -> Reply, decode: Decoder, runs: nat -> Run, k: nat): (r: seq<Value>)
    requires AllSuggested(replies, decode, k)
    ensures |r| == k
    decreases k
  {
    if k == 0 then []
    else Notes(replies, decode, runs, k - 1) + [Str(LoopNote(k, PairAt(replies, decode, k), runs(k).Completed?))]
  }

  /** The history records of iterations 1..k. */
  function Records(replies: nat -> Reply, decode: Decoder, runs: nat -> Run, clock: nat -> real, k: nat): (r: seq<Value>)
    requires AllSuggested(replies, decode, k)
    ensures |r| == k
    decreases k
  {
    if k == 0 then []
    else Records(replies, decode, runs, clock, k - 1) + [LoopRecord(k, PairAt(replies, decode, k), runs(k).Completed?, clock(k))]
  }

  /** The long-term notes of the iterations among 1..k whose backtest completed. */
  function Successes(replies: nat -> Reply, decode: Decoder, runs: nat -> Run, k: nat): seq<Value>
    requires AllSuggested(replies, decode, k)
    decreases k
  {
    if k == 0 then []
    else Successes(replies, decode, runs, k - 1) + (if runs(k).Completed? then [Str(SuccessNote(PairAt(replies, decode, k)))] else [])
  }

  /** A reply with a pair extends the run of suggested iterations. */
  lemma AllSuggestedStep(replies: nat -> Reply, decode: Decoder, k: nat)
    requires k >= 1 && AllSuggested(replies, decode, k - 1) && Suggest(Fixed, replies(k), decode, false).Suggested?
    ensures AllSuggested(replies, decode, k)
  {
    forall j | 1 <= j <= k
      ensures Suggest(Fixed, replies(j), decode, false).Suggested?
    {
      if j < k {
      }
    }
  }

  /** One more loop moves the window once more over its note. */
  lemma WindowedStep(memory: seq<Value>, replies: nat -> Reply, decode: Decoder, runs: nat -> Run, k: nat)
    requires k >= 1 && AllSuggested(replies, decode, k)
    ensures Windowed(memory, Notes(replies, decode, runs, k))
      == Window(Windowed(memory, Notes(replies, decode, runs, k - 1)),
                Str(LoopNote(k, PairAt(replies, decode, k), runs(k).Completed?)))
  {
    var ns := Notes(replies, decode, runs, k);
    assert ns[..k - 1] == Notes(replies, decode, runs, k - 1);
  }

  /** Recording again over a recorded store leaves the same keys as recording once; the long-term list only changes on a success. */
  lemma StoredStep(stored: map<string, Value>, prevShort: seq<Value>, prevHistory: Value, prevLong: seq<Value>, withLong: bool,
                   shortTerm: seq<Value>, history: Value, longTerm: seq<Value>, ok: bool)
    requires !ok ==> longTerm == prevLong
    ensures var prev := StoredWith(stored, prevShort, prevHistory, prevLong, withLong);
      StoredWith(prev, shortTerm, history, longTerm, ok) == StoredWith(stored, shortTerm, history, longTerm, withLong || ok)
  {
  }

  /** The agent's files and memories at one moment. */
  datatype Snapshot = Snapshot(strategy: string, log: Option<string>, shortTerm: seq<Value>, history: Value,
                               longTerm: seq<Value>, stored: map<string, Value>)

  /**
   * The state after iterations 1..rewrote rewrote the strategy and the first `completed`
   * of them also recorded: the strategy rewritten with each pair, the summary file of the
   * last completed backtest, the window over every loop note, a history record and (with
   * memory enabled) a long-term note for each success of the recorded loops, and the store
   * holding the recorded state.
   */
  function After(s0: Snapshot, memoryEnabled: bool, replies: nat -> Reply, decode: Decoder, runs: nat -> Run,
                 clock: nat -> real, rewrote: nat, completed: nat): Snapshot
    requires AllSuggested(replies, decode, rewrote) && completed <= rewrote
  {
    var st := Windowed(s0.shortTerm, Notes(replies, decode, runs, rewrote));
    var h := if s0.history.Arr? then Arr(s0.history.items + Records(replies, decode, runs, clock, completed)) else s0.history;
    var lt := s0.longTerm + (if memoryEnabled then Successes(replies, decode, runs, completed) else []);
    Snapshot(Rewrites(s0.strategy, replies, decode, rewrote), LogAfter(s0.log, runs, rewrote), st, h, lt,
             if !memoryEnabled || completed == 0 then s0.stored
             else StoredWith(s0.stored, st, h, lt, Successes(replies, decode, runs, completed) != []))
  }

  /** One more loop that records: each part of the state moves as one iteration moves it. */
  lemma AfterStep(s0: Snapshot, memoryEnabled: bool, replies: nat -> Reply, decode: Decoder, runs: nat -> Run,
                  clock: nat -> real, k: nat)
    requires k >= 1 && AllSuggested(replies, decode, k) && s0.history.Arr?
    ensures var prev := After(s0, memoryEnabled, replies, decode, runs, clock, k - 1, k - 1);
      var next := After(s0, memoryEnabled, replies, decode, runs, clock, k, k);
      var p := PairAt(replies, decode, k);
      var ok := runs(k).Completed?;
      next.strategy == Mutate(prev.strategy, p)
      && next.log == (if ok then Some(SummaryText(runs(k).stdout)) else prev.log)
      && next.shortTerm == Window(prev.shortTerm, Str(LoopNote(k, p, ok)))
      && prev.history.Arr?
      && next.history == Arr(prev.history.items + [LoopRecord(k, p, ok, clock(k))])
      && next.longTerm == (if memoryEnabled && ok then prev.longTerm + [Str(SuccessNote(p))] else prev.longTerm)
      && next.stored == (if memoryEnabled then StoredWith(prev.stored, next.shortTerm, next.history, next.longTerm, ok) else prev.stored)
  {
    WindowedStep(s0.shortTerm, replies, decode, runs, k);
    HistoryStep(s0.history.items, replies, decode, runs, clock, k);
    LongTermStep(s0.longTerm, memoryEnabled, replies, decode, runs, k);
    AfterStoredStep(s0, memoryEnabled, replies, decode, runs, clock, k);
  }

  /**
   * The part of iteration `i` before recording: the strategy takes the pair, a completed
   * backtest's summary replaces the log, and the window takes the loop's note.
   */
  function Moved(s: Snapshot, i: nat, p: Params, run: Run): Snapshot {
    s.(strategy := Mutate(s.strategy, p),
       log := if run.Completed? then Some(SummaryText(run.stdout)) else s.log,
       shortTerm := Window(s.shortTerm, Str(LoopNote(i, p, run.Completed?))))
  }

  /**
   * Recording iteration `i` into a list history: the record joins the history, a success
   * joins long-term memory when memory is enabled, and then the store takes them.
   */
  function Recorded(s: Snapshot, memoryEnabled: bool, i: nat, p: Params, ok: bool, now: real): Snapshot
    requires s.history.Arr?
  {
    var h := Arr(s.history.items + [LoopRecord(i, p, ok, now)]);
    var lt := if memoryEnabled && ok then s.longTerm + [Str(SuccessNote(p))] else s.longTerm;
    s.(history := h, longTerm := lt, stored := if memoryEnabled then StoredWith(s.stored, s.shortTerm, h, lt, ok) else s.stored)
  }

  /**
   * The first iteration's rewrite, backtest and window move, before anything is recorded:
   * the state an exception from a non-list history leaves.
   */
  lemma AfterMovedFirst(s0: Snapshot, memoryEnabled: bool, replies: nat -> Reply, decode: Decoder, runs: nat -> Run,
                        clock: nat -> real)
    requires AllSuggested(replies, decode, 1)
    ensures After(s0, memoryEnabled, replies, decode, runs, clock, 1, 0)
      == Moved(After(s0, memoryEnabled, replies, decode, runs, clock, 0, 0), 1, PairAt(replies, decode, 1), runs(1))
  {
    WindowedStep(s0.shortTerm, replies, decode, runs, 1);
  }

  /** A whole iteration k that records into a list history takes `After(k - 1, k - 1)` to `After(k, k)`. */
  lemma AfterRecorded(s0: Snapshot, memoryEnabled: bool, replies: nat -> Reply, decode: Decoder, runs: nat -> Run,
                      clock: nat -> real, k: nat)
    requires k >= 1 && AllSuggested(replies, decode, k) && s0.history.Arr?
    ensures After(s0, memoryEnabled, replies, decode, runs, clock, k - 1, k - 1).history.Arr?
    ensures After(s0, memoryEnabled, replies, decode, runs, clock, k, k)
      == Recorded(Moved(After(s0, memoryEnabled, replies, decode, runs, clock, k - 1, k - 1), k, PairAt(replies, decode, k), runs(k)),
                  memoryEnabled, k, PairAt(replies, decode, k), runs(k).Completed?, clock(k))
  {
    AfterStep(s0, memoryEnabled, replies, decode, runs, clock, k);
  }

  /** The history stays a list exactly when it started as one. */
  lemma AfterShape(s0: Snapshot, memoryEnabled: bool, replies: nat -> Reply, decode: Decoder, runs: nat -> Run,
                   clock: nat -> real, rewrote: nat, completed: nat)
    requires AllSuggested(replies, decode, rewrote) && completed <= rewrote
    ensures After(s0, memoryEnabled, replies, decode, runs, clock, rewrote, completed).history.Arr? <==> s0.history.Arr?
  {
  }

  /**
   * One pass of `main`'s loop that got the pair `p`, from the state after k whole passes:
   * the move alone gives `After(1, 0)` on the first pass (the state a non-list history
   * leaves), and with a list history the move and the record give `After(k + 1, k + 1)`.
   */
  lemma LoopStep(s0: Snapshot, memoryEnabled: bool, replies: nat -> Reply, decode: Decoder, runs: nat -> Run,
                 clock: nat -> real, k: nat, p: Params)
    requires AllSuggested(replies, decode, k) && Suggest(Fixed, replies(k + 1), decode, false) == Suggested(p)
    ensures AllSuggested(replies, decode, k + 1)
    ensures var prev := After(s0, memoryEnabled, replies, decode, runs, clock, k, k);
      (prev.history.Arr? <==> s0.history.Arr?)
      && (k == 0 ==> Moved(prev, 1, p, runs(1)) == After(s0, memoryEnabled, replies, decode, runs, clock, 1, 0))
      && (s0.history.Arr? ==> Recorded(Moved(prev, k + 1, p, runs(k + 1)), memoryEnabled, k + 1, p, runs(k + 1).Completed?, clock(k + 1))
                              == After(s0, memoryEnabled, replies, decode, runs, clock, k + 1, k + 1))
  {
    AllSuggestedStep(replies, decode, k + 1);
    assert PairAt(replies, decode, k + 1) == p;
    AfterShape(s0, memoryEnabled, replies, decode, runs, clock, k, k);
    if k == 0 {
      AfterMovedFirst(s0, memoryEnabled, replies, decode, runs, clock);
    }
    if s0.history.Arr? {
      AfterRecorded(s0, memoryEnabled, replies, decode, runs, clock, k + 1);
    }
  }

  /** One more recorded loop appends its record to the history list. */
  lemma HistoryStep(items: seq<Value>, replies: nat -> Reply, decode: Decoder, runs: nat -> Run, clock: nat -> real, k: nat)
    requires k >= 1 && AllSuggested(replies, decode, k)
    ensures items + Records(replies, decode, runs, clock, k)
      == (items + Records(replies, decode, runs, clock, k - 1)) + [LoopRecord(k, PairAt(replies, decode, k), runs(k).Completed?, clock(k))]
  {
    var rec := LoopRecord(k, PairAt(replies, decode, k), runs(k).Completed?, clock(k));
    assert Records(replies, decode, runs, clock, k) == Records(replies, decode, runs, clock, k - 1) + [rec];
  }

  /** One more recorded loop adds its success note to the long-term list, with memory enabled and a completed backtest. */
  lemma LongTermStep(longTerm: seq<Value>, memoryEnabled: bool, replies: nat -> Reply, decode: Decoder, runs: nat -> Run, k: nat)
    requires k >= 1 && AllSuggested(replies, decode, k)
    ensures var prev := longTerm + (if memoryEnabled then Successes(replies, decode, runs, k - 1) else []);
      longTerm + (if memoryEnabled then Successes(replies, decode, runs, k) else [])
      == (if memoryEnabled && runs(k).Completed? then prev + [Str(SuccessNote(PairAt(replies, decode, k)))] else prev)
  {
    var succ := Successes(replies, decode, runs, k - 1);
    if memoryEnabled && runs(k).Completed? {
      assert (longTerm + succ) + [Str(SuccessNote(PairAt(replies, decode, k)))]
        == longTerm + (succ + [Str(SuccessNote(PairAt(replies, decode, k)))]);
    }
  }

  /** One more recorded loop stores the new window, history and (on a success) long-term list over the previous store. */
  lemma AfterStoredStep(s0: Snapshot, memoryEnabled: bool, replies: nat -> Reply, decode: Decoder, runs: nat -> Run,
                        clock: nat -> real, k: nat)
    requires k >= 1 && AllSuggested(replies, decode, k)
    ensures var prev := After(s0, memoryEnabled, replies, decode, runs, clock, k - 1, k - 1);
      var next := After(s0, memoryEnabled, replies, decode, runs, clock, k, k);
      next.stored == (if memoryEnabled then StoredWith(prev.stored, next.shortTerm, next.history, next.longTerm, runs(k).Completed?) else prev.stored)
  {
    var prev := After(s0, memoryEnabled, replies, decode, runs, clock, k - 1, k - 1);
    var next := After(s0, memoryEnabled, replies, decode, runs, clock, k, k);
    if memoryEnabled {
      var succ := Successes(replies, decode, runs, k - 1);
      assert Successes(replies, decode, runs, k) != [] <==> succ != [] || runs(k).Completed?;
      if k > 1 {
        StoredStep(s0.stored, prev.shortTerm, prev.history, prev.longTerm, succ != [], next.shortTerm, next.history, next.longTerm, runs(k).Completed?);
      }
    }
  }

  /** The state `main` works on: its memories and history, the strategy and summary files, and the store. */
  class Agent {
    var shortTerm: seq<Value>
    var longTerm: seq<Value>
    var history: Value
    var strategy: string
    var log: Option<string>
    var stored: map<string, Value>
    const memoryEnabled: bool

    function Snap(): Snapshot
      reads this
    {
      Snapshot(strategy, log, shortTerm, history, longTerm, stored)
    }

    /**
     * Start-up: the strategy file is overwritten with the baseline whether or not it
     * existed; with memory enabled, lists stored under the two memory keys are taken as
     * they are and the history is the stored value when truthy, else `[]`.
     */
    constructor(baseline: string, log: Option<string>, stored: map<string, Value>, memoryEnabled: bool)
      ensures strategy == baseline
      ensures this.log == log && this.stored == stored && this.memoryEnabled == memoryEnabled
      ensures memoryEnabled ==> shortTerm == ListAt(stored, ShortTermKey) && longTerm == ListAt(stored, LongTermKey)
      ensures memoryEnabled ==> history == Or(if HistoryKey in stored then stored[HistoryKey] else Null, Arr([]))
      ensures !memoryEnabled ==> shortTerm == [] && longTerm == [] && history == Arr([])
    {
      strategy := baseline;
      this.log := log;
      this.stored := stored;
      this.memoryEnabled := memoryEnabled;
      if memoryEnabled {
        shortTerm := ListAt(stored, ShortTermKey);
        longTerm := ListAt(stored, LongTermKey);
        history := Or(if HistoryKey in stored then stored[HistoryKey] else Null, Arr([]));
      } else {
        shortTerm := [];
        longTerm := [];
        history := Arr([]);
      }
    }

    /**
     * The bookkeeping after a backtest: `note` joins the short-term window, `entry` joins
     * the history (appending to a stored history that is not a list raises), the store is
     * updated when memory is enabled, and only a successful loop with memory enabled adds
     * `success` to long-term memory.
     */
    method Record(note: Value, entry: Value, success: Value, ok: bool) returns (raised: bool)
      modifies this
      ensures shortTerm == Window(old(shortTerm), note) && |shortTerm| <= ShortTermLimit
      ensures raised <==> !old(history).Arr?
      ensures !raised ==> history == Arr(old(history).items + [entry])
      ensures !raised ==> longTerm == if memoryEnabled && ok then old(longTerm) + [success] else old(longTerm)
      ensures !raised ==> stored == if !memoryEnabled then old(stored)
        else if ok then old(stored)[ShortTermKey := Arr(shortTerm)][HistoryKey := history][LongTermKey := Arr(longTerm)]
        else old(stored)[ShortTermKey := Arr(shortTerm)][HistoryKey := history]
      ensures raised ==> history == old(history) && longTerm == old(longTerm) && stored == old(stored)
      ensures strategy == old(strategy) && log == old(log)
    {
      WindowBounded(shortTerm, note);
      shortTerm := shortTerm + [note];
      if |shortTerm| > ShortTermLimit {
        shortTerm := shortTerm[|shortTerm| - ShortTermLimit..];
      }
      if !history.Arr? {
        return true;
      }
      history := Arr(history.items + [entry]);
      if memoryEnabled {
        stored := stored[ShortTermKey := Arr(shortTerm)];
        stored := stored[HistoryKey := history];
        if ok {
          longTerm := longTerm + [success];
          stored := stored[LongTermKey := Arr(longTerm)];
        }
      }
      return false;
    }

    /**
     * The first half of an iteration: ask for a pair, rewrite the strategy with it and
     * backtest; a completed backtest replaces the summary file. The memories, history and
     * store are left alone.
     */
    method Propose(reply: Reply, decode: Decoder, run: Run,
                   bin: string, config: string, timeframe: string, timerange: string, verbosity: int, exportTrades: bool)
      returns (s: Suggestion, ok: bool)
      modifies this
      ensures s == Suggest(Fixed, reply, decode, false)
      ensures s.Raised? ==> strategy == old(strategy) && log == old(log) && !ok
      ensures s.Suggested? ==> strategy == Mutate(old(strategy), s.p) && ok == run.Completed?
      ensures s.Suggested? && run.Completed? ==> log == Some(SummaryText(run.stdout))
      ensures s.Suggested? && run.Failed? ==> log == old(log)
      ensures shortTerm == old(shortTerm) && longTerm == old(longTerm) && history == old(history) && stored == old(stored)
    {
      ok := false;
      s := Suggest(Fixed, reply, decode, false);
      if s.Raised? {
        return;
      }
      strategy := Mutate(strategy, s.p);
      ok := Backtest(run, bin, config, timeframe, timerange, verbosity, exportTrades);
    }

    /** `_backtest`: a completed run's summary replaces the log; a failed one leaves it. */
    method Backtest(run: Run, bin: string, config: string, timeframe: string, timerange: string,
                    verbosity: int, exportTrades: bool) returns (ok: bool)
      modifies this
      ensures ok == run.Completed?
      ensures run.Completed? ==> log == Some(SummaryText(run.stdout))
      ensures run.Failed? ==> log == old(log)
      ensures strategy == old(strategy) && shortTerm == old(shortTerm) && longTerm == old(longTerm)
      ensures history == old(history) && stored == old(stored)
    {
      ok := false;
      var _ := BacktestCommand(bin, config, timeframe, timerange, verbosity, exportTrades);
      match run {
        case Failed =>
        case Completed(stdout) =>
          var lines := ExtractSummary(stdout);
          log := Some(Join(lines, "\n") + "\n");
          ok := true;
      }
    }

    /**
     * One iteration of `main`'s loop: ask for a pair, rewrite the strategy, backtest it
     * and record the outcome. An exception from the suggester (a reply without message
     * content) or from appending to a non-list history ends the run.
     */
    method Iterate(i: nat, reply: Reply, decode: Decoder, run: Run, now: real,
                   bin: string, config: string, timeframe: string, timerange: string, verbosity: int, exportTrades: bool)
      returns (s: Suggestion, raised: bool, ok: bool)
      modifies this
      ensures s == Suggest(Fixed, reply, decode, false) && (s.Raised? <==> NoText(reply))
      ensures s.Raised? ==> raised && !ok && Snap() == old(Snap())
      ensures s.Suggested? ==> ok == run.Completed? && (raised <==> !old(history).Arr?)
      ensures s.Suggested? && raised ==> Snap() == Moved(old(Snap()), i, s.p, run)
      ensures s.Suggested? && !raised ==> Snap() == Recorded(Moved(old(Snap()), i, s.p, run), memoryEnabled, i, s.p, ok, now)
    {
      s, ok := Propose(reply, decode, run, bin, config, timeframe, timerange, verbosity, exportTrades);
      if s.Raised? {
        return s, true, ok;
      }
      raised := Record(Str(LoopNote(i, s.p, ok)), LoopRecord(i, s.p, ok, now), Str(SuccessNote(s.p)), ok);
    }

    /**
     * `main`'s loop over `maxLoops` iterations; iteration `i` (from 1) sees reply
     * `replies(i)`, backtest outcome `runs(i)` and clock reading `clock(i)`. The loop
     * stops at the first reply without content, and at the first record when the stored
     * history is not a list (that iteration has already rewritten the strategy, run the
     * backtest and moved the window). `rewrote` counts the iterations that rewrote the
     * strategy, `completed` those that also recorded.
     */
    method RunLoops(maxLoops: int, replies: nat -> Reply, decode: Decoder, runs: nat -> Run, clock: nat -> real,
                    bin: string, config: string, timeframe: string, timerange: string, verbosity: int, exportTrades: bool)
      returns (completed: nat, rewrote: nat)
      modifies this
      ensures maxLoops <= 0 ==> completed == 0 && rewrote == 0
      ensures maxLoops > 0 ==> rewrote <= maxLoops
      ensures rewrote == completed || (rewrote == 1 && completed == 0 && !old(history).Arr?)
      ensures !old(history).Arr? ==> completed == 0
      ensures AllSuggested(replies, decode, rewrote)
      ensures rewrote < maxLoops && rewrote == completed ==> NoText(replies(rewrote + 1))
      ensures completed <= rewrote && Snap() == After(old(Snap()), memoryEnabled, replies, decode, runs, clock, rewrote, completed)
    {
      ghost var s0 := Snap();
      completed := 0;
      rewrote := 0;
      while rewrote < maxLoops
        invariant maxLoops <= 0 ==> rewrote == 0
        invariant maxLoops > 0 ==> rewrote <= maxLoops
        invariant rewrote == completed
        invariant !s0.history.Arr? ==> completed == 0
        invariant AllSuggested(replies, decode, rewrote)
        invariant Snap() == After(s0, memoryEnabled, replies, decode, runs, clock, rewrote, completed)
        decreases maxLoops - rewrote
      {
        var i := rewrote + 1;
        var s, raised, ok := Iterate(i, replies(i), decode, runs(i), clock(i), bin, config, timeframe, timerange, verbosity, exportTrades);
        if s.Raised? {
          assert NoText(replies(rewrote + 1)) && Snap() == After(s0, memoryEnabled, replies, decode, runs, clock, rewrote, completed);
          break;
        }
        LoopStep(s0, memoryEnabled, replies, decode, runs, clock, rewrote, s.p);
        if raised {
          assert Snap() == After(s0, memoryEnabled, replies, decode, runs, clock, i, completed);
          rewrote := i;
          break;
        }
        assert Snap() == After(s0, memoryEnabled, replies, decode, runs, clock, i, i);
        rewrote := i;
        completed := i;
      }
    }
  }

  /** The stored list under `key`, or `[]` when it is absent or not a list. */
  function ListAt(stored: map<string, Value>, key: string): (r: seq<Value>)
    ensures key in stored && stored[key].Arr? ==> r == stored[key].items
    ensures !(key in stored && stored[key].Arr?) ==> r == []
  {
    if key in stored && stored[key].Arr? then stored[key].items else []
  }

  /** Every pair this agent writes lies inside its narrower ranges, and every failure gives (0.015, -0.08). */
  lemma FixedSuggestions(reply: Reply, decode: Decoder)
    ensures var s := Suggest(Fixed, reply, decode, false);
      (s.Suggested? ==> 0.005 <= s.p.roi <= 0.050 && -0.20 <= s.p.sl <= -0.03)
      && (reply.RequestError? ==> s == Suggested(Params(0.015, -0.08)))
      && (s.Raised? <==> NoText(reply))
  {
    BoundsWellFormed();
  }
}
