/**
 * The agents variant of the self-improvement loop: it remembers only the best
 * parameters found so far (in a small JSON memory file), asks for a tweak with a prompt
 * that quotes them, rewrites the strategy, runs a backtest that exports the loop's trades
 * to its own CSV file, aggregates that file, appends one row to the learning log and
 * replaces the remembered best only on a strict improvement.
 *
 * The HTTP call, the backtester and the clock are inputs: the chat reply, the exported
 * trades file of each loop and the timestamp are parameters. `json.loads` is left as the
 * decoded `MemFile` the loader sees; the float `repr` used in the prompt is a parameter.
 */
module AgentsLoop {
  import opened Wrappers
  import opened Text
  import opened Numeric
  import opened Json
  import opened SelfLoopCommon

  const StrategyName := "SimpleAlwaysBuySell"
  const StrategyDir := "strategies"
  const ResultsDir := "user_data/backtest_results"

  /** The prompt sent when there is no remembered best. */
  const BasePrompt :=
    "You are improving a trivial Freqtrade strategy in Python called SimpleAlwaysBuySell.\n"
    + "Only suggest SMALL numeric tweaks to either or both of:\n"
    + "- minimal_roi (dict like {\"0\": float})\n"
    + "- stoploss (negative float between -0.30 and -0.01).\n\n"
    + "Return STRICT JSON only with keys: minimal_roi_0 (float), stoploss (float).\n"
    + "Do not include text outside the JSON.\n"

  /** Keys of the memory file. */
  const BestRoiKey := "best_min_roi_0"
  const BestStopKey := "best_stoploss"
  const BestProfitKey := "best_profit_total"
  const BestTsKey := "best_updated_ts"

  /** Columns of the exported trades CSV that are aggregated. */
  const RatioKey := "profit_ratio"
  const AbsKey := "profit_abs"

  // ---------------------------------------------------------------------------
  // The memory file
  // ---------------------------------------------------------------------------

  /** The memory file as `load_memory` finds it: absent, not valid JSON, or a decoded document. */
  datatype MemFile = Missing | Undecodable | Decoded(v: Value)

  /** The entries of a decoded dict whose values `float` accepts, converted. */
  function NumericEntries(data: map<string, Value>): (r: map<string, real>)
    ensures forall k :: k in r <==> k in data && ToFloat(data[k]).Some?
    ensures forall k :: k in r ==> r[k] == ToFloat(data[k]).value
  {
    map k | k in data && ToFloat(data[k]).Some? :: ToFloat(data[k]).value
  }

  /**
   * What `load_memory` returns: `{}` for a missing or undecodable file, the numeric
   * entries of a dict, and `None` for a decoded document that is not a dict (calling
   * `.items()` on it raises, and nothing catches that).
   */
  function Loaded(f: MemFile): Option<map<string, real>> {
    match f
    case Missing => Some(map[])
    case Undecodable => Some(map[])
    case Decoded(v) => if v.Obj? then Some(NumericEntries(v.fields)) else None
  }

  /** `load_memory`: the loop over the decoded dict keeps the values `float` accepts. */
  method LoadMemory(f: MemFile) returns (r: Option<map<string, real>>)
    ensures r == Loaded(f)
  {
    match f
    case Missing => return Some(map[]);
    case Undecodable => return Some(map[]);
    case Decoded(v) =>
      if !v.Obj? {
        return None;
      }
      var data := v.fields;
      var out: map<string, real> := map[];
      var todo := data.Keys;
      while todo != {}
        invariant todo <= data.Keys
        invariant forall k :: k in out <==> k in data && k !in todo && ToFloat(data[k]).Some?
        invariant forall k :: k in out ==> out[k] == ToFloat(data[k]).value
        decreases |todo|
      {
        var k :| k in todo;
        var x := ToFloat(data[k]);
        if x.Some? {
          out := out[k := x.value];
        }
        todo := todo - {k};
      }
      assert out == NumericEntries(data);
      return Some(out);
  }

  /** `save_memory`: the dict written back as JSON numbers. */
  function Saved(mem: map<string, real>): (f: MemFile)
    ensures f.Decoded? && f.v.Obj? && f.v.fields.Keys == mem.Keys
  {
    Decoded(Obj(map k | k in mem :: Num(mem[k])))
  }

  /** What `save_memory` writes, `load_memory` reads back unchanged. */
  lemma LoadSaved(mem: map<string, real>)
    ensures Loaded(Saved(mem)) == Some(mem)
  {
    var data := Saved(mem).v.fields;
    assert forall k :: k in data ==> ToFloat(data[k]) == Some(mem[k]);
    assert NumericEntries(data) == mem;
  }

  // ---------------------------------------------------------------------------
  // Prompt and tweak
  // ---------------------------------------------------------------------------

  /** `mem.get(key)` as the f-string prints it: the float's `repr`, or `None`. */
  function Field(mem: map<string, real>, key: string, repr: real -> string): string {
    if key in mem then repr(mem[key]) else "None"
  }

  const BestLabel := "\nPrevious best minimal_roi_0="
  const StopLabel := ", stoploss="
  const ProfitLabel := ", profit_total="
  const NudgeText := ".\nMake a small change from this baseline."

  /** `prompt_with_memory` on the loaded memory. */
  function PromptWithMemory(mem: map<string, real>, repr: real -> string): string {
    if mem == map[] then BasePrompt else BasePrompt + MemoryNote(mem, repr)
  }

  /** The remembered best parameters and profit, appended to the base prompt. */
  function MemoryNote(mem: map<string, real>, repr: real -> string): string {
    BestLabel + Field(mem, BestRoiKey, repr) + StopLabel + Field(mem, BestStopKey, repr)
    + ProfitLabel + Field(mem, BestProfitKey, repr) + NudgeText
  }

  /**
   * The prompt is the base prompt exactly when the memory is empty; otherwise it extends
   * the base prompt and quotes the remembered best profit.
   */
  lemma PromptWithMemoryShape(mem: map<string, real>, repr: real -> string)
    ensures PromptWithMemory(mem, repr) == BasePrompt <==> mem == map[]
    ensures StartsWith(PromptWithMemory(mem, repr), BasePrompt)
    ensures mem != map[] && BestProfitKey in mem ==> Contains(PromptWithMemory(mem, repr), repr(mem[BestProfitKey]))
  {
    if mem != map[] {
      var note := MemoryNote(mem, repr);
      assert |note| > 0;
      StartsWithConcat(BasePrompt, note);
      if BestProfitKey in mem {
        var x := Field(mem, BestProfitKey, repr);
        var head := BestLabel + Field(mem, BestRoiKey, repr) + StopLabel + Field(mem, BestStopKey, repr) + ProfitLabel;
        assert note == head + x + NudgeText;
        ContainsItself(x);
        ContainsWithin(head, x, NudgeText, x);
        ContainsWithin(BasePrompt, note, [], x);
        assert BasePrompt + note + [] == BasePrompt + note;
      }
    } else {
      StartsWithConcat(BasePrompt, []);
      assert BasePrompt + [] == BasePrompt;
    }
  }

  /**
   * `llm_tweak` after the HTTP call: every caught failure, including a reply of the wrong
   * shape, gives the fallback pair, and a returned pair is always clamped; content that
   * is not a string passes the `try` and makes `re.search` raise `TypeError`.
   */
  function LlmTweak(reply: Reply, decode: Decoder): (s: Suggestion)
    ensures s.Raised? <==> reply.NotText?
    ensures s.Suggested? ==> InRange(Original, s.p)
  {
    BoundsWellFormed();
    Suggest(Original, reply, decode, true)
  }

  /** A request error, a reply without message content and a failed extraction all give (0.012, -0.11). */
  lemma LlmTweakFailures(reply: Reply, decode: Decoder)
    requires reply.RequestError? || reply.Unexpected? || (reply.Content? && FailedContent(Original, reply.text, decode))
    ensures LlmTweak(reply, decode) == Suggested(Params(0.012, -0.11))
  {
    if !reply.Unexpected? {
      SuggestFailures(Original, reply, decode, true);
    }
  }

  // ---------------------------------------------------------------------------
  // Backtest and trade aggregation
  // ---------------------------------------------------------------------------

  /** The CSV the backtest of loop `loopId` exports its trades to. */
  function ExportPath(loopId: nat): string {
    ResultsDir + "/trades_loop_" + NatToString(loopId) + ".csv"
  }

  /** Each loop has its own export file: different loops never share one. */
  lemma ExportPathInjective(a: nat, b: nat)
    requires ExportPath(a) == ExportPath(b)
    ensures a == b
  {
    var pre := ResultsDir + "/trades_loop_";
    var sa := NatToString(a);
    var sb := NatToString(b);
    assert ExportPath(a) == pre + sa + ".csv";
    assert ExportPath(b) == pre + sb + ".csv";
    assert |sa| == |sb|;
    assert sa == ExportPath(a)[|pre|..|pre| + |sa|];
    assert sb == ExportPath(b)[|pre|..|pre| + |sb|];
    NatToStringValue(a);
    NatToStringValue(b);
  }

  /**
   * `backtest`'s command line: the loop's strategy from the local strategy folder, trades
   * always exported, to the loop's own file, with the cache disabled.
   */
  function BacktestCommand(bin: string, config: string, timeframe: string, timerange: string, loopId: nat): (cmd: seq<string>)
    ensures |cmd| == 18 && cmd[0] == bin && cmd[1] == "backtesting"
    ensures cmd[12..16] == ["--export", "trades", "--export-filename", ExportPath(loopId)]
  {
    [bin, "backtesting", "-c", config, "--strategy", StrategyName, "--strategy-path", StrategyDir,
     "--timeframe", timeframe, "--timerange", timerange, "--export", "trades",
     "--export-filename", ExportPath(loopId), "--cache", "none"]
  }

  /** The exported trades: no file, or the rows `csv.DictReader` yields. */
  datatype TradesFile = NoFile | Rows(rows: seq<map<string, Value>>)

  /**
   * The `(profit_ratio, profit_abs)` a row contributes: both converted by `float`, a
   * missing column counting as 0.0; if either conversion fails the row contributes (0, 0).
   */
  function RowProfits(row: map<string, Value>): (real, real) {
    var pr := ToFloat(GetOr(row, RatioKey, Num(0.0)));
    var pa := ToFloat(GetOr(row, AbsKey, Num(0.0)));
    if pr.Some? && pa.Some? then (pr.value, pa.value) else (0.0, 0.0)
  }

  /** The number of winning rows (positive profit ratio). */
  function Wins(rows: seq<map<string, Value>>): (n: nat)
    ensures n <= |rows|
  {
    if rows == [] then 0 else Wins(rows[..|rows| - 1]) + (if RowProfits(rows[|rows| - 1]).0 > 0.0 then 1 else 0)
  }

  function RatioSum(rows: seq<map<string, Value>>): real {
    if rows == [] then 0.0 else RatioSum(rows[..|rows| - 1]) + RowProfits(rows[|rows| - 1]).0
  }

  function AbsSum(rows: seq<map<string, Value>>): real {
    if rows == [] then 0.0 else AbsSum(rows[..|rows| - 1]) + RowProfits(rows[|rows| - 1]).1
  }

  datatype Metrics = Metrics(trades: real, profitAbsSum: real, profitRatioSum: real, winRate: real)

  /** The aggregate `summarize_trades` computes, as a function of the file. */
  function Summary(f: TradesFile): Metrics {
    match f
    case NoFile => Metrics(0.0, 0.0, 0.0, 0.0)
    case Rows(rows) =>
      Metrics(|rows| as real, AbsSum(rows), RatioSum(rows),
              if |rows| > 0 then (Wins(rows) as real / |rows| as real) * 100.0 else 0.0)
  }

  /** `summarize_trades`: one pass over the rows, counting and summing. */
  method SummarizeTrades(f: TradesFile) returns (m: Metrics)
    ensures m == Summary(f)
  {
    if f.NoFile? {
      return Metrics(0.0, 0.0, 0.0, 0.0);
    }
    var rows := f.rows;
    var wins: nat := 0;
    var total: nat := 0;
    var profitAbsSum := 0.0;
    var profitRatioSum := 0.0;
    while total < |rows|
      invariant total <= |rows|
      invariant wins == Wins(rows[..total])
      invariant profitAbsSum == AbsSum(rows[..total])
      invariant profitRatioSum == RatioSum(rows[..total])
    {
      var row := rows[total];
      assert rows[..total + 1][..total] == rows[..total];
      var pr, pa := RowProfits(row).0, RowProfits(row).1;
      profitRatioSum := profitRatioSum + pr;
      profitAbsSum := profitAbsSum + pa;
      if pr > 0.0 {
        wins := wins + 1;
      }
      total := total + 1;
    }
    assert rows[..total] == rows;
    var winRate := if total > 0 then (wins as real / total as real) * 100.0 else 0.0;
    return Metrics(total as real, profitAbsSum, profitRatioSum, winRate);
  }

  /**
   * The trade count is the row count, the win rate lies in [0, 100] and is 0 without
   * rows, and a missing file gives all zeros.
   */
  lemma SummaryBounds(f: TradesFile)
    ensures var m := Summary(f);
      0.0 <= m.winRate <= 100.0 && 0.0 <= m.trades
      && (f.Rows? ==> m.trades == |f.rows| as real && (f.rows == [] ==> m.winRate == 0.0))
      && (f.NoFile? ==> m == Metrics(0.0, 0.0, 0.0, 0.0))
  {
    if f.Rows? && |f.rows| > 0 {
      RateBounds(Wins(f.rows), |f.rows|);
    }
  }

  /** A percentage of `w` out of `n` lies in [0, 100]. */
  lemma RateBounds(w: nat, n: nat)
    requires 0 < n && w <= n
    ensures 0.0 <= (w as real / n as real) * 100.0 <= 100.0
  {
    assert w as real / n as real <= 1.0;
  }

  /** A row whose profit columns do not convert counts as a trade, adds nothing to the sums and is never a win. */
  lemma UnparsedRow(rows: seq<map<string, Value>>, row: map<string, Value>)
    requires ToFloat(GetOr(row, RatioKey, Num(0.0))).None? || ToFloat(GetOr(row, AbsKey, Num(0.0))).None?
    ensures Wins(rows + [row]) == Wins(rows)
    ensures AbsSum(rows + [row]) == AbsSum(rows) && RatioSum(rows + [row]) == RatioSum(rows)
  {
    assert (rows + [row])[..|rows|] == rows;
  }

  /** Wins counts exactly the rows with a positive profit ratio. */
  lemma {:induction false} WinsCount(rows: seq<map<string, Value>>)
    ensures Wins(rows) == |WinSet(rows)|
  {
    if rows != [] {
      WinsCount(rows[..|rows| - 1]);
      WinSetStep(rows);
    }
  }

  /** The positions of the winning rows. */
  function WinSet(rows: seq<map<string, Value>>): set<int> {
    set k | 0 <= k < |rows| && RowProfits(rows[k]).0 > 0.0
  }

  /** The winning positions of all rows are those of all but the last, and the last if it wins. */
  lemma WinSetStep(rows: seq<map<string, Value>>)
    requires rows != []
    ensures var last := |rows| - 1;
      last !in WinSet(rows[..last])
      && WinSet(rows) == WinSet(rows[..last]) + (if RowProfits(rows[last]).0 > 0.0 then {last} else {})
  {
    var last := |rows| - 1;
    var init := rows[..last];
    forall k | 0 <= k < |init| ensures init[k] == rows[k] {}
    var a := WinSet(init);
    var b := WinSet(rows);
    forall k ensures k in b <==> k in a + (if RowProfits(rows[last]).0 > 0.0 then {last} else {}) {}
  }

  // ---------------------------------------------------------------------------
  // The learning log
  // ---------------------------------------------------------------------------

  /** A row of the learning log: the header, or one loop's eight fields. */
  datatype LogRow =
    | Header
    | Entry(loop: int, roi: real, sl: real, trades: int, profitAbsSum: real, profitRatioSum: real, winRate: real, ts: int)

  /** The eight fields `append_log` writes, rounded as it rounds them. */
  function LogEntry(loopId: nat, p: Params, m: Metrics, now: int): (e: LogRow)
    ensures e.Entry? && e.loop == loopId && e.ts == now
  {
    Entry(loopId, Rounded(p.roi, 6), Rounded(p.sl, 6), Trunc(m.trades),
          Rounded(m.profitAbsSum, 8), Rounded(m.profitRatioSum, 8), Rounded(m.winRate, 4), now)
  }

  /** The log after one append: a header first only when the file did not exist. */
  function Appended(log: Option<seq<LogRow>>, e: LogRow): seq<LogRow> {
    (if log.None? then [Header] else log.value) + [e]
  }

  /** A log that starts with the header and has only entries after it. */
  predicate LogWellFormed(rows: seq<LogRow>) {
    |rows| >= 1 && rows[0] == Header && forall k :: 1 <= k < |rows| ==> rows[k].Entry?
  }

  /** No log yet, or one written by `append_log`. */
  predicate Begun(log: Option<seq<LogRow>>) {
    log.None? || LogWellFormed(log.value)
  }

  function EntryCount(rows: seq<LogRow>): nat
    requires LogWellFormed(rows)
  {
    |rows| - 1
  }

  /**
   * Appending writes the header only into a new file, then exactly one entry; a log
   * begun this way stays well formed and gains one entry per append.
   */
  lemma AppendedWellFormed(log: Option<seq<LogRow>>, e: LogRow)
    requires e.Entry?
    requires log.Some? ==> LogWellFormed(log.value)
    ensures LogWellFormed(Appended(log, e))
    ensures log.None? ==> Appended(log, e) == [Header, e]
    ensures log.Some? ==> Appended(log, e) == log.value + [e]
    ensures EntryCount(Appended(log, e)) == (if log.None? then 0 else EntryCount(log.value)) + 1
    ensures Appended(log, e)[|Appended(log, e)| - 1] == e
  {
  }

  /** Python's comparison `curr > prev` with `prev` possibly `-inf`, and its non-strict form. */
  predicate AtLeast(a: ExtReal, b: ExtReal) {
    b.NegInf? || (a.Finite? && a.r >= b.r)
  }

  /** `float(mem.get("best_profit_total", float("-inf")))`. */
  function Best(mem: map<string, real>): ExtReal {
    if BestProfitKey in mem then Finite(mem[BestProfitKey]) else NegInf
  }

  /** The four entries `maybe_update_memory` writes over the loaded memory. */
  function Improved(mem: map<string, real>, p: Params, profit: real, now: int): (r: map<string, real>)
    ensures Best(r) == Finite(profit)
    ensures forall k :: k in mem ==> k in r
  {
    mem[BestRoiKey := p.roi][BestStopKey := p.sl][BestProfitKey := profit][BestTsKey := now as real]
  }

  /** The memory file after `maybe_update_memory`, when loading it does not raise. */
  function UpdatedMemory(f: MemFile, p: Params, profit: real, now: int): MemFile
    requires Loaded(f).Some?
  {
    var mem := Loaded(f).value;
    if Greater(Finite(profit), Best(mem)) then Saved(Improved(mem, p, profit, now)) else f
  }

  /**
   * The remembered best profit never decreases, strictly improves exactly when the file
   * is rewritten, and the file stays loadable.
   */
  lemma BestNeverDecreases(f: MemFile, p: Params, profit: real, now: int)
    requires Loaded(f).Some?
    ensures var g := UpdatedMemory(f, p, profit, now);
      Loaded(g).Some? && AtLeast(Best(Loaded(g).value), Best(Loaded(f).value))
      && (g != f <==> Greater(Finite(profit), Best(Loaded(f).value)))
  {
    var mem := Loaded(f).value;
    if Greater(Finite(profit), Best(mem)) {
      var imp := Improved(mem, p, profit, now);
      LoadSaved(imp);
      assert Best(Loaded(Saved(imp)).value) != Best(mem);
    }
  }

  /** A missing or unreadable memory always takes the first result as the best. */
  lemma FirstResultIsBest(f: MemFile, p: Params, profit: real, now: int)
    requires f.Missing? || f.Undecodable?
    ensures UpdatedMemory(f, p, profit, now) == Saved(Improved(map[], p, profit, now))
  {
  }

  /** The profits that iterations 1..k report, in order. */
  function Profits(trades: nat -> TradesFile, k: nat): (r: seq<ExtReal>)
    ensures |r| == k
    decreases k
  {
    if k == 0 then [] else Profits(trades, k - 1) + [Finite(Summary(trades(k)).profitAbsSum)]
  }

  /** The reply of iteration `j` gives a tweak: its content, if any, is a string. */
  predicate Tweakable(replies: nat -> Reply, j: nat) {
    !replies(j).NotText?
  }

  /** Every reply of iterations 1..k gives a tweak: none of them raises. */
  predicate AllTweaked(replies: nat -> Reply, k: nat) {
    forall j :: 1 <= j <= k ==> Tweakable(replies, j)
  }

  /**
   * The loop has stopped after `k` iterations: the memory file is not a dict, or the
   * reply of iteration `k + 1` has content that is not a string.
   */
  predicate Stopped(f: MemFile, replies: nat -> Reply, k: nat) {
    Loaded(f).None? || replies(k + 1).NotText?
  }

  /**
   * The tweak of iteration `j`. A reply that raises ends the loop before its iteration
   * counts, so the fallback in that case never enters a fold over completed iterations.
   */
  function TweakAt(replies: nat -> Reply, decode: Decoder, j: nat): (p: Params)
    ensures InRange(Original, p)
  {
    BoundsWellFormed();
    match LlmTweak(replies(j), decode)
    case Suggested(p) => p
    case Raised => Fallback(Original)
  }

  /** The memory file after iterations 1..k, each keeping its tweak when its profit is a strict improvement. */
  function MemAfter(f: MemFile, replies: nat -> Reply, decode: Decoder, trades: nat -> TradesFile, clock: nat -> int, k: nat)
    : (g: MemFile)
    requires Loaded(f).Some?
    ensures Loaded(g).Some?
    decreases k
  {
    if k == 0 then f
    else
      var prev := MemAfter(f, replies, decode, trades, clock, k - 1);
      BestNeverDecreases(prev, TweakAt(replies, decode, k), Summary(trades(k)).profitAbsSum, clock(k));
      UpdatedMemory(prev, TweakAt(replies, decode, k), Summary(trades(k)).profitAbsSum, clock(k))
  }

  /** The learning log after iterations 1..k, one entry each. */
  function LogAfter(log: Option<seq<LogRow>>, replies: nat -> Reply, decode: Decoder, trades: nat -> TradesFile,
                    clock: nat -> int, k: nat): Option<seq<LogRow>>
    decreases k
  {
    if k == 0 then log
    else Some(Appended(LogAfter(log, replies, decode, trades, clock, k - 1),
                       LogEntry(k, TweakAt(replies, decode, k), Summary(trades(k)), clock(k))))
  }

  /** One more loop whose reply is text: the fold functions move by that loop's tweak. */
  lemma AfterTweak(log: Option<seq<LogRow>>, strategy: string, replies: nat -> Reply, decode: Decoder,
                   trades: nat -> TradesFile, clock: nat -> int, k: nat)
    requires AllTweaked(replies, k) && Tweakable(replies, k + 1)
    ensures AllTweaked(replies, k + 1)
    ensures LogAfter(log, replies, decode, trades, clock, k + 1)
            == Some(Appended(LogAfter(log, replies, decode, trades, clock, k),
                             LogEntry(k + 1, LlmTweak(replies(k + 1), decode).p, Summary(trades(k + 1)), clock(k + 1))))
    ensures Tweaked(strategy, replies, decode, k + 1) == Mutate(Tweaked(strategy, replies, decode, k), LlmTweak(replies(k + 1), decode).p)
  {
    assert AllTweaked(replies, k + 1);
  }

  /** The strategy after iterations 1..k rewrote it with their tweaks. */
  function Tweaked(strategy: string, replies: nat -> Reply, decode: Decoder, k: nat): string
    decreases k
  {
    if k == 0 then strategy else Mutate(Tweaked(strategy, replies, decode, k - 1), TweakAt(replies, decode, k))
  }

  /** The tweaks of iterations 1..k, in order. */
  function Tweaks(replies: nat -> Reply, decode: Decoder, k: nat): (r: seq<Params>)
    ensures |r| == k
    decreases k
  {
    if k == 0 then [] else Tweaks(replies, decode, k - 1) + [TweakAt(replies, decode, k)]
  }

  /**
   * The memory file `g` holds the best-so-far of a run that starts at `start` and meets
   * the profits `xs` of loops that tried the pairs `pairs`: its best profit is their
   * maximum, and it is `f` untouched until a profit beats the start, after which it holds
   * the pair of the loop that first reached the maximum.
   */
  predicate HoldsMax(f: MemFile, g: MemFile, start: ExtReal, xs: seq<ExtReal>, pairs: seq<Params>) {
    Loaded(g).Some? && |pairs| == |xs|
    && var mem := Loaded(g).value;
    Best(mem) == MaxFrom(start, xs)
    && (ArgFrom(start, xs).None? ==> g == f)
    && (ArgFrom(start, xs).Some? ==>
          var p := pairs[ArgFrom(start, xs).value];
          BestRoiKey in mem && BestStopKey in mem && mem[BestRoiKey] == p.roi && mem[BestStopKey] == p.sl)
  }

  /** One more loop keeps the best-so-far: `maybe_update_memory` is the step of `MaxFrom`. */
  lemma MaxStep(f: MemFile, prev: MemFile, start: ExtReal, xs: seq<ExtReal>, pairs: seq<Params>, p: Params,
                profit: real, now: int)
    requires HoldsMax(f, prev, start, xs, pairs)
    ensures HoldsMax(f, UpdatedMemory(prev, p, profit, now), start, xs + [Finite(profit)], pairs + [p])
  {
    MaxFromSnoc(start, xs, Finite(profit));
    if Greater(Finite(profit), MaxFrom(start, xs)) {
      ImprovedKeepsPair(Loaded(prev).value, p, profit, now);
    }
  }

  /**
   * After iterations 1..k the remembered best profit is the largest of the starting best
   * and the reported profits; when one of them beat the start, the first iteration
   * reaching the maximum supplies the remembered pair, and otherwise the file is untouched.
   */
  lemma {:induction false} MemAfterIsMax(f: MemFile, replies: nat -> Reply, decode: Decoder, trades: nat -> TradesFile,
                                         clock: nat -> int, k: nat)
    requires Loaded(f).Some?
    ensures HoldsMax(f, MemAfter(f, replies, decode, trades, clock, k), Best(Loaded(f).value), Profits(trades, k),
                     Tweaks(replies, decode, k))
    decreases k
  {
    if k > 0 {
      MemAfterIsMax(f, replies, decode, trades, clock, k - 1);
      var xs := Profits(trades, k - 1);
      var profit := Summary(trades(k)).profitAbsSum;
      assert Profits(trades, k) == xs + [Finite(profit)];
      MaxStep(f, MemAfter(f, replies, decode, trades, clock, k - 1), Best(Loaded(f).value), xs,
              Tweaks(replies, decode, k - 1), TweakAt(replies, decode, k), profit, clock(k));
    }
  }

  /** The entries an improvement writes: the pair and the profit sit under their keys. */
  lemma ImprovedKeepsPair(mem: map<string, real>, p: Params, profit: real, now: int)
    ensures Loaded(Saved(Improved(mem, p, profit, now))) == Some(Improved(mem, p, profit, now))
    ensures var r := Improved(mem, p, profit, now);
      BestRoiKey in r && BestStopKey in r && r[BestRoiKey] == p.roi && r[BestStopKey] == p.sl
  {
    LoadSaved(Improved(mem, p, profit, now));
  }

  /** The remembered best after k loops is at least the loaded one. */
  lemma MemAfterNotWorse(f: MemFile, replies: nat -> Reply, decode: Decoder, trades: nat -> TradesFile,
                         clock: nat -> int, k: nat)
    requires Loaded(f).Some?
    ensures var g := MemAfter(f, replies, decode, trades, clock, k);
      Loaded(g).Some? && AtLeast(Best(Loaded(g).value), Best(Loaded(f).value))
  {
    var start := Best(Loaded(f).value);
    MemAfterIsMax(f, replies, decode, trades, clock, k);
    MaxFromIsMax(start, Profits(trades, k));
  }

  /** A log begun by `append_log` stays well formed and gains one entry per iteration. */
  lemma {:induction false} LogAfterCount(log: Option<seq<LogRow>>, replies: nat -> Reply, decode: Decoder,
                                         trades: nat -> TradesFile, clock: nat -> int, k: nat)
    requires Begun(log)
    ensures Begun(LogAfter(log, replies, decode, trades, clock, k))
    ensures k > 0 ==> var l := LogAfter(log, replies, decode, trades, clock, k);
      l.Some? && EntryCount(l.value) == (if log.None? then 0 else EntryCount(log.value)) + k
    decreases k
  {
    if k > 0 {
      LogAfterCount(log, replies, decode, trades, clock, k - 1);
      AppendedWellFormed(LogAfter(log, replies, decode, trades, clock, k - 1),
                         LogEntry(k, TweakAt(replies, decode, k), Summary(trades(k)), clock(k)));
    }
  }

  // ---------------------------------------------------------------------------
  // The loop
  // ---------------------------------------------------------------------------

  /** The files the loop works on: the strategy, the memory file and the learning log. */
  class Agent {
    var strategy: string
    var memFile: MemFile
    var log: Option<seq<LogRow>>

    /** `ensure_strategy`: an existing strategy is kept, a missing one is created from the baseline. */
    constructor(existing: Option<string>, baseline: string, memFile: MemFile, log: Option<seq<LogRow>>)
      ensures strategy == (if existing.Some? then existing.value else baseline)
      ensures this.memFile == memFile && this.log == log
    {
      strategy := if existing.Some? then existing.value else baseline;
      this.memFile := memFile;
      this.log := log;
    }

    /** `append_log`. */
    method AppendLog(entry: LogRow)
      modifies this
      ensures log == Some(Appended(old(log), entry))
      ensures strategy == old(strategy) && memFile == old(memFile)
    {
      var rows := if log.None? then [Header] else log.value;
      log := Some(rows + [entry]);
    }

    /** `maybe_update_memory`: reload, compare, and rewrite only on a strict improvement. */
    method MaybeUpdateMemory(p: Params, profit: real, now: int) returns (raised: bool)
      modifies this
      ensures raised <==> Loaded(old(memFile)).None?
      ensures raised ==> memFile == old(memFile)
      ensures !raised ==> memFile == UpdatedMemory(old(memFile), p, profit, now)
      ensures strategy == old(strategy) && log == old(log)
    {
      var mem := LoadMemory(memFile);
      if mem.None? {
        return true;
      }
      var prev := Best(mem.value);
      if Greater(Finite(profit), prev) {
        var next := Improved(mem.value, p, profit, now);
        memFile := Saved(next);
      }
      return false;
    }

    /**
     * One loop: load the memory for the prompt (a non-dict memory raises), take the
     * clamped tweak (content that is not a string raises), rewrite the strategy,
     * aggregate the loop's exported trades, append the log row and keep the best.
     */
    method Iterate(i: nat, reply: Reply, decode: Decoder, trades: TradesFile, now: int) returns (raised: bool)
      modifies this
      ensures raised <==> Loaded(old(memFile)).None? || reply.NotText?
      ensures raised ==> strategy == old(strategy) && memFile == old(memFile) && log == old(log)
      ensures !raised ==> strategy == Mutate(old(strategy), LlmTweak(reply, decode).p)
      ensures !raised ==> log == Some(Appended(old(log), LogEntry(i, LlmTweak(reply, decode).p, Summary(trades), now)))
      ensures !raised ==> memFile == UpdatedMemory(old(memFile), LlmTweak(reply, decode).p, Summary(trades).profitAbsSum, now)
    {
      var mem := LoadMemory(memFile);
      if mem.None? {
        return true;
      }
      var s := LlmTweak(reply, decode);
      if s.Raised? {
        return true;
      }
      var p := s.p;
      strategy := Mutate(strategy, p);
      var m := SummarizeTrades(trades);
      AppendLog(LogEntry(i, p, m, now));
      raised := MaybeUpdateMemory(p, m.profitAbsSum, now);
    }

    /**
     * Iteration `k + 1` of the loop, run on the state the first `k` iterations left: it
     * either raises and changes nothing, or moves every fold one iteration further.
     */
    method Advance(k: nat, replies: nat -> Reply, decode: Decoder, trades: nat -> TradesFile, clock: nat -> int,
                   ghost mem: MemFile, ghost log0: Option<seq<LogRow>>, ghost strategy0: string)
      returns (raised: bool)
      requires AllTweaked(replies, k)
      requires Loaded(mem).None? ==> k == 0 && memFile == mem
      requires Loaded(mem).Some? ==> memFile == MemAfter(mem, replies, decode, trades, clock, k)
      requires log == LogAfter(log0, replies, decode, trades, clock, k)
      requires strategy == Tweaked(strategy0, replies, decode, k)
      modifies this
      ensures raised ==> memFile == old(memFile) && log == old(log) && strategy == old(strategy)
      ensures raised ==> Stopped(mem, replies, k)
      ensures !raised ==> Loaded(mem).Some? && AllTweaked(replies, k + 1)
      ensures !raised ==> memFile == MemAfter(mem, replies, decode, trades, clock, k + 1)
      ensures !raised ==> log == LogAfter(log0, replies, decode, trades, clock, k + 1)
      ensures !raised ==> strategy == Tweaked(strategy0, replies, decode, k + 1)
    {
      ghost var mem0 := memFile;
      raised := Iterate(k + 1, replies(k + 1), decode, trades(k + 1), clock(k + 1));
      if raised {
        if Loaded(mem).Some? {
          assert Loaded(mem0).Some?;
        }
      } else {
        AfterTweak(log0, strategy0, replies, decode, trades, clock, k);
        assert Loaded(mem).Some? ==>
          MemAfter(mem, replies, decode, trades, clock, k + 1)
          == UpdatedMemory(mem0, TweakAt(replies, decode, k + 1), Summary(trades(k + 1)).profitAbsSum, clock(k + 1));
      }
    }

    /**
     * The loop of `main` over iterations 1..maxLoops, iteration `i` seeing `replies(i)`,
     * the trades exported to `ExportPath(i)` and the clock reading `clock(i)`: the state
     * it leaves is the fold over the iterations that completed. A memory file that is not
     * a dict stops the first iteration; otherwise only a reply whose content is not a
     * string stops the loop early.
     */
    method Loop(maxLoops: int, replies: nat -> Reply, decode: Decoder, trades: nat -> TradesFile, clock: nat -> int)
      returns (completed: nat)
      modifies this
      ensures maxLoops <= 0 ==> completed == 0
      ensures maxLoops > 0 ==> completed <= maxLoops
      ensures AllTweaked(replies, completed)
      ensures Loaded(old(memFile)).None? ==> completed == 0 && memFile == old(memFile)
      ensures completed < maxLoops ==> Stopped(old(memFile), replies, completed)
      ensures Loaded(old(memFile)).Some? ==> memFile == MemAfter(old(memFile), replies, decode, trades, clock, completed)
      ensures log == LogAfter(old(log), replies, decode, trades, clock, completed)
      ensures strategy == Tweaked(old(strategy), replies, decode, completed)
    {
      completed := 0;
      var stop := false;
      while completed < maxLoops && !stop
        invariant maxLoops > 0 ==> completed <= maxLoops
        invariant maxLoops <= 0 ==> completed == 0
        invariant AllTweaked(replies, completed)
        invariant stop ==> Stopped(old(memFile), replies, completed)
        invariant Loaded(old(memFile)).None? ==> completed == 0 && memFile == old(memFile)
        invariant Loaded(old(memFile)).Some? ==> memFile == MemAfter(old(memFile), replies, decode, trades, clock, completed)
        invariant log == LogAfter(old(log), replies, decode, trades, clock, completed)
        invariant strategy == Tweaked(old(strategy), replies, decode, completed)
        decreases maxLoops - completed, if stop then 0 else 1
      {
        var raised := Advance(completed, replies, decode, trades, clock, old(memFile), old(log), old(strategy));
        if raised {
          stop := true;
        } else {
          completed := completed + 1;
        }
      }
    }

    /**
     * `main`: the loop, after which the memory file holds the best of the loaded best and
     * every completed iteration's profit, and a well-formed log has one more row per
     * completed iteration.
     */
    method RunLoops(maxLoops: int, replies: nat -> Reply, decode: Decoder, trades: nat -> TradesFile, clock: nat -> int)
      returns (completed: nat)
      modifies this
      ensures maxLoops <= 0 ==> completed == 0
      ensures maxLoops > 0 ==> completed <= maxLoops
      ensures AllTweaked(replies, completed)
      ensures Loaded(old(memFile)).None? ==> completed == 0 && memFile == old(memFile) && log == old(log)
      ensures completed < maxLoops ==> Loaded(old(memFile)).None? || replies(completed + 1).NotText?
      ensures Loaded(old(memFile)).Some? ==> Loaded(memFile).Some? && AtLeast(Best(Loaded(memFile).value), Best(Loaded(old(memFile)).value))
      ensures Begun(old(log)) ==> Begun(log)
      ensures Begun(old(log)) && completed > 0 ==> log.Some? && EntryCount(log.value) == (if old(log).None? then 0 else EntryCount(old(log).value)) + completed
      ensures Loaded(old(memFile)).Some? ==> memFile == MemAfter(old(memFile), replies, decode, trades, clock, completed)
      ensures log == LogAfter(old(log), replies, decode, trades, clock, completed)
      ensures strategy == Tweaked(old(strategy), replies, decode, completed)
    {
      completed := Loop(maxLoops, replies, decode, trades, clock);
      if Loaded(old(memFile)).Some? {
        MemAfterNotWorse(old(memFile), replies, decode, trades, clock, completed);
      }
      if Begun(old(log)) {
        LogAfterCount(old(log), replies, decode, trades, clock, completed);
      }
    }
  }
}
