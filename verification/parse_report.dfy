/**
 * The quick backtest report: pick a report file, then fill nine display fields from the
 * places different exporter versions put them, each field starting as "-". The file
 * system (existence, the report listing with modification times) and the JSON parser
 * are inputs; the printing is not modelled.
 */
module ParseReport {
  import opened Wrappers
  import opened Json

  // ---------------------------------------------------------------------------
  // get, first_dict
  // ---------------------------------------------------------------------------

  /** `get`: the value of the first of `keys` that `d` has, else `default`; a non-dict has none. */
  function Get(d: Value, keys: seq<string>, default: Value): (r: Value)
    ensures !d.Obj? ==> r == default
    ensures d.Obj? && (forall i :: 0 <= i < |keys| ==> keys[i] !in d.fields) ==> r == default
    ensures d.Obj? && (exists i :: 0 <= i < |keys| && keys[i] in d.fields) ==>
      exists i :: 0 <= i < |keys| && keys[i] in d.fields && r == d.fields[keys[i]]
                  && forall j :: 0 <= j < i ==> keys[j] !in d.fields
  {
    if keys == [] then default
    else if d.Obj? && keys[0] in d.fields then d.fields[keys[0]]
    else
      var r := Get(d, keys[1..], default);
      GetSkipsHead(d, keys, r);
      r
  }

  /** A first key that is absent passes the search on to the remaining keys. */
  lemma GetSkipsHead(d: Value, keys: seq<string>, r: Value)
    requires keys != [] && !(d.Obj? && keys[0] in d.fields)
    requires d.Obj? && (exists i :: 0 <= i < |keys[1..]| && keys[1..][i] in d.fields) ==>
      exists i :: 0 <= i < |keys[1..]| && keys[1..][i] in d.fields && r == d.fields[keys[1..][i]]
                  && forall j :: 0 <= j < i ==> keys[1..][j] !in d.fields
    ensures d.Obj? && (exists i :: 0 <= i < |keys| && keys[i] in d.fields) ==>
      exists i :: 0 <= i < |keys| && keys[i] in d.fields && r == d.fields[keys[i]]
                  && forall j :: 0 <= j < i ==> keys[j] !in d.fields
  {
    if d.Obj? && (exists i :: 0 <= i < |keys| && keys[i] in d.fields) {
      var i :| 0 <= i < |keys| && keys[i] in d.fields;
      assert keys[1..][i - 1] == keys[i];
      var i' :| 0 <= i' < |keys[1..]| && keys[1..][i'] in d.fields && r == d.fields[keys[1..][i']]
                  && forall j :: 0 <= j < i' ==> keys[1..][j] !in d.fields;
      forall j | 0 <= j < i' + 1
        ensures keys[j] !in d.fields
      {
        if j > 0 { assert keys[j] == keys[1..][j - 1]; }
      }
      assert keys[i' + 1] == keys[1..][i'];
    }
  }

  /** A present key wins even when its value is falsy. */
  lemma GetKeepsFalsy(d: map<string, Value>, k: string, keys: seq<string>, default: Value)
    requires k in d && !Truthy(d[k])
    ensures Get(Obj(d), [k] + keys, default) == d[k]
  {
  }

  /** `first_dict`: a dict itself, or the head of a list whose head is a dict. */
  function FirstDict(obj: Value): (r: Option<map<string, Value>>)
    ensures obj.Obj? ==> r == Some(obj.fields)
    ensures r.Some? && !obj.Obj? ==> obj.Arr? && obj.items != [] && obj.items[0] == Obj(r.value)
    ensures r.None? <==> !obj.Obj? && !(obj.Arr? && obj.items != [] && obj.items[0].Obj?)
  {
    if obj.Obj? then Some(obj.fields)
    else if obj.Arr? && obj.items != [] && obj.items[0].Obj? then Some(obj.items[0].fields)
    else None
  }

  // ---------------------------------------------------------------------------
  // pick_file
  // ---------------------------------------------------------------------------

  const ReportsDir := "user_data/reports"
  const LastResult := ".last_result.json"

  /** A `*.json` file of the reports directory, in glob order, with its modification time. */
  datatype Listed = Listed(path: string, mtime: int)

  /**
   * The head of the listing sorted newest first: the largest modification time, and the
   * first such file in glob order, since the sort is stable.
   */
  function Newest(files: seq<Listed>): (k: nat)
    requires files != []
    ensures k < |files|
    ensures forall i :: 0 <= i < |files| ==> files[i].mtime <= files[k].mtime
    ensures forall i :: 0 <= i < k ==> files[i].mtime < files[k].mtime
  {
    if |files| == 1 then 0
    else
      var k := Newest(files[..|files| - 1]);
      if files[|files| - 1].mtime > files[k].mtime then |files| - 1 else k
  }

  /**
   * `pick_file`: an explicit path that exists, then the newest report, then the last-result
   * file, else nothing.
   */
  function PickFile(arg: Option<string>, expand: string -> string, exists_: string -> bool, reports: seq<Listed>): (r: Option<string>)
    ensures arg.Some? && arg.value != [] && exists_(expand(arg.value)) ==> r == Some(expand(arg.value))
    ensures r.Some? ==> exists_(r.value) || r.value in (set f | f in reports :: f.path)
    ensures r.None? <==> !(arg.Some? && arg.value != [] && exists_(expand(arg.value)))
                         && !(exists_(ReportsDir) && reports != []) && !exists_(LastResult)
  {
    if arg.Some? && arg.value != [] && exists_(expand(arg.value)) then Some(expand(arg.value))
    else if exists_(ReportsDir) && reports != [] then Some(reports[Newest(reports)].path)
    else if exists_(LastResult) then Some(LastResult)
    else None
  }

  predicate IsNewest(files: seq<Listed>, k: nat)
    requires k < |files|
  {
    forall i :: 0 <= i < |files| ==> files[i].mtime <= files[k].mtime
  }

  /** Without a usable explicit path, the newest listed report is chosen over the last-result file. */
  lemma NewestReportWins(expand: string -> string, exists_: string -> bool, reports: seq<Listed>)
    requires exists_(ReportsDir) && reports != []
    ensures var r := PickFile(None, expand, exists_, reports);
      r.Some? && (exists k :: 0 <= k < |reports| && r.value == reports[k].path && IsNewest(reports, k))
  {
    var k := Newest(reports);
    assert PickFile(None, expand, exists_, reports) == Some(reports[k].path);
  }

  // ---------------------------------------------------------------------------
  // the metric fields of main
  // ---------------------------------------------------------------------------

  /** The nine displayed fields. */
  datatype Metrics = Metrics(strategy: Value, trades: Value, avgProfit: Value, profitAbs: Value,
                             profitPct: Value, pf: Value, winrate: Value, ddAbs: Value, ddPct: Value)

  const Dash := Str("-")
  const Initial := Metrics(Dash, Dash, Dash, Dash, Dash, Dash, Dash, Dash, Dash)

  datatype Field = StrategyField | TradesField | AvgProfitField | ProfitAbsField | ProfitPctField
                 | PfField | WinrateField | DdAbsField | DdPctField

  function Of(m: Metrics, f: Field): Value {
    match f
    case StrategyField => m.strategy
    case TradesField => m.trades
    case AvgProfitField => m.avgProfit
    case ProfitAbsField => m.profitAbs
    case ProfitPctField => m.profitPct
    case PfField => m.pf
    case WinrateField => m.winrate
    case DdAbsField => m.ddAbs
    case DdPctField => m.ddPct
  }

  /** Every key any source may supply a field under. */
  function FieldKeys(f: Field): set<string> {
    match f
    case StrategyField => {"Strategy", "strategy"}
    case TradesField => {"Trades", "total_trades", "trades"}
    case AvgProfitField => {"Avg Profit %", "avg_profit"}
    case ProfitAbsField => {"Tot Profit USDT", "Total Profit USDT", "profit_abs", "total_profit_abs"}
    case ProfitPctField => {"Tot Profit %", "Total Profit %", "profit_total", "total_profit_percent"}
    case PfField => {"profit_factor", "pf"}
    case WinrateField => {"winrate", "wins_ratio", "winrate_ratio"}
    case DdAbsField => {"max_drawdown_abs", "max_drawdown_abs_usdt"}
    case DdPctField => {"max_drawdown", "max_drawdown_pct"}
  }

  /** `b.get(a, cur) or b.get(c, cur)`: a truthy primary wins; a falsy one falls through to the secondary. */
  function Chain(b: map<string, Value>, a: string, c: string, cur: Value): (r: Value)
    ensures a in b && Truthy(b[a]) ==> r == b[a]
    ensures a in b && !Truthy(b[a]) ==> r == GetOr(b, c, cur)
    ensures a !in b && c !in b ==> r == cur
  {
    Or(GetOr(b, a, cur), GetOr(b, c, cur))
  }

  /** The first row of `strategy_comparison`, when that is a non-empty list; a row that is not a dict raises. */
  function FromComparison(m: Metrics, sc: Value): Option<Metrics> {
    if sc.Arr? && sc.items != [] then
      var row := sc.items[0];
      if !row.Obj? then None
      else
        var r := row.fields;
        Some(m.(strategy := GetOr(r, "Strategy", GetOr(r, "strategy", m.strategy)),
                trades := GetOr(r, "Trades", m.trades),
                avgProfit := GetOr(r, "Avg Profit %", m.avgProfit),
                profitAbs := GetOr(r, "Tot Profit USDT", GetOr(r, "Total Profit USDT", m.profitAbs)),
                profitPct := GetOr(r, "Tot Profit %", GetOr(r, "Total Profit %", m.profitPct))))
    else Some(m)
  }

  /** The top-level strategy name, consulted only while the name is still "-". */
  function FillStrategy(m: Metrics, data: map<string, Value>): Metrics {
    if m.strategy == Dash then m.(strategy := Get(Obj(data), ["strategy", "Strategy"], m.strategy)) else m
  }

  /** One metrics block: every field through its chain of alternative keys. */
  function ApplyBlock(m: Metrics, b: map<string, Value>): Metrics {
    m.(pf := Chain(b, "profit_factor", "pf", m.pf),
       winrate := Or(Chain(b, "winrate", "wins_ratio", m.winrate), GetOr(b, "winrate_ratio", m.winrate)),
       profitPct := Chain(b, "profit_total", "total_profit_percent", m.profitPct),
       profitAbs := Chain(b, "profit_abs", "total_profit_abs", m.profitAbs),
       ddAbs := Chain(b, "max_drawdown_abs", "max_drawdown_abs_usdt", m.ddAbs),
       ddPct := Chain(b, "max_drawdown", "max_drawdown_pct", m.ddPct),
       trades := Chain(b, "total_trades", "trades", m.trades),
       avgProfit := Chain(b, "avg_profit", "Avg Profit %", m.avgProfit))
  }

  /** The four candidate places for metrics, in the order they are applied. */
  function MetricsPaths(data: map<string, Value>): (ps: seq<Value>)
    ensures |ps| == 4
  {
    [GetOr(data, "metrics", Null), GetOr(data, "strategy_metrics", Null),
     Get(Obj(data), ["results"], Obj(map[])), Get(Obj(data), ["strategy"], Obj(map[]))]
  }

  /** The block a candidate place yields: only dicts and lists are looked into. */
  function BlockOf(mp: Value): Option<map<string, Value>> {
    if !(mp.Obj? || mp.Arr?) then None else FirstDict(mp)
  }

  function Step(m: Metrics, mp: Value): Metrics {
    match BlockOf(mp)
    case None => m
    case Some(b) => ApplyBlock(m, b)
  }

  /** The blocks applied in order, later ones overriding earlier ones. */
  function ApplyAll(m: Metrics, paths: seq<Value>): Metrics
    decreases |paths|
  {
    if paths == [] then m else Step(ApplyAll(m, paths[..|paths| - 1]), paths[|paths| - 1])
  }

  /** Totals under a non-empty `results` dict, applied last. */
  function ApplyResults(m: Metrics, data: map<string, Value>): Metrics {
    var results := GetOr(data, "results", Null);
    if results.Obj? && results.fields != map[] then
      var r := results.fields;
      m.(profitAbs := GetOr(r, "profit_abs", m.profitAbs),
         profitPct := GetOr(r, "profit_total", m.profitPct),
         trades := GetOr(r, "total_trades", m.trades))
    else m
  }

  /** The fields `main` displays; `None` when the document or the comparison row is not a dict. */
  function ReportOf(data: Value): Option<Metrics> {
    if !data.Obj? then None
    else
      match FromComparison(Initial, GetOr(data.fields, "strategy_comparison", Null))
      case None => None
      case Some(m) => Some(ApplyResults(ApplyAll(FillStrategy(m, data.fields), MetricsPaths(data.fields)), data.fields))
  }

  /** `main`'s rebinding of the fields, source after source. */
  method QuickReport(data: Value) returns (r: Option<Metrics>)
    ensures r == ReportOf(data)
  {
    if !data.Obj? {
      return None;
    }
    var d := data.fields;
    var first := FromComparison(Initial, GetOr(d, "strategy_comparison", Null));
    if first.None? {
      return None;
    }
    var m := FillStrategy(first.value, d);
    ghost var start := m;
    var paths := MetricsPaths(d);
    var i := 0;
    while i < |paths|
      invariant i <= |paths| && m == ApplyAll(start, paths[..i])
    {
      assert paths[..i + 1][..i] == paths[..i];
      var mp := paths[i];
      if mp.Obj? || mp.Arr? {
        var b := FirstDict(mp);
        if b.Some? {
          var blk := b.value;
          m := m.(pf := Or(GetOr(blk, "profit_factor", m.pf), GetOr(blk, "pf", m.pf)));
          m := m.(winrate := Or(Or(GetOr(blk, "winrate", m.winrate), GetOr(blk, "wins_ratio", m.winrate)), GetOr(blk, "winrate_ratio", m.winrate)));
          m := m.(profitPct := Or(GetOr(blk, "profit_total", m.profitPct), GetOr(blk, "total_profit_percent", m.profitPct)));
          m := m.(profitAbs := Or(GetOr(blk, "profit_abs", m.profitAbs), GetOr(blk, "total_profit_abs", m.profitAbs)));
          m := m.(ddAbs := Or(GetOr(blk, "max_drawdown_abs", m.ddAbs), GetOr(blk, "max_drawdown_abs_usdt", m.ddAbs)));
          m := m.(ddPct := Or(GetOr(blk, "max_drawdown", m.ddPct), GetOr(blk, "max_drawdown_pct", m.ddPct)));
          m := m.(trades := Or(GetOr(blk, "total_trades", m.trades), GetOr(blk, "trades", m.trades)));
          m := m.(avgProfit := Or(GetOr(blk, "avg_profit", m.avgProfit), GetOr(blk, "Avg Profit %", m.avgProfit)));
        }
      }
      i := i + 1;
    }
    assert paths[..i] == paths;
    r := Some(ApplyResults(m, d));
  }

  // ---------------------------------------------------------------------------
  // properties of the fields
  // ---------------------------------------------------------------------------

  /** Every dict a field may be read from: the comparison row, the document, the blocks and the results. */
  function Sources(d: map<string, Value>): seq<map<string, Value>> {
    var sc := GetOr(d, "strategy_comparison", Null);
    var row := if sc.Arr? && sc.items != [] && sc.items[0].Obj? then [sc.items[0].fields] else [];
    var ps := MetricsPaths(d);
    var blocks := [BlockOrEmpty(ps[0]), BlockOrEmpty(ps[1]), BlockOrEmpty(ps[2]), BlockOrEmpty(ps[3])];
    var results := GetOr(d, "results", Null);
    row + [d] + blocks + (if results.Obj? then [results.fields] else [])
  }

  function BlockOrEmpty(mp: Value): map<string, Value> {
    match BlockOf(mp) case Some(b) => b case None => map[]
  }

  predicate Supplied(d: map<string, Value>, f: Field) {
    exists s, k :: s in Sources(d) && k in FieldKeys(f) && k in s
  }

  /** A block without any of a field's keys leaves that field as it was. */
  lemma StepKeeps(m: Metrics, mp: Value, f: Field)
    requires BlockOf(mp).Some? ==> forall k :: k in FieldKeys(f) ==> k !in BlockOf(mp).value
    ensures Of(Step(m, mp), f) == Of(m, f)
  {
  }

  lemma {:induction false} ApplyAllKeeps(m: Metrics, paths: seq<Value>, f: Field)
    requires forall i, k :: 0 <= i < |paths| && BlockOf(paths[i]).Some? && k in FieldKeys(f) ==> k !in BlockOf(paths[i]).value
    ensures Of(ApplyAll(m, paths), f) == Of(m, f)
    decreases |paths|
  {
    if paths != [] {
      var init := paths[..|paths| - 1];
      ApplyAllKeeps(m, init, f);
      StepKeeps(ApplyAll(m, init), paths[|paths| - 1], f);
    }
  }

  /** A field shows something other than "-" only when some source has one of its keys. */
  lemma DashUnlessSupplied(data: map<string, Value>, f: Field)
    requires !Supplied(data, f)
    ensures ReportOf(Obj(data)).Some? ==> Of(ReportOf(Obj(data)).value, f) == Dash
  {
    var sc := GetOr(data, "strategy_comparison", Null);
    if FromComparison(Initial, sc).Some? {
      var m2 := FillStrategy(FromComparison(Initial, sc).value, data);
      FirstSourcesDash(data, f);
      LaterSourcesKeep(data, f, m2);
    }
  }

  /** Neither the comparison row nor the report's own keys supply an unsupplied field. */
  lemma FirstSourcesDash(data: map<string, Value>, f: Field)
    requires !Supplied(data, f)
    requires FromComparison(Initial, GetOr(data, "strategy_comparison", Null)).Some?
    ensures Of(FillStrategy(FromComparison(Initial, GetOr(data, "strategy_comparison", Null)).value, data), f) == Dash
  {
    var sc := GetOr(data, "strategy_comparison", Null);
    var n := if sc.Arr? && sc.items != [] && sc.items[0].Obj? then 1 else 0;
    if n == 1 {
      NotSuppliedAt(data, f, 0);
    }
    ComparisonKeeps(sc, f);
    NotSuppliedAt(data, f, n);
    FillKeeps(FromComparison(Initial, sc).value, data, f);
  }

  /** Neither the metrics blocks nor `results` supply an unsupplied field. */
  lemma LaterSourcesKeep(data: map<string, Value>, f: Field, m: Metrics)
    requires !Supplied(data, f)
    ensures Of(ApplyResults(ApplyAll(m, MetricsPaths(data)), data), f) == Of(m, f)
  {
    var sc := GetOr(data, "strategy_comparison", Null);
    var n := if sc.Arr? && sc.items != [] && sc.items[0].Obj? then 1 else 0;
    var ps := MetricsPaths(data);
    forall i, k | 0 <= i < |ps| && BlockOf(ps[i]).Some? && k in FieldKeys(f)
      ensures k !in BlockOf(ps[i]).value
    {
      NotSuppliedAt(data, f, n + 1 + i);
    }
    ApplyAllKeeps(m, ps, f);
    if GetOr(data, "results", Null).Obj? {
      NotSuppliedAt(data, f, n + 5);
    }
    ResultsKeeps(ApplyAll(m, ps), data, f);
  }

  /** Where each source sits in `Sources`, and that none of them has a key of an unsupplied field. */
  lemma NotSuppliedAt(data: map<string, Value>, f: Field, j: nat)
    requires !Supplied(data, f) && j < |Sources(data)|
    ensures forall k :: k in FieldKeys(f) ==> k !in Sources(data)[j]
    ensures SourceAt(data, j)
  {
    var src := Sources(data);
    forall k | k in FieldKeys(f) ensures k !in src[j] {
      assert src[j] in src;
    }
    SourcesLayout(data, j);
  }

  /** Which source sits at index `j`: the comparison row, the report, the four blocks, the results. */
  predicate SourceAt(data: map<string, Value>, j: nat)
    requires j < |Sources(data)|
  {
    var sc := GetOr(data, "strategy_comparison", Null);
    var n := if sc.Arr? && sc.items != [] && sc.items[0].Obj? then 1 else 0;
    var ps := MetricsPaths(data);
    (n == 1 && j == 0 ==> Sources(data)[j] == sc.items[0].fields)
    && (j == n ==> Sources(data)[j] == data)
    && (n < j <= n + 4 ==> Sources(data)[j] == BlockOrEmpty(ps[j - n - 1]))
    && (j == n + 5 ==> Sources(data)[j] == GetOr(data, "results", Null).fields)
  }

  lemma SourcesLayout(data: map<string, Value>, j: nat)
    requires j < |Sources(data)|
    ensures SourceAt(data, j)
  {
    var sc := GetOr(data, "strategy_comparison", Null);
    var row := if sc.Arr? && sc.items != [] && sc.items[0].Obj? then [sc.items[0].fields] else [];
    var ps := MetricsPaths(data);
    var blocks := [BlockOrEmpty(ps[0]), BlockOrEmpty(ps[1]), BlockOrEmpty(ps[2]), BlockOrEmpty(ps[3])];
    var results := GetOr(data, "results", Null);
    var tail := if results.Obj? then [results.fields] else [];
    assert Sources(data) == row + [data] + blocks + tail;
    var n := |row|;
    if n < j <= n + 4 {
      assert Sources(data)[j] == blocks[j - n - 1];
    }
  }

  lemma ComparisonKeeps(sc: Value, f: Field)
    requires FromComparison(Initial, sc).Some?
    requires sc.Arr? && sc.items != [] && sc.items[0].Obj? ==> forall k :: k in FieldKeys(f) ==> k !in sc.items[0].fields
    ensures Of(FromComparison(Initial, sc).value, f) == Dash
  {
  }

  lemma FillKeeps(m: Metrics, data: map<string, Value>, f: Field)
    requires forall k :: k in FieldKeys(f) ==> k !in data
    ensures Of(FillStrategy(m, data), f) == Of(m, f)
  {
  }

  lemma ResultsKeeps(m: Metrics, data: map<string, Value>, f: Field)
    requires var results := GetOr(data, "results", Null);
      results.Obj? ==> forall k :: k in FieldKeys(f) ==> k !in results.fields
    ensures Of(ApplyResults(m, data), f) == Of(m, f)
  {
  }

  /** A non-empty `results` dict has the last word on trades and both profit totals. */
  lemma ResultsOverride(data: map<string, Value>)
    requires ReportOf(Obj(data)).Some?
    requires "results" in data && data["results"].Obj?
    ensures var r := ReportOf(Obj(data)).value; var res := data["results"].fields;
      ("total_trades" in res ==> r.trades == res["total_trades"])
      && ("profit_abs" in res ==> r.profitAbs == res["profit_abs"])
      && ("profit_total" in res ==> r.profitPct == res["profit_total"])
  {
  }

  /** A falsy `profit_factor` falls through to `pf` in the last block that has it. */
  lemma FalsyFallsThrough(m: Metrics, b: map<string, Value>)
    requires "profit_factor" in b && !Truthy(b["profit_factor"]) && "pf" in b
    ensures ApplyBlock(m, b).pf == b["pf"]
  {
  }
}
