/**
 * The run reporter: find the latest run directory and summarise the results file of its
 * first strategy directory. Directory listings, file existence and the parsed results
 * document are inputs; the printing is not modelled.
 */
module Reporting {
  import opened Wrappers
  import opened Text
  import opened Json

  /** The greatest name of a non-empty listing, in Python's string order. */
  function MaxName(names: seq<string>): (r: string)
    requires names != []
    ensures r in names
    ensures forall i :: 0 <= i < |names| ==> LexLe(names[i], r)
  {
    if |names| == 1 then LexLeRefl(names[0]); names[0]
    else
      var m := MaxName(names[..|names| - 1]);
      var last := names[|names| - 1];
      LexLeTotal(m, last);
      if LexLe(m, last) then
        forall i | 0 <= i < |names| - 1 ensures LexLe(names[i], last) {
          assert names[i] == names[..|names| - 1][i];
          LexLeTrans(names[i], m, last);
        }
        LexLeRefl(last);
        last
      else
        assert names[..|names| - 1] + [last] == names;
        forall i | 0 <= i < |names| - 1 ensures LexLe(names[i], m) {
          assert names[i] == names[..|names| - 1][i];
        }
        m
  }

  /**
   * `latest_run_dir`: nothing when the root is missing or has no subdirectory; otherwise
   * the head of the subdirectories sorted in reverse, which is the greatest name (all of
   * them share the root, so comparing paths compares names).
   */
  function LatestRunDir(rootExists: bool, dirs: seq<string>): (r: Option<string>)
    ensures r.None? <==> !rootExists || dirs == []
    ensures r.Some? ==> r.value in dirs && forall i :: 0 <= i < |dirs| ==> LexLe(dirs[i], r.value)
  {
    if !rootExists || dirs == [] then None else Some(MaxName(dirs))
  }

  /** The latest directory is unique: any listed name no smaller than every other is it. */
  lemma LatestIsUnique(dirs: seq<string>, d: string)
    requires d in dirs && forall i :: 0 <= i < |dirs| ==> LexLe(dirs[i], d)
    ensures LatestRunDir(true, dirs) == Some(d)
  {
    var r := LatestRunDir(true, dirs).value;
    var k :| 0 <= k < |dirs| && dirs[k] == r;
    LexLeAntisym(r, d);
  }

  const SummaryKeys := {"trades", "profit_total", "max_drawdown", "calmar", "sharpe", "winrate"}

  /**
   * `summarize`: the trade count (the length of a `trades` list, else the value `or 0`)
   * and five metrics read from `results`, or from the whole document when there is no
   * `results`. A document or metrics block that is not a dict raises.
   */
  function Summarize(data: Value): (r: Option<map<string, Value>>)
    ensures r.Some? <==> data.Obj? && GetOr(data.fields, "results", data).Obj?
    ensures r.Some? ==> r.value.Keys == SummaryKeys
  {
    if !data.Obj? then None
    else
      var trades := GetOr(data.fields, "trades", Arr([]));
      var metrics := GetOr(data.fields, "results", data);
      if !metrics.Obj? then None
      else
        var m := metrics.fields;
        Some(map[
          "trades" := if trades.Arr? then Num(|trades.items| as real) else Or(trades, Num(0.0)),
          "profit_total" := GetOr(m, "profit_total", GetOr(m, "total_profit", Null)),
          "max_drawdown" := GetOr(m, "max_drawdown", Null),
          "calmar" := GetOr(m, "calmar", Null),
          "sharpe" := GetOr(m, "sharpe", Null),
          "winrate" := GetOr(m, "winrate", Null)])
  }

  /**
   * The fallbacks of the summary: the trade count of a list, `profit_total` falling back
   * to `total_profit`, and `None` for an absent metric.
   */
  lemma SummaryFallbacks(data: map<string, Value>)
    requires Summarize(Obj(data)).Some?
    ensures var s := Summarize(Obj(data)).value;
      var m := if "results" in data then data["results"].fields else data;
      ("trades" in data && data["trades"].Arr? ==> s["trades"] == Num(|data["trades"].items| as real))
      && ("trades" !in data ==> s["trades"] == Num(0.0))
      && ("profit_total" in m ==> s["profit_total"] == m["profit_total"])
      && ("profit_total" !in m && "total_profit" in m ==> s["profit_total"] == m["total_profit"])
      && ("profit_total" !in m && "total_profit" !in m ==> s["profit_total"] == Null)
      && ("sharpe" !in m ==> s["sharpe"] == Null)
  {
  }

  /** How a report run ends. */
  datatype RunReport =
    | NoRuns
    | NoStrategyDir
    | NoResults(dir: string)
    | Crashed
    | Report(run: string, strategy: string, summary: map<string, Value>)

  const RunsRoot := "runs"

  /** What `results.json` in the strategy folder holds: nothing, text that does not decode, or a document. */
  datatype ResultsFile = Absent | Malformed | Decoded(doc: Value)

  /**
   * `main`: the latest run, then its first strategy directory in listing order (not
   * sorted), then that directory's `results.json`. A file that does not decode, or a
   * document `summarize` cannot read, raises (`Crashed`).
   */
  function ReportLatest(rootExists: bool, runs: seq<string>, subdirs: string -> seq<string>,
                        results: string -> ResultsFile): (r: RunReport)
    ensures r.NoRuns? <==> LatestRunDir(rootExists, runs).None?
    ensures r.NoStrategyDir? <==> LatestRunDir(rootExists, runs).Some? && subdirs(LatestRunDir(rootExists, runs).value) == []
    ensures r.NoResults? <==> LatestRunDir(rootExists, runs).Some? && subdirs(LatestRunDir(rootExists, runs).value) != []
                              && results(subdirs(LatestRunDir(rootExists, runs).value)[0]).Absent?
    ensures r.NoResults? ==> r.dir == subdirs(LatestRunDir(rootExists, runs).value)[0]
    ensures r.Report? <==> LatestRunDir(rootExists, runs).Some? && subdirs(LatestRunDir(rootExists, runs).value) != []
                           && results(subdirs(LatestRunDir(rootExists, runs).value)[0]).Decoded?
                           && Summarize(results(subdirs(LatestRunDir(rootExists, runs).value)[0]).doc).Some?
    ensures r.Report? ==> LatestRunDir(rootExists, runs) == Some(r.run) && subdirs(r.run) != []
                          && r.strategy == subdirs(r.run)[0]
                          && results(r.strategy).Decoded? && Summarize(results(r.strategy).doc) == Some(r.summary)
  {
    match LatestRunDir(rootExists, runs)
    case None => NoRuns
    case Some(run) =>
      var strats := subdirs(run);
      if strats == [] then NoStrategyDir
      else
        match results(strats[0])
        case Absent => NoResults(strats[0])
        case Malformed => Crashed
        case Decoded(doc) =>
          match Summarize(doc)
          case None => Crashed
          case Some(s) => Report(run, strats[0], s)
  }
}
