/**
 * The auto-patching loop's decisions: whether a verification snapshot needs improvement,
 * the suggestions taken from the model (ordered by priority), applying them by method,
 * and the bookkeeping of successful cycles. The model's reply, the JSON parser, the
 * health-check script, the cache-drop write and `str()` of a value are inputs; logging,
 * the documentation files and the polling loop are not modelled.
 */
module AutoPatchLoop {
  import opened Wrappers
  import opened Json
  import opened SelfLoopCommon

  // ---------------------------------------------------------------------------
  // _needs_improvement
  // ---------------------------------------------------------------------------

  /** `all(d.values())`. */
  predicate AllTruthy(d: map<string, Value>) {
    forall k :: k in d ==> Truthy(d[k])
  }

  /** Python's `v < bound` for a number (a bool counts as 0 or 1); anything else raises. */
  function Below(v: Value, bound: real): Option<bool> {
    match v
    case Num(n) => Some(n < bound)
    case Bool(b) => Some((if b then 1.0 else 0.0) < bound)
    case _ => None
  }

  /** Python's `v > bound`, likewise. */
  function Above(v: Value, bound: real): Option<bool> {
    match v
    case Num(n) => Some(n > bound)
    case Bool(b) => Some((if b then 1.0 else 0.0) > bound)
    case _ => None
  }

  /** The resource check, left to right with `and` short-circuiting; a missing free-disk value is infinite. */
  function ResourcesOk(res: map<string, Value>): Option<bool> {
    match Below(GetOr(res, "memory_percent", Num(0.0)), 80.0)
    case None => None
    case Some(false) => Some(false)
    case Some(true) =>
      match Below(GetOr(res, "cpu_percent", Num(0.0)), 70.0)
      case None => None
      case Some(false) => Some(false)
      case Some(true) => if "disk_free" in res then Above(res["disk_free"], 10.0) else Some(true)
  }

  /**
   * `_needs_improvement`: false for an empty snapshot; otherwise true unless every
   * service, config and model flag is truthy and the resources are within bounds.
   * `None` when a section is not a dict or a resource value is not a number (it raises).
   */
  function NeedsImprovement(v: map<string, Value>): (r: Option<bool>)
    ensures v == map[] ==> r == Some(false)
  {
    if v == map[] then Some(false)
    else
      var services := GetOr(v, "services", Obj(map[]));
      var config := GetOr(v, "config", Obj(map[]));
      var model := GetOr(v, "model", Obj(map[]));
      if !services.Obj? || !config.Obj? || !model.Obj? then None
      else
        var resources := GetOr(v, "resources", Obj(map[]));
        if !resources.Obj? then None
        else
          match ResourcesOk(resources.fields)
          case None => None
          case Some(resOk) =>
            Some(!(AllTruthy(services.fields) && AllTruthy(config.fields) && AllTruthy(model.fields) && resOk))
  }

  /** A snapshot whose sections are dicts and whose resource readings are plain numbers. */
  predicate Numeric(v: map<string, Value>) {
    (forall s :: s in {"services", "config", "model", "resources"} && s in v ==> v[s].Obj?)
    && (forall k :: "resources" in v && k in {"memory_percent", "cpu_percent", "disk_free"} && k in v["resources"].fields ==>
          v["resources"].fields[k].Num?)
  }

  function Reading(v: map<string, Value>, k: string, default: real): real
    requires Numeric(v) && k in {"memory_percent", "cpu_percent", "disk_free"}
  {
    if "resources" in v && k in v["resources"].fields then v["resources"].fields[k].n else default
  }

  function Section(v: map<string, Value>, s: string): map<string, Value>
    requires Numeric(v) && s in {"services", "config", "model"}
  {
    if s in v then v[s].fields else map[]
  }

  /**
   * For a non-empty numeric snapshot, improvement is needed exactly when a flag is false,
   * memory is at least 80%, CPU at least 70% or free disk at most 10 (missing readings
   * count as 0, 0 and infinity).
   */
  lemma NeedsImprovementIff(v: map<string, Value>)
    requires v != map[] && Numeric(v)
    ensures NeedsImprovement(v).Some?
    ensures NeedsImprovement(v).value <==>
      !AllTruthy(Section(v, "services")) || !AllTruthy(Section(v, "config")) || !AllTruthy(Section(v, "model"))
      || Reading(v, "memory_percent", 0.0) >= 80.0 || Reading(v, "cpu_percent", 0.0) >= 70.0
      || ("resources" in v && "disk_free" in v["resources"].fields && Reading(v, "disk_free", 0.0) <= 10.0)
  {
  }

  // ---------------------------------------------------------------------------
  // _get_llm_suggestions
  // ---------------------------------------------------------------------------

  /** A suggestion with its numeric priority. */
  datatype Ranked = Ranked(priority: real, item: map<string, Value>)

  predicate Ascending(s: seq<Ranked>) {
    forall i, j :: 0 <= i < j < |s| ==> s[i].priority <= s[j].priority
  }

  /** Put `x` after every element whose priority is at most its own, which keeps the sort stable. */
  function InsertByPriority(sorted: seq<Ranked>, x: Ranked): (r: seq<Ranked>)
    requires Ascending(sorted)
    ensures Ascending(r) && multiset(r) == multiset(sorted) + multiset{x}
    decreases |sorted|
  {
    if sorted == [] then [x]
    else
      var last := sorted[|sorted| - 1];
      if last.priority <= x.priority then sorted + [x]
      else
        var init := sorted[..|sorted| - 1];
        assert sorted == init + [last];
        var rest := InsertByPriority(init, x);
        BelowLast(sorted, x, rest);
        rest + [last]
  }

  /**
   * Inserting below the last element keeps it the highest: `rest` holds the elements
   * before it and `x`, none above it, so it can go last again.
   */
  lemma BelowLast(sorted: seq<Ranked>, x: Ranked, rest: seq<Ranked>)
    requires Ascending(sorted) && sorted != [] && x.priority < sorted[|sorted| - 1].priority
    requires Ascending(rest) && multiset(rest) == multiset(sorted[..|sorted| - 1]) + multiset{x}
    ensures Ascending(rest + [sorted[|sorted| - 1]])
  {
    var last := sorted[|sorted| - 1];
    var init := sorted[..|sorted| - 1];
    forall y | y in rest ensures y.priority <= last.priority {
      assert y in multiset(rest);
      if y != x {
        assert y in multiset(init);
      }
    }
    var r := rest + [last];
    forall i, j | 0 <= i < j < |r| ensures r[i].priority <= r[j].priority {
      if j == |rest| {
        assert r[i] in rest;
      } else {
        assert r[i] == rest[i] && r[j] == rest[j];
      }
    }
  }

  /** `sorted(..., key=priority)`: ascending, and the same suggestions. */
  function SortByPriority(s: seq<Ranked>): (r: seq<Ranked>)
    ensures Ascending(r) && multiset(r) == multiset(s)
    decreases |s|
  {
    if s == [] then []
    else
      assert s == s[..|s| - 1] + [s[|s| - 1]];
      InsertByPriority(SortByPriority(s[..|s| - 1]), s[|s| - 1])
  }

  /** A suggestion's priority; a missing or non-numeric one makes the sort raise. */
  function PriorityOf(v: Value): Option<real> {
    if v.Obj? && "priority" in v.fields then
      match v.fields["priority"]
      case Num(n) => Some(n)
      case Bool(b) => Some(if b then 1.0 else 0.0)
      case _ => None
    else None
  }

  /** Every element ranked, or `None` when one cannot be. */
  function RankAll(items: seq<Value>): (r: Option<seq<Ranked>>)
    ensures r.Some? <==> forall i :: 0 <= i < |items| ==> PriorityOf(items[i]).Some?
    ensures r.Some? ==> |r.value| == |items|
    ensures r.Some? ==> forall i :: 0 <= i < |items| ==> items[i] == Obj(r.value[i].item) && PriorityOf(items[i]) == Some(r.value[i].priority)
    decreases |items|
  {
    if items == [] then Some([])
    else
      match RankAll(items[..|items| - 1])
      case None => None
      case Some(rs) =>
        var x := items[|items| - 1];
        match PriorityOf(x)
        case None => None
        case Some(p) => Some(rs + [Ranked(p, x.fields)])
  }

  /** The reply is content that decodes to a list whose every element has a priority. */
  predicate Rankable(reply: Reply, decode: string -> Option<Value>) {
    reply.Content? && decode(reply.text).Some? && decode(reply.text).value.Arr?
    && RankAll(decode(reply.text).value.items).Some?
  }

  /** `r` holds the suggestions of a successful reply: its JSON list, each one ranked. */
  predicate Ranks(reply: Reply, decode: string -> Option<Value>, r: seq<Ranked>) {
    reply.Content? && decode(reply.text).Some? && decode(reply.text).value.Arr?
    && RankAll(decode(reply.text).value.items).Some?
    && multiset(r) == multiset(RankAll(decode(reply.text).value.items).value)
  }

  /**
   * `_get_llm_suggestions`: the reply's JSON list ordered by ascending priority; any
   * failure (request, shape, content that is not a string, parse, priority) gives the
   * empty list.
   */
  function GetSuggestions(reply: Reply, decode: string -> Option<Value>): (r: seq<Ranked>)
    ensures Ascending(r)
    ensures r != [] ==> Ranks(reply, decode, r)
    ensures Rankable(reply, decode) ==> Ranks(reply, decode, r)
    ensures !Rankable(reply, decode) ==> r == []
  {
    if !reply.Content? then []
    else
      match decode(reply.text)
      case Some(Arr(items)) =>
        (match RankAll(items)
         case Some(rs) => SortByPriority(rs)
         case None => [])
      case _ => []
  }

  // ---------------------------------------------------------------------------
  // _apply_improvements
  // ---------------------------------------------------------------------------

  /** What the suggestions can change: the MCP server config (absent when unreadable) and the process environment. */
  datatype Env = Env(config: Option<map<string, Value>>, environ: map<string, string>)

  /** `_update_config`: only keys the config already has take the suggested value. */
  function UpdateExisting(config: map<string, Value>, updates: map<string, Value>): (r: map<string, Value>)
    ensures r.Keys == config.Keys
    ensures forall k :: k in config && k in updates ==> r[k] == updates[k]
    ensures forall k :: k in config && k !in updates ==> r[k] == config[k]
  {
    map k | k in config :: if k in updates then updates[k] else config[k]
  }

  const MethodConfig := Str("config_update")
  const MethodRestart := Str("service_restart")
  const MethodResources := Str("resource_optimization")
  const MethodModel := Str("model_adjustment")

  /** A method the dispatcher knows. */
  predicate Known(m: Value) {
    m == MethodConfig || m == MethodRestart || m == MethodResources || m == MethodModel
  }

  /** `os.environ[k] = str(v)` for every parameter. */
  function SetParameters(environ: map<string, string>, params: map<string, Value>, str_: Value -> string): (r: map<string, string>)
    ensures r.Keys == environ.Keys + params.Keys
    ensures forall k :: k in params ==> r[k] == str_(params[k])
    ensures forall k :: k in environ && k !in params ==> r[k] == environ[k]
  {
    environ + map k | k in params :: str_(params[k])
  }

  /**
   * One suggestion: the state after its effects and whether it completed. A missing
   * `method` raises before anything happens; the model adjustment may raise after
   * setting `MODEL_NAME`.
   */
  function ApplyOne(e: Env, s: map<string, Value>, restartOk: bool, dropOk: bool, str_: Value -> string): (r: (Env, bool))
    ensures "method" !in s ==> r == (e, false)
    ensures "method" in s && !Known(s["method"]) ==> r == (e, true)
  {
    if "method" !in s then (e, false)
    else
      var m := s["method"];
      if m == MethodConfig then
        if e.config.None? then (e, false)
        else if "updates" !in s then (e, true)
        else if !s["updates"].Obj? then (e, false)
        else (e.(config := Some(UpdateExisting(e.config.value, s["updates"].fields))), true)
      else if m == MethodRestart then
        (e, !(Truthy(GetOr(s, "service_name", Null)) && !restartOk))
      else if m == MethodResources then
        (e, !(Truthy(GetOr(s, "clear_cache", Null)) && !dropOk))
      else if m == MethodModel then
        if "model_name" in s && !s["model_name"].Str? then (e, false)
        else
          var e1 := if "model_name" in s then e.(environ := e.environ["MODEL_NAME" := s["model_name"].s]) else e;
          if "parameters" !in s then (e1, true)
          else if !s["parameters"].Obj? then (e1, false)
          else (e1.(environ := SetParameters(e1.environ, s["parameters"].fields, str_)), true)
      else (e, true)
  }

  /** The suggestions in order, stopping at the first that raises. */
  function ApplyAll(e: Env, ss: seq<Ranked>, restartOk: bool, dropOk: bool, str_: Value -> string): (Env, bool)
    decreases |ss|
  {
    if ss == [] then (e, true)
    else
      var (e1, ok) := ApplyAll(e, ss[..|ss| - 1], restartOk, dropOk, str_);
      if !ok then (e1, false) else ApplyOne(e1, ss[|ss| - 1].item, restartOk, dropOk, str_)
  }

  /** A suggestion lacking `method` makes the whole application fail. */
  lemma {:induction false} MissingMethodFails(e: Env, ss: seq<Ranked>, restartOk: bool, dropOk: bool, str_: Value -> string, i: nat)
    requires i < |ss| && "method" !in ss[i].item
    ensures !ApplyAll(e, ss, restartOk, dropOk, str_).1
    decreases |ss|
  {
    if i < |ss| - 1 {
      MissingMethodFails(e, ss[..|ss| - 1], restartOk, dropOk, str_, i);
    }
  }

  /** Once a suggestion raises, the later ones are never applied. */
  lemma {:induction false} FailureStops(e: Env, ss: seq<Ranked>, k: nat, restartOk: bool, dropOk: bool, str_: Value -> string)
    requires k <= |ss| && !ApplyAll(e, ss[..k], restartOk, dropOk, str_).1
    ensures ApplyAll(e, ss, restartOk, dropOk, str_) == ApplyAll(e, ss[..k], restartOk, dropOk, str_)
    decreases |ss|
  {
    if k < |ss| {
      assert ss[..|ss| - 1][..k] == ss[..k];
      FailureStops(e, ss[..|ss| - 1], k, restartOk, dropOk, str_);
    } else {
      assert ss[..k] == ss;
    }
  }

  /** While every suggestion so far succeeded, one more applies to the environment they left. */
  lemma ApplyAllStep(e0: Env, ss: seq<Ranked>, i: nat, restartOk: bool, dropOk: bool, str_: Value -> string, e: Env)
    requires i < |ss| && ApplyAll(e0, ss[..i], restartOk, dropOk, str_) == (e, true)
    ensures ApplyAll(e0, ss[..i + 1], restartOk, dropOk, str_) == ApplyOne(e, ss[i].item, restartOk, dropOk, str_)
  {
    assert ss[..i + 1][..i] == ss[..i];
  }

  /** Suggestions whose methods are all unknown are skipped: success, and nothing changes. */
  lemma {:induction false} UnknownSkipped(e: Env, ss: seq<Ranked>, restartOk: bool, dropOk: bool, str_: Value -> string)
    requires forall i :: 0 <= i < |ss| ==> "method" in ss[i].item && !Known(ss[i].item["method"])
    ensures ApplyAll(e, ss, restartOk, dropOk, str_) == (e, true)
    decreases |ss|
  {
    if ss != [] {
      UnknownSkipped(e, ss[..|ss| - 1], restartOk, dropOk, str_);
    }
  }

  /** A config update never adds a key to the config. */
  lemma {:induction false} ConfigKeysKept(e: Env, ss: seq<Ranked>, restartOk: bool, dropOk: bool, str_: Value -> string)
    requires e.config.Some?
    ensures var e' := ApplyAll(e, ss, restartOk, dropOk, str_).0;
      e'.config.Some? && e'.config.value.Keys == e.config.value.Keys
    decreases |ss|
  {
    if ss != [] {
      ConfigKeysKept(e, ss[..|ss| - 1], restartOk, dropOk, str_);
    }
  }

  // ---------------------------------------------------------------------------
  // the improvement cycle
  // ---------------------------------------------------------------------------

  /** One record of `patch_history`. */
  datatype Improvement = Improvement(timestamp: string, suggestions: seq<Ranked>, number: int)

  datatype Cycle = Raised | NotNeeded | Failed | Improved

  class PatchLoop {
    var improvementCount: int
    var patchHistory: seq<Improvement>
    var config: Option<map<string, Value>>
    var environ: map<string, string>

    constructor(config: Option<map<string, Value>>, environ: map<string, string>)
      ensures improvementCount == 0 && patchHistory == []
      ensures this.config == config && this.environ == environ
    {
      improvementCount := 0;
      patchHistory := [];
      this.config := config;
      this.environ := environ;
    }

    /** `_apply_improvements`: each suggestion in turn, returning false at the first that raises. */
    method ApplyImprovements(suggestions: seq<Ranked>, restartOk: bool, dropOk: bool, str_: Value -> string) returns (ok: bool)
      modifies this
      ensures (Env(config, environ), ok) == ApplyAll(Env(old(config), old(environ)), suggestions, restartOk, dropOk, str_)
      ensures improvementCount == old(improvementCount) && patchHistory == old(patchHistory)
    {
      ghost var e0 := Env(config, environ);
      var i := 0;
      while i < |suggestions|
        invariant i <= |suggestions|
        invariant (Env(config, environ), true) == ApplyAll(e0, suggestions[..i], restartOk, dropOk, str_)
        invariant improvementCount == old(improvementCount) && patchHistory == old(patchHistory)
      {
        ApplyAllStep(e0, suggestions, i, restartOk, dropOk, str_, Env(config, environ));
        var applied := Apply(suggestions[i].item, restartOk, dropOk, str_);
        if !applied {
          FailureStops(e0, suggestions, i + 1, restartOk, dropOk, str_);
          return false;
        }
        i := i + 1;
      }
      assert suggestions[..i] == suggestions;
      return true;
    }

    /** One suggestion, dispatched on its `method`; false when it raises. */
    method Apply(s: map<string, Value>, restartOk: bool, dropOk: bool, str_: Value -> string) returns (ok: bool)
      modifies this
      ensures (Env(config, environ), ok) == ApplyOne(Env(old(config), old(environ)), s, restartOk, dropOk, str_)
      ensures improvementCount == old(improvementCount) && patchHistory == old(patchHistory)
    {
      if "method" !in s {
        return false;
      }
      var m := s["method"];
      if m == MethodConfig {
        if config.None? {
          return false;
        }
        if "updates" in s {
          if !s["updates"].Obj? {
            return false;
          }
          UpdateConfig(s["updates"].fields);
        }
        return true;
      } else if m == MethodRestart {
        return !(Truthy(GetOr(s, "service_name", Null)) && !restartOk);
      } else if m == MethodResources {
        return !(Truthy(GetOr(s, "clear_cache", Null)) && !dropOk);
      } else if m == MethodModel {
        if "model_name" in s {
          if !s["model_name"].Str? {
            return false;
          }
          environ := environ["MODEL_NAME" := s["model_name"].s];
        }
        if "parameters" in s {
          if !s["parameters"].Obj? {
            return false;
          }
          environ := SetParameters(environ, s["parameters"].fields, str_);
        }
        return true;
      }
      return true;
    }

    /** `_update_config`: each suggested key the config already has takes its new value; the others are ignored. */
    method UpdateConfig(updates: map<string, Value>)
      requires config.Some?
      modifies this
      ensures config == Some(UpdateExisting(old(config).value, updates))
      ensures environ == old(environ) && improvementCount == old(improvementCount) && patchHistory == old(patchHistory)
    {
      var c := config.value;
      ghost var c0 := c;
      var rest := updates.Keys;
      while rest != {}
        invariant rest <= updates.Keys && c.Keys == c0.Keys
        invariant forall k :: k in c0 ==> c[k] == if k in updates && k !in rest then updates[k] else c0[k]
        decreases rest
      {
        var k :| k in rest;
        if k in c {
          c := c[k := updates[k]];
        }
        rest := rest - {k};
      }
      ghost var u := UpdateExisting(c0, updates);
      assert forall k :: k in c ==> c[k] == u[k];
      assert c == u;
      config := Some(c);
    }

    /**
     * `_run_improvement_cycle`: when improvement is needed, apply the suggestions; on
     * success count one more improvement and record it under the new count. An empty
     * suggestion list (the model failed) counts as a success.
     */
    method RunCycle(verification: map<string, Value>, reply: Reply, decode: string -> Option<Value>,
                    restartOk: bool, dropOk: bool, str_: Value -> string, now: string) returns (c: Cycle)
      modifies this
      ensures c == Cycle.Improved <==> (NeedsImprovement(verification) == Some(true)
        && ApplyAll(Env(old(config), old(environ)), GetSuggestions(reply, decode), restartOk, dropOk, str_).1)
      ensures c == Cycle.Improved ==> (improvementCount == old(improvementCount) + 1
        && patchHistory == old(patchHistory) + [Improvement(now, GetSuggestions(reply, decode), improvementCount)])
      ensures c != Cycle.Improved ==> improvementCount == old(improvementCount) && patchHistory == old(patchHistory)
      ensures c == Cycle.Raised <==> NeedsImprovement(verification).None?
      ensures c == Cycle.NotNeeded <==> NeedsImprovement(verification) == Some(false)
      ensures c == Cycle.Failed <==> (NeedsImprovement(verification) == Some(true)
        && !ApplyAll(Env(old(config), old(environ)), GetSuggestions(reply, decode), restartOk, dropOk, str_).1)
      ensures NeedsImprovement(verification) == Some(true) ==>
        Env(config, environ) == ApplyAll(Env(old(config), old(environ)), GetSuggestions(reply, decode), restartOk, dropOk, str_).0
      ensures NeedsImprovement(verification) != Some(true) ==> config == old(config) && environ == old(environ)
    {
      var needs := NeedsImprovement(verification);
      if needs.None? {
        return Cycle.Raised;
      }
      if !needs.value {
        return Cycle.NotNeeded;
      }
      var suggestions := GetSuggestions(reply, decode);
      var ok := ApplyImprovements(suggestions, restartOk, dropOk, str_);
      if !ok {
        return Cycle.Failed;
      }
      improvementCount := improvementCount + 1;
      patchHistory := patchHistory + [Improvement(now, suggestions, improvementCount)];
      return Cycle.Improved;
    }
  }
}
