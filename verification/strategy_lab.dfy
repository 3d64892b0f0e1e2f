/**
 * The strategy lab: ask the chat model for a strategy, take the first fenced Python
 * block from the answer and name the file after the strategy class it defines. The
 * configuration documents, the environment-variable expander, the model's reply and
 * the clock are inputs.
 */
module StrategyLab {
  import opened Wrappers
  import opened Text
  import opened Numeric
  import opened Json
  import opened SelfLoopCommon
  import opened LlmClient

  const OpenFence := "```python"
  const CloseFence := "```"

  // ---------------------------------------------------------------------------
  // extract_code
  // ---------------------------------------------------------------------------

  /**
   * The code span of `extract_code`: from after the first "```python" and its whitespace
   * up to the next "```". When the first opening has no closing fence after it, no later
   * one has either, so there is no block.
   */
  function CodeSpan(t: string): (r: Option<(nat, nat)>)
    ensures Find(t, OpenFence).None? ==> r.None?
    ensures r.Some? ==> r.value.0 <= r.value.1 <= |t| && OccursAt(t, CloseFence, r.value.1)
    ensures r.Some? ==> !Contains(t[r.value.0..r.value.1], CloseFence)
  {
    match Find(t, OpenFence)
    case None => None
    case Some(i) =>
      var a := SkipSpace(t, i + |OpenFence|);
      match FindFrom(t, CloseFence, a)
      case None => None
      case Some(j) =>
        BeforeFirst(t, CloseFence, a, j);
        Some((a, j))
  }

  /** `extract_code`: the stripped text of the first block, if there is one. */
  function ExtractCode(t: string): (r: Option<string>)
    ensures r.Some? <==> CodeSpan(t).Some?
    ensures r.Some? ==> r.value == Strip(t[CodeSpan(t).value.0..CodeSpan(t).value.1])
  {
    match CodeSpan(t)
    case None => None
    case Some((a, j)) => Some(Strip(t[a..j]))
  }

  /** Nothing between `a` and the first occurrence of `sub` from `a` contains `sub`. */
  lemma BeforeFirst(t: string, sub: string, a: nat, j: nat)
    requires |sub| > 0 && a <= j <= |t| && FindFrom(t, sub, a) == Some(j)
    ensures !Contains(t[a..j], sub)
  {
    forall k: nat | k <= |t[a..j]| && OccursAt(t[a..j], sub, k)
      ensures false
    {
      assert t[a + k..a + k + |sub|] == t[a..j][k..k + |sub|];
      assert OccursAt(t, sub, a + k);
    }
  }

  /** A slice of a string without `sub` has no `sub` either. */
  lemma SliceKeepsAbsence(s: string, sub: string, x: nat, y: nat)
    requires x <= y <= |s| && !Contains(s, sub)
    ensures !Contains(s[x..y], sub)
  {
    forall k: nat | k <= |s[x..y]| && OccursAt(s[x..y], sub, k)
      ensures false
    {
      forall m | 0 <= m < |sub| ensures s[x + k + m] == sub[m] {
        assert s[x..y][k..k + |sub|][m] == sub[m];
      }
      assert s[x + k..x + k + |sub|] == sub;
      assert OccursAt(s, sub, x + k);
    }
  }

  /** The extracted code never contains a closing fence. */
  lemma ExtractedHasNoFence(t: string)
    requires ExtractCode(t).Some?
    ensures !Contains(ExtractCode(t).value, CloseFence)
  {
    var (a, j) := CodeSpan(t).value;
    var x, y := StripIsSlice(t[a..j]);
    SliceKeepsAbsence(t[a..j], CloseFence, x, y);
  }

  // ---------------------------------------------------------------------------
  // filename_from_class
  // ---------------------------------------------------------------------------

  predicate IsWordChar(c: char) {
    ('A' <= c <= 'Z') || ('a' <= c <= 'z') || ('0' <= c <= '9') || c == '_'
  }

  /** The index just past the run of `[A-Za-z0-9_]` starting at `i`. */
  function SpanWord(s: string, i: nat): (j: nat)
    requires i <= |s|
    decreases |s| - i
    ensures i <= j <= |s| && (j == |s| || !IsWordChar(s[j]))
    ensures forall k :: i <= k < j ==> IsWordChar(s[k])
  {
    if i < |s| && IsWordChar(s[i]) then SpanWord(s, i + 1) else i
  }

  /**
   * The name captured by `class\s+([A-Za-z0-9_]+)\s*\(\s*IStrategy\s*\)\s*:` at `i`.
   * Each greedy run is followed by a character it cannot take, so the match is unique.
   */
  function ClassAt(s: string, i: nat): (r: Option<string>)
    requires i <= |s|
    ensures r.Some? ==> r.value != [] && forall k :: 0 <= k < |r.value| ==> IsWordChar(r.value[k])
  {
    if !OccursAt(s, "class", i) then None
    else
      var a := SkipSpace(s, i + 5);
      var n := SpanWord(s, a);
      if a == i + 5 || n == a then None
      else
        var b := SkipSpace(s, n);
        if !(b < |s| && s[b] == '(') then None
        else
          var c := SkipSpace(s, b + 1);
          if !OccursAt(s, "IStrategy", c) then None
          else
            var d := SkipSpace(s, c + 9);
            if !(d < |s| && s[d] == ')') then None
            else
              var e := SkipSpace(s, d + 1);
              if !(e < |s| && s[e] == ':') then None
              else Some(s[a..n])
  }

  /** `re.search` for the class header from `i`. */
  function FirstClass(s: string, i: nat): (r: Option<string>)
    requires i <= |s|
    decreases |s| - i
    ensures r.Some? ==> exists k :: i <= k <= |s| && ClassAt(s, k) == r
    ensures r.None? ==> forall k :: i <= k <= |s| ==> ClassAt(s, k).None?
  {
    match ClassAt(s, i)
    case Some(n) => Some(n)
    case None => if i == |s| then None else FirstClass(s, i + 1)
  }

  const DefaultBase := "GeneratedStrategy"

  /** `filename_from_class` at Unix time `now`: `<class or GeneratedStrategy>_<now>.py`. */
  function FilenameFromClass(code: string, now: nat): (f: string)
    ensures var base := if FirstClass(code, 0).Some? then FirstClass(code, 0).value else DefaultBase;
      f == base + "_" + NatToString(now) + ".py"
  {
    var base := match FirstClass(code, 0) case Some(n) => n case None => DefaultBase;
    base + "_" + NatToString(now) + ".py"
  }

  /**
   * The file name splits back into its parts: the base is a non-empty word, the suffix
   * is the timestamp's digits, and the name ends in `.py`.
   */
  lemma FilenameParts(code: string, now: nat)
    ensures var f := FilenameFromClass(code, now);
      var base := if FirstClass(code, 0).Some? then FirstClass(code, 0).value else DefaultBase;
      var digits := NatToString(now);
      EndsWith(f, ".py") && StartsWith(f, base + "_")
      && f[|base| + 1..|f| - 3] == digits && DigitsValue(digits) == now
      && base != [] && forall k :: 0 <= k < |base| ==> IsWordChar(base[k])
  {
    var base := if FirstClass(code, 0).Some? then FirstClass(code, 0).value else DefaultBase;
    NameSplits(base, NatToString(now));
    NatToStringValue(now);
    BaseIsWord(code);
  }

  /** `base + "_" + digits + ".py"` splits back into `base` and `digits`. */
  lemma NameSplits(base: string, digits: string)
    ensures var f := base + "_" + digits + ".py";
      EndsWith(f, ".py") && StartsWith(f, base + "_") && f[|base| + 1..|f| - 3] == digits
  {
    var f := base + "_" + digits + ".py";
    assert f[|f| - 3..] == ".py";
    assert f[..|base| + 1] == base + "_";
    assert f[|base| + 1..|f| - 3] == digits;
  }

  /** The base of the file name is a non-empty word. */
  lemma BaseIsWord(code: string)
    ensures var base := if FirstClass(code, 0).Some? then FirstClass(code, 0).value else DefaultBase;
      base != [] && forall k :: 0 <= k < |base| ==> IsWordChar(base[k])
  {
    if FirstClass(code, 0).Some? {
      var k :| 0 <= k <= |code| && ClassAt(code, k) == FirstClass(code, 0);
    }
  }

  // ---------------------------------------------------------------------------
  // load_prompt_config and main
  // ---------------------------------------------------------------------------

  datatype Prompts = Prompts(system: Value, user: Value)

  /**
   * `load_prompt_config`: the `agents.StrategyLab` entries win over top-level ones (a
   * falsy nested value falls through); a missing file, a document or section that is not
   * a dict, or a missing or empty prompt fails.
   */
  function LoadPromptConfig(file: Option<Value>): (r: Loaded<Prompts>)
    ensures file.None? ==> r == Fail(FileNotFound)
    ensures r.Ok? ==> Truthy(r.value.system) && Truthy(r.value.user)
  {
    match file
    case None => Fail(FileNotFound)
    case Some(config) =>
      if !config.Obj? then Fail(AttributeError)
      else
        var agents := GetOr(config.fields, "agents", Obj(map[]));
        if !agents.Obj? then Fail(AttributeError)
        else
          var lab := GetOr(agents.fields, "StrategyLab", Obj(map[]));
          if !lab.Obj? then Fail(AttributeError)
          else
            var system := Or(GetOr(lab.fields, "system_prompt", Null), GetOr(config.fields, "system_prompt", Null));
            var user := Or(GetOr(lab.fields, "user_prompt", Null), GetOr(config.fields, "user_prompt", Null));
            if !Truthy(system) || !Truthy(user) then Fail(ValueError) else Ok(Prompts(system, user))
  }

  /** A truthy nested prompt wins; otherwise the top-level one is used, and an absent or empty pair fails. */
  lemma PromptPrecedence(config: map<string, Value>, lab: map<string, Value>)
    requires "agents" in config && config["agents"].Obj? && config["agents"].fields == map["StrategyLab" := Obj(lab)]
    ensures var r := LoadPromptConfig(Some(Obj(config)));
      var sys := if Truthy(GetOr(lab, "system_prompt", Null)) then GetOr(lab, "system_prompt", Null) else GetOr(config, "system_prompt", Null);
      var usr := if Truthy(GetOr(lab, "user_prompt", Null)) then GetOr(lab, "user_prompt", Null) else GetOr(config, "user_prompt", Null);
      (r.Ok? <==> Truthy(sys) && Truthy(usr))
      && (r.Ok? ==> r.value == Prompts(sys, usr))
      && (r.Fail? ==> r.why == ValueError)
  {
  }

  /**
   * Where the strategy is written: the expanded setting, unless expansion left it as it
   * was or blank, in which case the default directory.
   */
  function ResolveDir(raw: string, expand: string -> string, defaultDir: string): (d: string)
    ensures expand(raw) != raw && Strip(expand(raw)) != [] ==> d == expand(raw)
    ensures expand(raw) == raw || Strip(expand(raw)) == [] ==> d == defaultDir
  {
    var resolved := expand(raw);
    if resolved == raw || Strip(resolved) == [] then defaultDir else resolved
  }

  /** Why a run of the lab ends without a file. */
  datatype LabFailure = Client(why: Failure) | KeyError | TypeError | NoCodeBlock

  datatype LabResult = Failed(failure: LabFailure) | Wrote(dir: string, name: string, code: string, user: Value)

  const DefaultDirSetting := "user_data/strategies/"

  /**
   * `main`: load the client configuration, build the client, load the prompts, ask with
   * `spec` (when non-empty) or the configured user prompt, extract the code (an empty or
   * missing block is a `SystemExit`; content that is not a string makes the regular
   * expression search raise `TypeError`), then resolve the directory from the configuration's
   * `freqtrade` entry and write `<dir>/<filename>`.
   */
  function Run(cfgFile: Option<Value>, env: map<string, string>, promptFile: Option<Value>, spec: Option<string>,
               ask: (Value, Value) -> Reply, expand: string -> string, defaultDir: string, now: nat): (r: LabResult)
    ensures r.Wrote? ==> r.code != [] && r.name == FilenameFromClass(r.code, now)
    ensures r.Wrote? ==> (spec.Some? && spec.value != [] ==> r.user == Str(spec.value))
    ensures LoadCfg(cfgFile, env).Fail? ==> r == LabResult.Failed(Client(LoadCfg(cfgFile, env).why))
    ensures LoadCfg(cfgFile, env).Ok? && NewClient(LoadCfg(cfgFile, env).value).Fail?
            ==> r == LabResult.Failed(Client(NewClient(LoadCfg(cfgFile, env).value).why))
    ensures LoadCfg(cfgFile, env).Ok? && NewClient(LoadCfg(cfgFile, env).value).Ok? && LoadPromptConfig(promptFile).Fail?
            ==> r == LabResult.Failed(Client(LoadPromptConfig(promptFile).why))
    ensures r.Wrote? ==> LoadCfg(cfgFile, env).Ok? && NewClient(LoadCfg(cfgFile, env).value).Ok? && LoadPromptConfig(promptFile).Ok?
    ensures LoadCfg(cfgFile, env).Ok? && NewClient(LoadCfg(cfgFile, env).value).Ok? && LoadPromptConfig(promptFile).Ok? ==>
      var cfg := LoadCfg(cfgFile, env).value;
      var prompts := LoadPromptConfig(promptFile).value;
      var user := if spec.Some? && spec.value != [] then Str(spec.value) else prompts.user;
      var reply := ask(prompts.system, user);
      var code := if reply.Content? then ExtractCode(reply.text) else None;
      var raw := if "freqtrade" in cfg && cfg["freqtrade"].Obj?
                 then GetOr(cfg["freqtrade"].fields, "strategy_dir", Str(DefaultDirSetting)) else Null;
      && (reply.RequestError? || reply.Unexpected? ==> r == LabResult.Failed(Client(RequestFailed)))
      && (reply.NotText? ==> r == LabResult.Failed(TypeError))
      && (reply.Content? && (code.None? || code.value == []) ==> r == LabResult.Failed(NoCodeBlock))
      && (code.Some? && code.value != [] && raw.Str? ==>
            r == Wrote(ResolveDir(raw.s, expand, defaultDir), FilenameFromClass(code.value, now), code.value, user))
  {
    match LoadCfg(cfgFile, env)
    case Fail(why) => LabResult.Failed(Client(why))
    case Ok(cfg) =>
      match NewClient(cfg)
      case Fail(why) => LabResult.Failed(Client(why))
      case Ok(_) =>
        match LoadPromptConfig(promptFile)
        case Fail(why) => LabResult.Failed(Client(why))
        case Ok(prompts) =>
          var user := if spec.Some? && spec.value != [] then Str(spec.value) else prompts.user;
          match ask(prompts.system, user)
          case Content(out) =>
            var code := ExtractCode(out);
            if code.None? || code.value == [] then LabResult.Failed(NoCodeBlock)
            else if "freqtrade" !in cfg then LabResult.Failed(KeyError)
            else if !cfg["freqtrade"].Obj? then LabResult.Failed(Client(AttributeError))
            else
              var raw := GetOr(cfg["freqtrade"].fields, "strategy_dir", Str(DefaultDirSetting));
              if !raw.Str? then LabResult.Failed(TypeError)
              else Wrote(ResolveDir(raw.s, expand, defaultDir), FilenameFromClass(code.value, now), code.value, user)
          case NotText(_) => LabResult.Failed(TypeError)
          case _ => LabResult.Failed(Client(RequestFailed))
  }
}
