/**
 * The LLM server verifier's decisions: the configuration check, the actions each check's
 * status triggers, the choice of the backup to restore and the replacement of the last
 * verified state. Service probes, the parsed YAML config, resource readings and the
 * model's reply are inputs; the actions are returned in the order they are taken, and
 * the only one with an effect the model keeps is the switch to the fallback model.
 */
module AutoVerify {
  import opened Wrappers
  import opened Text
  import opened Json
  import ParseReport

  // ---------------------------------------------------------------------------
  // _verify_configuration
  // ---------------------------------------------------------------------------

  /** What the configuration check found; a missing file gives only `config_exists`. */
  datatype ConfigStatus = Missing | Present(valid: bool, complete: bool, envVarsSet: bool)

  const RequiredConfigFields := ["name", "version", "schema", "mcpServers"]

  /** Python's `s.lstrip(chars)`. */
  function LStripSet(s: string, chars: set<char>): (r: string)
    ensures r == [] || r[0] !in chars
    ensures |r| <= |s| && r == s[|s| - |r|..]
    ensures forall i :: 0 <= i < |s| - |r| ==> s[i] in chars
  {
    if s != [] && s[0] in chars then LStripSet(s[1..], chars) else s
  }

  /** Python's `s.rstrip(chars)`. */
  function RStripSet(s: string, chars: set<char>): (r: string)
    ensures r == [] || r[|r| - 1] !in chars
    ensures |r| <= |s| && r == s[..|r|]
    ensures forall i :: |r| <= i < |s| ==> s[i] in chars
  {
    if s != [] && s[|s| - 1] in chars then RStripSet(s[..|s| - 1], chars) else s
  }

  const RefChars := {'$', '{', '}'}

  /** The variable a reference such as `${NAME}` names: `strip("${}")`. */
  function VarName(ref: string): (r: string)
    ensures r == [] || (r[0] !in RefChars && r[|r| - 1] !in RefChars)
  {
    var l := LStripSet(ref, RefChars);
    var r := RStripSet(l, RefChars);
    assert r != [] ==> r[0] == l[0];
    r
  }

  /** `os.getenv(name)` is truthy: the variable is set and not empty. */
  predicate IsSet(environ: map<string, string>, name: string) {
    name in environ && environ[name] != []
  }

  /** The `env` dict of the first MCP server; `None` when any step of the lookup raises. */
  function ServerEnv(config: Value): (r: Option<map<string, Value>>)
    ensures r.Some? ==> config.Obj? && "mcpServers" in config.fields
  {
    if !config.Obj? || "mcpServers" !in config.fields then None
    else
      var servers := config.fields["mcpServers"];
      if !servers.Arr? || servers.items == [] then None
      else
        var first := servers.items[0];
        if !first.Obj? || "env" !in first.fields || !first.fields["env"].Obj? then None
        else Some(first.fields["env"].fields)
  }

  /** Every string value starting with `$` names a variable that is set. */
  predicate EnvVarsSet(env: map<string, Value>, environ: map<string, string>) {
    forall k :: k in env && env[k].Str? && StartsWith(env[k].s, "$") ==> IsSet(environ, VarName(env[k].s))
  }

  /**
   * `_verify_configuration`: a config that cannot be parsed, or whose server `env` cannot
   * be looked up, is invalid, incomplete and without its variables; otherwise it is valid,
   * complete when it has the four required fields, and the variables check is done.
   */
  function VerifyConfiguration(exists_: bool, parsed: Option<Value>, environ: map<string, string>): (r: ConfigStatus)
    ensures r.Missing? <==> !exists_
    ensures r.Present? ==> (r.valid <==> parsed.Some? && ServerEnv(parsed.value).Some?)
    ensures r.Present? ==> (r.complete <==> r.valid && forall f :: f in RequiredConfigFields ==> f in parsed.value.fields)
    ensures r.Present? ==> (r.envVarsSet <==> r.valid && EnvVarsSet(ServerEnv(parsed.value).value, environ))
  {
    if !exists_ then Missing
    else if parsed.None? then Present(false, false, false)
    else
      match ServerEnv(parsed.value)
      case None => Present(false, false, false)
      case Some(env) =>
        Present(true, forall f :: f in RequiredConfigFields ==> Has(parsed.value, f) == Some(true), EnvVarsSet(env, environ))
  }

  /** Stripping `${` and `}` from a placeholder gives back the name inside. */
  lemma PlaceholderName(name: string)
    requires name != [] && name[0] !in RefChars && name[|name| - 1] !in RefChars
    ensures VarName("${" + name + "}") == name
  {
    var ref := "${" + name + "}";
    var tail := name + "}";
    assert ref[1..][1..] == tail;
    assert LStripSet(ref, RefChars) == LStripSet(ref[1..], RefChars);
    assert LStripSet(ref[1..], RefChars) == LStripSet(tail, RefChars);
    assert tail[0] == name[0];
    assert LStripSet(tail, RefChars) == tail;
    assert tail[..|tail| - 1] == name;
    assert RStripSet(tail, RefChars) == RStripSet(name, RefChars);
    assert RStripSet(name, RefChars) == name;
  }

  /** A `${NAME}` reference is satisfied by a set variable and by nothing else. */
  lemma PlaceholderNamesVariable(name: string, environ: map<string, string>)
    requires name != [] && name[0] !in RefChars && name[|name| - 1] !in RefChars
    ensures EnvVarsSet(map["API_KEY" := Str("${" + name + "}")], environ) <==> IsSet(environ, name)
  {
    PlaceholderName(name);
    var ref := "${" + name + "}";
    var env := map["API_KEY" := Str(ref)];
    assert ref[..1] == "$";
    assert StartsWith(env["API_KEY"].s, "$");
    assert EnvVarsSet(env, environ) <==> IsSet(environ, VarName(env["API_KEY"].s));
  }

  // ---------------------------------------------------------------------------
  // _verify_model_responses
  // ---------------------------------------------------------------------------

  datatype ModelStatus = ModelStatus(responsive: bool, outputValid: bool)

  /** Python's `len(v)`; `None` for a value without one. */
  function LenOf(v: Value): Option<nat> {
    match v
    case Arr(items) => Some(|items|)
    case Str(s) => Some(|s|)
    case Obj(m) => Some(|m|)
    case _ => None
  }

  /**
   * `"choices" in data and len(data["choices"]) > 0 and "message" in data["choices"][0]`,
   * short-circuiting; `None` when a step raises (indexing a dict by 0 does, since JSON
   * keys are strings).
   */
  function OutputValid(data: Value): (r: Option<bool>)
    ensures data.Obj? && "choices" !in data.fields ==> r == Some(false)
    ensures r == Some(true) ==> data.Obj? && "choices" in data.fields
  {
    match Has(data, "choices")
    case None => None
    case Some(false) => Some(false)
    case Some(true) =>
      if !data.Obj? then None
      else
        var choices := data.fields["choices"];
        match LenOf(choices)
        case None => None
        case Some(n) =>
          if n == 0 then Some(false)
          else if choices.Arr? then Has(choices.items[0], "message")
          else if choices.Str? then Some(Contains([choices.s[0]], "message"))
          else None
  }

  /**
   * `_verify_model_responses`: responsive when the reply has status 200 and decodes; any
   * exception on the way (the request, the decoding, the output check) marks both false.
   */
  function VerifyModel(reply: Option<(int, Option<Value>)>): (r: ModelStatus)
    ensures r.outputValid ==> r.responsive
    ensures r.responsive ==> reply.Some? && reply.value.0 == 200
    ensures reply.Some? && reply.value.0 == 200 && reply.value.1.Some?
            && OutputValid(reply.value.1.value).Some?
            ==> r == ModelStatus(true, OutputValid(reply.value.1.value).value)
    ensures r.responsive ==> reply.value.1.Some? && OutputValid(reply.value.1.value).Some?
  {
    match reply
    case None => ModelStatus(false, false)
    case Some((code, body)) =>
      if code != 200 then ModelStatus(false, false)
      else if body.None? then ModelStatus(false, false)
      else
        match OutputValid(body.value)
        case None => ModelStatus(false, false)
        case Some(ok) => ModelStatus(true, ok)
  }

  // ---------------------------------------------------------------------------
  // the _handle_* decisions
  // ---------------------------------------------------------------------------

  datatype ServiceStatus = ServiceStatus(apiEndpoint: bool, pythonEnv: bool)

  datatype Action =
    | RestartApi
    | RepairEnv
    | RestoreBackup(archive: Option<string>)
    | RepairConfig
    | NotifyMissingEnvVars
    | WarnMemory(percent: real)
    | WarnCpu(percent: real)
    | WarnDisk(freeGb: real)
    | ReloadModel
    | SwitchToFallback(model: string)

  /** `_handle_service_issues`: the two checks act independently. */
  function ServiceActions(s: ServiceStatus): (r: seq<Action>)
    ensures RestartApi in r <==> !s.apiEndpoint
    ensures RepairEnv in r <==> !s.pythonEnv
    ensures forall a :: a in r ==> a == RestartApi || a == RepairEnv
  {
    (if s.apiEndpoint then [] else [RestartApi]) + (if s.pythonEnv then [] else [RepairEnv])
  }

  /**
   * `_restore_config_backup`'s choice: nothing without the backup directory or an archive
   * in it; otherwise the newest archive, the first in glob order among equally new ones.
   */
  function BackupChoice(dirExists: bool, backups: seq<ParseReport.Listed>): (r: Option<string>)
    ensures r.None? <==> !dirExists || backups == []
    ensures r.Some? ==> exists k :: (0 <= k < |backups| && backups[k].path == r.value
      && (forall i :: 0 <= i < |backups| ==> backups[i].mtime <= backups[k].mtime)
      && (forall i :: 0 <= i < k ==> backups[i].mtime < backups[k].mtime))
  {
    if !dirExists || backups == [] then None
    else
      var k := ParseReport.Newest(backups);
      Some(backups[k].path)
  }

  /** `_handle_config_issues`: at most one action, the first that applies of restore, repair and notify. */
  function ConfigActions(c: ConfigStatus, dirExists: bool, backups: seq<ParseReport.Listed>): (r: seq<Action>)
    ensures |r| <= 1
    ensures c.Missing? ==> r == [RestoreBackup(BackupChoice(dirExists, backups))]
    ensures c.Present? && !c.valid ==> r == [RepairConfig]
    ensures c.Present? && c.valid && !c.envVarsSet ==> r == [NotifyMissingEnvVars]
    ensures r == [] <==> c.Present? && c.valid && c.envVarsSet
  {
    if c.Missing? then [RestoreBackup(BackupChoice(dirExists, backups))]
    else if !c.valid then [RepairConfig]
    else if !c.envVarsSet then [NotifyMissingEnvVars]
    else []
  }

  /** `_handle_resource_issues`: a warning per reading beyond its limit; a missing reading never warns. */
  function ResourceWarnings(r: map<string, real>): (w: seq<Action>)
    ensures (exists p :: WarnMemory(p) in w) <==> "memory_percent" in r && r["memory_percent"] > 90.0
    ensures (exists p :: WarnCpu(p) in w) <==> "cpu_percent" in r && r["cpu_percent"] > 80.0
    ensures (exists p :: WarnDisk(p) in w) <==> "disk_free" in r && r["disk_free"] < 5.0
    ensures |w| <= 3
  {
    var mem := if "memory_percent" in r && r["memory_percent"] > 90.0 then [WarnMemory(r["memory_percent"])] else [];
    var cpu := if "cpu_percent" in r && r["cpu_percent"] > 80.0 then [WarnCpu(r["cpu_percent"])] else [];
    var disk := if "disk_free" in r && r["disk_free"] < 5.0 then [WarnDisk(r["disk_free"])] else [];
    var w := mem + cpu + disk;
    assert forall a :: a in w ==> a in mem || a in cpu || a in disk;
    w
  }

  const FallbackDefault := "gpt4all"

  /** `os.getenv("FALLBACK_MODEL", "gpt4all")`. */
  function Fallback(environ: map<string, string>): string {
    if "FALLBACK_MODEL" in environ then environ["FALLBACK_MODEL"] else FallbackDefault
  }

  /** `_handle_model_issues`: reload an unresponsive model, else switch a model with invalid output. */
  function ModelActions(m: ModelStatus, environ: map<string, string>): (r: seq<Action>)
    ensures |r| <= 1
    ensures !m.responsive ==> r == [ReloadModel]
    ensures m.responsive && !m.outputValid ==> r == [SwitchToFallback(Fallback(environ))]
    ensures r == [] <==> m.responsive && m.outputValid
  {
    if !m.responsive then [ReloadModel]
    else if !m.outputValid then [SwitchToFallback(Fallback(environ))]
    else []
  }

  // ---------------------------------------------------------------------------
  // the verifier
  // ---------------------------------------------------------------------------

  datatype Snapshot = Snapshot(services: ServiceStatus, config: ConfigStatus, resources: map<string, real>,
                               model: ModelStatus)

  datatype Verified = Verified(timestamp: string, state: Snapshot)

  class Verifier {
    var environ: map<string, string>
    var lastVerified: Option<Verified>

    constructor(environ: map<string, string>)
      ensures this.environ == environ && lastVerified.None?
    {
      this.environ := environ;
      lastVerified := None;
    }

    /**
     * `_run_verification_cycle`: each check followed by its handler, in the source's order,
     * then the new snapshot replaces the last one. The configuration is checked against
     * the environment as it was before a fallback switch.
     */
    method RunCycle(services: ServiceStatus, configExists: bool, parsed: Option<Value>, resources: map<string, real>,
                    reply: Option<(int, Option<Value>)>, backupDirExists: bool, backups: seq<ParseReport.Listed>,
                    now: string) returns (actions: seq<Action>)
      modifies this
      ensures var config := VerifyConfiguration(configExists, parsed, old(environ));
        var model := VerifyModel(reply);
        actions == ServiceActions(services) + ConfigActions(config, backupDirExists, backups)
                   + ResourceWarnings(resources) + ModelActions(model, old(environ))
        && lastVerified == Some(Verified(now, Snapshot(services, config, resources, model)))
      ensures environ == if VerifyModel(reply) == ModelStatus(true, false)
                         then old(environ)["MODEL_NAME" := Fallback(old(environ))] else old(environ)
    {
      actions := ServiceActions(services);
      var config := VerifyConfiguration(configExists, parsed, environ);
      actions := actions + ConfigActions(config, backupDirExists, backups);
      actions := actions + ResourceWarnings(resources);
      var model := VerifyModel(reply);
      var handled := ModelActions(model, environ);
      actions := actions + handled;
      if handled != [] && handled[0].SwitchToFallback? {
        environ := environ["MODEL_NAME" := handled[0].model];
      }
      UpdateState(Snapshot(services, config, resources, model), now);
    }

    /** `_update_verification_state`: the last verified state is replaced; no history is kept. */
    method UpdateState(state: Snapshot, now: string)
      modifies this
      ensures lastVerified == Some(Verified(now, state)) && environ == old(environ)
    {
      lastVerified := Some(Verified(now, state));
    }
  }
}
