/**
 * The shared chat-completion client: loading its configuration section with `${NAME}`
 * placeholders expanded, validating it, and the result-or-raise contract of `chat`.
 * The YAML parser, the environment and the HTTP reply are inputs.
 */
module LlmClient {
  import opened Wrappers
  import opened Text
  import opened Json
  import opened SelfLoopCommon

  /** The reasons loading or using the client fails. */
  datatype Failure = FileNotFound | AttributeError | ValueError | RequestFailed

  datatype Loaded<T> = Fail(why: Failure) | Ok(value: T)

  /** A value of the exact form `${NAME}`. */
  predicate IsPlaceholder(s: string) {
    StartsWith(s, "${") && EndsWith(s, "}")
  }

  /** A placeholder has room for its `${` and `}`. */
  lemma PlaceholderLength(s: string)
    requires IsPlaceholder(s)
    ensures |s| >= 3
  {
    assert s[1] == "${"[1] && s[|s| - 1] == "}"[0];
  }

  /** The `NAME` of a placeholder. */
  function PlaceholderName(s: string): string
    requires IsPlaceholder(s)
  {
    PlaceholderLength(s);
    s[2..|s| - 1]
  }

  /** One configuration value after expansion: a placeholder whose variable is set becomes its value. */
  function ExpandValue(v: Value, env: map<string, string>): (r: Value)
    ensures !(v.Str? && IsPlaceholder(v.s)) ==> r == v
    ensures v.Str? && IsPlaceholder(v.s) && PlaceholderName(v.s) !in env ==> r == v
    ensures v.Str? && IsPlaceholder(v.s) && PlaceholderName(v.s) in env ==> r == Str(env[PlaceholderName(v.s)])
  {
    if v.Str? && IsPlaceholder(v.s) && PlaceholderName(v.s) in env then Str(env[PlaceholderName(v.s)]) else v
  }

  /** The expanded section, entry by entry. */
  function Expanded(cfg: map<string, Value>, env: map<string, string>): (r: map<string, Value>)
    ensures r.Keys == cfg.Keys
  {
    map k | k in cfg :: ExpandValue(cfg[k], env)
  }

  /** The `load_cfg` loop: each entry of the section is rewritten in place. */
  method ExpandSection(cfg: map<string, Value>, env: map<string, string>) returns (out: map<string, Value>)
    ensures out == Expanded(cfg, env)
  {
    out := cfg;
    var todo := cfg.Keys;
    while todo != {}
      invariant todo <= cfg.Keys && ExpandedBut(cfg, env, out, todo)
      decreases |todo|
    {
      var k :| k in todo;
      var v := out[k];
      var nv := v;
      if v.Str? && IsPlaceholder(v.s) {
        PlaceholderLength(v.s);
        var name := v.s[2..|v.s| - 1];
        nv := if name in env then Str(env[name]) else v;
      }
      ExpandedStep(cfg, env, out, todo, k, nv);
      out := out[k := nv];
      todo := todo - {k};
    }
    ExpandedAll(cfg, env, out);
  }

  /** The loop's state: the keys outside `todo` are expanded, those in it untouched. */
  predicate ExpandedBut(cfg: map<string, Value>, env: map<string, string>, out: map<string, Value>, todo: set<string>) {
    out.Keys == cfg.Keys
    && (forall k :: k in cfg && k !in todo ==> out[k] == ExpandValue(cfg[k], env))
    && (forall k :: k in todo && k in cfg ==> out[k] == cfg[k])
  }

  lemma ExpandedStep(cfg: map<string, Value>, env: map<string, string>, out: map<string, Value>,
                     todo: set<string>, k: string, nv: Value)
    requires todo <= cfg.Keys && ExpandedBut(cfg, env, out, todo) && k in todo
    requires nv == ExpandValue(out[k], env)
    ensures ExpandedBut(cfg, env, out[k := nv], todo - {k})
  {
  }

  lemma ExpandedAll(cfg: map<string, Value>, env: map<string, string>, out: map<string, Value>)
    requires ExpandedBut(cfg, env, out, {})
    ensures out == Expanded(cfg, env)
  {
  }

  /**
   * `load_cfg`: a missing file raises `FileNotFoundError`; a document that is not a dict,
   * or an `llm` entry that is not one, fails on `.get`/`.items`; otherwise only the `llm`
   * section comes back, expanded, and `{}` when there is none.
   */
  function LoadCfg(file: Option<Value>, env: map<string, string>): (r: Loaded<map<string, Value>>)
    ensures file.None? ==> r == Fail(FileNotFound)
    ensures file.Some? && file.value.Obj? && "llm" !in file.value.fields ==> r == Ok(map[])
    ensures r.Ok? ==> file.Some? && file.value.Obj?
  {
    match file
    case None => Fail(FileNotFound)
    case Some(doc) =>
      if !doc.Obj? then Fail(AttributeError)
      else
        var section := GetOr(doc.fields, "llm", Obj(map[]));
        if !section.Obj? then Fail(AttributeError) else Ok(Expanded(section.fields, env))
  }

  /** Expansion touches only placeholders whose variable is set, and keeps every key. */
  lemma LoadCfgExpansion(doc: map<string, Value>, env: map<string, string>, k: string)
    requires "llm" in doc && doc["llm"].Obj? && k in doc["llm"].fields
    ensures var r := LoadCfg(Some(Obj(doc)), env);
      var v := doc["llm"].fields[k];
      r.Ok? && r.value.Keys == doc["llm"].fields.Keys
      && (v.Str? && IsPlaceholder(v.s) && PlaceholderName(v.s) in env ==> r.value[k] == Str(env[PlaceholderName(v.s)]))
      && (!(v.Str? && IsPlaceholder(v.s) && PlaceholderName(v.s) in env) ==> r.value[k] == v)
  {
  }

  /** The validated client settings, with their defaults. */
  datatype Settings = Settings(baseUrl: Value, model: Value, apiKey: Value,
                               temperature: Value, topP: Value, maxTokens: Value)

  /** `LLMClient.__init__`: `ValueError` unless base URL, model and key are all truthy. */
  function NewClient(cfg: map<string, Value>): (r: Loaded<Settings>)
    ensures r.Ok? <==> Truthy(GetOr(cfg, "base_url", Null)) && Truthy(GetOr(cfg, "model", Null)) && Truthy(GetOr(cfg, "api_key", Null))
    ensures r.Fail? ==> r.why == ValueError
    ensures r.Ok? && "temperature" !in cfg ==> r.value.temperature == Num(0.7)
    ensures r.Ok? && "top_p" !in cfg ==> r.value.topP == Num(0.95)
    ensures r.Ok? && "max_tokens" !in cfg ==> r.value.maxTokens == Num(1024.0)
  {
    var s := Settings(GetOr(cfg, "base_url", Null), GetOr(cfg, "model", Null), GetOr(cfg, "api_key", Null),
                      GetOr(cfg, "temperature", Num(0.7)), GetOr(cfg, "top_p", Num(0.95)),
                      GetOr(cfg, "max_tokens", Num(1024.0)));
    if !Truthy(s.baseUrl) || !Truthy(s.model) || !Truthy(s.apiKey) then Fail(ValueError) else Ok(s)
  }

  /**
   * The response column of the client's log entry: the content when it is a string, its
   * `str()` when it is not (`None` for `null`), and `[ERROR]` with the exception text.
   */
  function LoggedResponse(reply: Reply, errText: string, str: Value -> string): string {
    match reply
    case Content(text) => text
    case NotText(v) => if v.Null? then "None" else str(v)
    case _ => "[ERROR] " + errText
  }

  /**
   * `chat`: the message content, whatever its JSON type, or the exception re-raised;
   * either way one log entry is written, holding the content or `[ERROR]` and the
   * exception text. `str` is Python's `str()` of a decoded value that is not a string.
   */
  function Chat(reply: Reply, errText: string, str: Value -> string): (r: (Loaded<Value>, string))
    ensures r.0.Ok? <==> reply.Content? || reply.NotText?
    ensures reply.Content? ==> r.0.value == Str(reply.text) && r.1 == reply.text
    ensures reply.NotText? ==> r.0.value == reply.value && !r.0.value.Str?
    ensures reply.NotText? && reply.value.Null? ==> r.1 == "None"
    ensures reply.RequestError? || reply.Unexpected? ==> r.0 == Fail(RequestFailed) && StartsWith(r.1, "[ERROR] ")
  {
    match reply
    case Content(text) => (Ok(Str(text)), LoggedResponse(reply, errText, str))
    case NotText(v) => (Ok(v), LoggedResponse(reply, errText, str))
    case _ =>
      var logged := LoggedResponse(reply, errText, str);
      assert logged[..8] == "[ERROR] ";
      (Fail(RequestFailed), logged)
  }
}
