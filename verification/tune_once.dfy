/**
 * The one-shot tuner: for each timeframe and iteration it asks the chat endpoint for
 * parameters, normalises them, patches the strategy file's first `minimal_roi` and
 * `stoploss` assignments, runs a backtest over the iteration's day window, scrapes the
 * total profit from its output and keeps the best parameters seen.
 *
 * The HTTP reply, the backtester's standard output, the located executable, the JSON
 * decoder and encoder, float `repr` and date formatting are parameters.
 */
module TuneOnce {
  import opened Wrappers
  import opened Text
  import opened Numeric
  import opened Json
  import opened SelfLoopCommon
  import opened TuneScan

  // ---------------------------------------------------------------------------
  // call_llm and backtest_once
  // ---------------------------------------------------------------------------

  /** The outcome of `call_llm`: the message content, or the exception it raises. */
  datatype LlmCall = NoBase | CallFailed | Answer(content: string)

  /**
   * `call_llm` given the configured base URL and the endpoint's reply. Content that is
   * not a string comes back from the call but makes the scan for a JSON object raise
   * `TypeError` inside the iteration's `try`, so it ends the iteration like a failed call.
   */
  function CallLlm(base: string, reply: Reply): (r: LlmCall)
    ensures r.NoBase? <==> base == []
    ensures r.Answer? <==> base != [] && reply.Content?
  {
    if base == [] then NoBase
    else match reply
      case Content(text) => Answer(text)
      case _ => CallFailed
  }

  /** The request headers: JSON content always, a bearer token only when a key is configured. */
  function Headers(key: string): (h: map<string, string>)
    ensures "Content-Type" in h && h["Content-Type"] == "application/json"
    ensures "Authorization" in h <==> key != []
    ensures key != [] ==> h["Authorization"] == "Bearer " + key
  {
    var h := map["Content-Type" := "application/json"];
    if key != [] then h["Authorization" := "Bearer " + key] else h
  }

  /** `backtest_once`: exit status 1 without running when no executable was found, else the process's status. */
  function BacktestOnce(executable: Option<string>, status: int): (r: int)
    ensures executable.None? ==> r == 1
    ensures executable.Some? ==> r == status
  {
    if executable.None? then 1 else status
  }

  // ---------------------------------------------------------------------------
  // normalize_params
  // ---------------------------------------------------------------------------

  datatype Normalized = Normalized(roi: map<string, real>, sl: real)

  /** `{str(k): float(v) ...}` over a dict: `None` when some value is rejected by `float`. */
  function RoiTable(m: map<string, Value>): (r: Option<map<string, real>>)
    ensures r.Some? <==> forall k :: k in m ==> ToFloat(m[k]).Some?
    ensures r.Some? ==> r.value.Keys == m.Keys && forall k :: k in m ==> r.value[k] == ToFloat(m[k]).value
  {
    if forall k :: k in m ==> ToFloat(m[k]).Some? then Some(map k | k in m :: ToFloat(m[k]).value) else None
  }

  /** `normalize_params`; `None` is the `TypeError`/`ValueError` a rejected value raises. */
  function NormalizeParams(obj: map<string, Value>): Option<Normalized> {
    var roi :=
      if "minimal_roi" in obj && obj["minimal_roi"].Obj? then RoiTable(obj["minimal_roi"].fields)
      else if "minimal_roi_0" in obj then
        (match ToFloat(obj["minimal_roi_0"]) case None => None case Some(x) => Some(map["0" := x]))
      else Some(map["0" := 0.012]);
    var sl := ToFloat(GetOr(obj, "stoploss", Num(-0.11)));
    if roi.None? || sl.None? then None else Some(Normalized(roi.value, sl.value))
  }

  /**
   * A dict `minimal_roi` wins over `minimal_roi_0`, which wins over the default
   * `{"0": 0.012}`; the stop-loss defaults to -0.11; nothing is clamped.
   */
  lemma NormalizePrecedence(obj: map<string, Value>)
    ensures var n := NormalizeParams(obj);
      var sl := ToFloat(GetOr(obj, "stoploss", Num(-0.11)));
      (n.Some? ==> sl.Some? && n.value.sl == sl.value)
      && ("stoploss" !in obj ==> (n.Some? ==> n.value.sl == -0.11))
      && ("minimal_roi" in obj && obj["minimal_roi"].Obj? ==>
            (n.Some? <==> RoiTable(obj["minimal_roi"].fields).Some? && sl.Some?)
            && (n.Some? ==> n.value.roi == RoiTable(obj["minimal_roi"].fields).value))
      && (!("minimal_roi" in obj && obj["minimal_roi"].Obj?) && "minimal_roi_0" in obj ==>
            (n.Some? <==> ToFloat(obj["minimal_roi_0"]).Some? && sl.Some?)
            && (n.Some? ==> n.value.roi == map["0" := ToFloat(obj["minimal_roi_0"]).value]))
      && ("minimal_roi" !in obj && "minimal_roi_0" !in obj ==>
            (n.Some? <==> sl.Some?) && (n.Some? ==> n.value.roi == map["0" := 0.012]))
  {
  }

  /** An empty object (nothing found) normalises to the defaults. */
  lemma NormalizeEmpty()
    ensures NormalizeParams(map[]) == Some(Normalized(map["0" := 0.012], -0.11))
  {
  }

  // ---------------------------------------------------------------------------
  // patch_strategy
  // ---------------------------------------------------------------------------

  /** The two line-anchored assignment patterns `patch_strategy` looks for. */
  datatype LinePattern =
    | RoiLine   // (?m)^\s*minimal_roi\s*=\s*\{.*?\}  with DOTALL
    | StopLine  // (?m)^\s*stoploss\s*=\s*-?\d+(\.\d+)?

  /** `^` in multi-line mode: the start of the text or of a line. */
  predicate LineStart(s: string, i: nat) {
    i == 0 || (0 < i <= |s| && s[i - 1] == '\n')
  }

  /**
   * Where a match of `p` starting at `i` ends. The leading `\s*` may run over newlines,
   * so a match can begin with blank lines. Each greedy run is followed by a character it
   * cannot contain, and the optional fraction is taken whenever a digit follows the
   * point, so backtracking never changes the result.
   */
  function LineMatchAt(p: LinePattern, s: string, i: nat): (e: Option<nat>)
    requires i <= |s|
    ensures e.Some? ==> i < e.value <= |s|
  {
    if !LineStart(s, i) then None
    else
      match p
      case RoiLine => RoiEnd(s, SkipSpace(s, i))
      case StopLine => StopEnd(s, SkipSpace(s, i))
  }

  /** `minimal_roi\s*=\s*\{.*?\}` at `a`: the end of the first `}` after the brace. */
  function RoiEnd(s: string, a: nat): (e: Option<nat>)
    requires a <= |s|
    ensures e.Some? ==> a < e.value <= |s|
  {
    if !OccursAt(s, "minimal_roi", a) then None
    else
      var b := SkipSpace(s, a + 11);
      if b < |s| && s[b] == '=' then
        var c := SkipSpace(s, b + 1);
        if c < |s| && s[c] == '{' then
          match FindFrom(s, "}", c + 1)
          case None => None
          case Some(d) => Some(d + 1)
        else None
      else None
  }

  /** `stoploss\s*=\s*-?\d+(\.\d+)?` at `a`: the end of the digits, the fraction taken when present. */
  function StopEnd(s: string, a: nat): (e: Option<nat>)
    requires a <= |s|
    ensures e.Some? ==> a < e.value <= |s|
  {
    if !OccursAt(s, "stoploss", a) then None
    else
      var b := SkipSpace(s, a + 8);
      if b < |s| && s[b] == '=' then
        var c := SkipSpace(s, b + 1);
        var d := if c < |s| && s[c] == '-' then c + 1 else c;
        var e := SpanDigits(s, d);
        if d < e then
          if e < |s| && s[e] == '.' && e + 1 < SpanDigits(s, e + 1) then Some(SpanDigits(s, e + 1)) else Some(e)
        else None
      else None
  }

  /** `re.search` from `i`: the first match, as its start and end. */
  function FirstLineMatch(p: LinePattern, s: string, i: nat): (r: Option<(nat, nat)>)
    requires i <= |s|
    ensures r.Some? ==> i <= r.value.0 < r.value.1 <= |s| && LineMatchAt(p, s, r.value.0) == Some(r.value.1)
    ensures r.Some? ==> forall k :: i <= k < r.value.0 ==> LineMatchAt(p, s, k).None?
    ensures r.None? ==> forall k :: i <= k <= |s| ==> LineMatchAt(p, s, k).None?
  {
    var f := (k: nat) => if k <= |s| then LineMatchAt(p, s, k) else None;
    var r := FirstSome(f, |s|, i);
    assert forall k :: i <= k <= |s| ==> f(k) == LineMatchAt(p, s, k);
    r
  }

  /** The first position in `[i, n]` where `f` gives a value, with that value. */
  function FirstSome(f: nat -> Option<nat>, n: nat, i: nat): (r: Option<(nat, nat)>)
    requires i <= n
    decreases n - i
    ensures r.Some? ==> i <= r.value.0 <= n && f(r.value.0) == Some(r.value.1)
    ensures r.Some? ==> forall k :: i <= k < r.value.0 ==> f(k).None?
    ensures r.None? ==> forall k :: i <= k <= n ==> f(k).None?
  {
    match f(i)
    case Some(e) => Some((i, e))
    case None => if i == n then None else FirstSome(f, n, i + 1)
  }

  // ---------------------------------------------------------------------------
  // re.sub replacement templates
  // ---------------------------------------------------------------------------

  /** A piece of a parsed replacement template: literal text, or the text of a group (0 is the whole match). */
  datatype Piece = Lit(text: string) | Ref(group: nat)

  predicate IsOctal(c: char) { '0' <= c <= '7' }

  predicate IsAsciiLetter(c: char) { 'a' <= c <= 'z' || 'A' <= c <= 'Z' }

  /** The one-letter escapes a template turns into a character: `\a \b \f \n \r \t \v` and `\\`. */
  function SimpleEscape(c: char): Option<char> {
    if c == 'a' then Some(7 as char)
    else if c == 'b' then Some(8 as char)
    else if c == 'f' then Some(12 as char)
    else if c == 'n' then Some('\n')
    else if c == 'r' then Some('\r')
    else if c == 't' then Some('\t')
    else if c == 'v' then Some(11 as char)
    else if c == '\\' then Some('\\')
    else None
  }

  /** The value of two or three octal digits. */
  function OctalValue(s: string): (r: nat)
    requires forall k :: 0 <= k < |s| ==> IsOctal(s[k])
    ensures |s| <= 1 ==> r < 8
    ensures |s| <= 2 ==> r < 64
    ensures |s| <= 3 ==> r < 512
    decreases |s|
  {
    if s == [] then 0
    else
      var d := s[|s| - 1];
      assert IsOctal(d);
      OctalValue(s[..|s| - 1]) * 8 + (d as int - '0' as int)
  }

  /** `piece` in front of the rest of a parse, which may have failed. */
  function Cons(piece: Piece, rest: Option<seq<Piece>>): (r: Option<seq<Piece>>)
    ensures r.Some? <==> rest.Some?
    ensures r.Some? ==> r.value == [piece] + rest.value
  {
    if rest.None? then None else Some([piece] + rest.value)
  }

  /** A group reference to `n`, which must be one of the pattern's groups. */
  function RefTo(n: nat, ngroups: nat, rest: Option<seq<Piece>>): (r: Option<seq<Piece>>)
    ensures r.Some? <==> n <= ngroups && rest.Some?
  {
    if n <= ngroups then Cons(Ref(n), rest) else None
  }

  /**
   * How `re.sub` reads a replacement template from `i`, for a pattern with `ngroups`
   * groups; `None` when reading raises. A backslash takes the next character: `g<name>`
   * names a group (only decimal names exist here), `0` starts an octal escape of up to
   * three digits, another digit a group number of one or two digits (or a three-digit
   * octal escape up to `\377`), a known letter its control character, any other ASCII
   * letter is an error, and anything else stays as it is, backslash included. A
   * backslash at the end is an error.
   */
  function ParseTemplate(t: string, ngroups: nat, i: nat): (r: Option<seq<Piece>>)
    requires i <= |t|
    ensures r.Some? ==> forall k :: 0 <= k < |r.value| && r.value[k].Ref? ==> r.value[k].group <= ngroups
    decreases |t| - i
  {
    if i == |t| then Some([])
    else if t[i] != '\\' then Cons(Lit([t[i]]), ParseTemplate(t, ngroups, i + 1))
    else if i + 1 == |t| then None
    else
      var c := t[i + 1];
      if c == 'g' then
        if i + 2 == |t| || t[i + 2] != '<' then None
        else
          match FindFrom(t, ">", i + 3)
          case None => None
          case Some(j) =>
            var name := t[i + 3..j];
            if name == [] || !AllDigits(name) then None
            else RefTo(DigitsValue(name), ngroups, ParseTemplate(t, ngroups, j + 1))
      else if c == '0' then
        var k := if i + 2 < |t| && IsOctal(t[i + 2]) then (if i + 3 < |t| && IsOctal(t[i + 3]) then i + 4 else i + 3) else i + 2;
        Cons(Lit([OctalValue(t[i + 1..k]) as char]), ParseTemplate(t, ngroups, k))
      else if IsDigit(c) then
        if i + 2 < |t| && IsDigit(t[i + 2]) then
          if IsOctal(c) && IsOctal(t[i + 2]) && i + 3 < |t| && IsOctal(t[i + 3]) then
            var v := OctalValue(t[i + 1..i + 4]);
            if v > 255 then None else Cons(Lit([v as char]), ParseTemplate(t, ngroups, i + 4))
          else RefTo(DigitValue(c) * 10 + DigitValue(t[i + 2]), ngroups, ParseTemplate(t, ngroups, i + 3))
        else RefTo(DigitValue(c), ngroups, ParseTemplate(t, ngroups, i + 2))
      else if SimpleEscape(c).Some? then Cons(Lit([SimpleEscape(c).value]), ParseTemplate(t, ngroups, i + 2))
      else if IsAsciiLetter(c) then None
      else Cons(Lit(['\\', c]), ParseTemplate(t, ngroups, i + 2))
  }

  /** The replacement text for one match: the pieces in order, each group by its text. */
  function Fill(pieces: seq<Piece>, groups: seq<string>): string
    requires forall k :: 0 <= k < |pieces| && pieces[k].Ref? ==> pieces[k].group < |groups|
    decreases |pieces|
  {
    if pieces == [] then []
    else (match pieces[0] case Lit(text) => text case Ref(n) => groups[n]) + Fill(pieces[1..], groups)
  }

  /** A template without a backslash reads as itself, whatever the match. */
  lemma {:induction false} PlainTemplate(t: string, ngroups: nat, i: nat, groups: seq<string>)
    requires i <= |t| && '\\' !in t[i..] && |groups| > ngroups
    ensures ParseTemplate(t, ngroups, i).Some?
    ensures Fill(ParseTemplate(t, ngroups, i).value, groups) == t[i..]
    decreases |t| - i
  {
    if i < |t| {
      assert t[i] in t[i..];
      assert t[i + 1..] == t[i..][1..];
      PlainTemplate(t, ngroups, i + 1, groups);
      var rest := ParseTemplate(t, ngroups, i + 1).value;
      assert ([Lit([t[i]])] + rest)[1..] == rest;
      assert t[i..] == [t[i]] + t[i + 1..];
    }
  }

  const EscapedQuote := "\\\""
  const EscapedBackslash := "\\\\"
  const UnicodeEscape := "\\u00e9"

  /**
   * What `json.dumps` escapes become in a template: `\"` stays as it is, `\\` becomes one
   * backslash, and the `\u` of a non-ASCII character raises.
   */
  lemma JsonEscapesInTemplates()
    ensures ParseTemplate(EscapedQuote, 0, 0) == Some([Lit(EscapedQuote)])
    ensures ParseTemplate(EscapedBackslash, 0, 0) == Some([Lit("\\")])
    ensures ParseTemplate(UnicodeEscape, 0, 0).None?
  {
    assert |EscapedQuote| == 2 && EscapedQuote[0] == '\\' && EscapedQuote[1] == '"';
    assert SimpleEscape('"').None? && !IsAsciiLetter('"') && !IsDigit('"');
    assert ParseTemplate(EscapedQuote, 0, 2) == Some([]);
    assert ['\\', '"'] == EscapedQuote;
    assert ParseTemplate(EscapedQuote, 0, 0) == Cons(Lit(['\\', '"']), Some([]));
    assert [Lit(EscapedQuote)] + [] == [Lit(EscapedQuote)];
    assert |EscapedBackslash| == 2 && EscapedBackslash[0] == '\\' && EscapedBackslash[1] == '\\';
    assert ParseTemplate(EscapedBackslash, 0, 2) == Some([]);
    assert SimpleEscape('\\') == Some('\\');
    assert ParseTemplate(EscapedBackslash, 0, 0) == Cons(Lit(['\\']), Some([]));
    assert ['\\'] == "\\" && [Lit("\\")] + [] == [Lit("\\")];
    UnicodeEscapeRaises(UnicodeEscape, 0);
  }

  /** A `\u` in a template raises. */
  lemma UnicodeEscapeRaises(t: string, i: nat)
    requires i + 1 < |t| && t[i] == '\\' && t[i + 1] == 'u'
    ensures ParseTemplate(t, 0, i).None?
  {
    assert SimpleEscape('u').None? && IsAsciiLetter('u') && !IsDigit('u');
  }

  /** The number of groups of each line pattern: the stop-loss one has its optional fraction. */
  function GroupCount(p: LinePattern): nat {
    if p == RoiLine then 0 else 1
  }

  /**
   * The texts of a match's groups: the whole match, then, for the stop-loss line, the
   * fraction `.digits` when the match has one (its only `.`) and `""` when the group did
   * not take part.
   */
  function GroupsOf(p: LinePattern, s: string, m: (nat, nat)): (g: seq<string>)
    requires m.0 <= m.1 <= |s|
    ensures |g| == GroupCount(p) + 1 && g[0] == s[m.0..m.1]
  {
    var whole := s[m.0..m.1];
    if p == RoiLine then [whole]
    else
      match Find(whole, ".")
      case None => [whole, []]
      case Some(k) => [whole, whole[k..]]
  }

  /**
   * `re.sub(..., count=1)`: the template is read first, and one that raises fails the
   * call whether or not the pattern matches; otherwise only the first match is replaced.
   */
  function SubFirst(p: LinePattern, s: string, template: string): (r: Option<string>)
    ensures r.None? <==> ParseTemplate(template, GroupCount(p), 0).None?
    ensures r.Some? && FirstLineMatch(p, s, 0).None? ==> r.value == s
    ensures r.Some? && FirstLineMatch(p, s, 0).Some? ==>
      var m := FirstLineMatch(p, s, 0).value;
      r.value == s[..m.0] + Fill(ParseTemplate(template, GroupCount(p), 0).value, GroupsOf(p, s, m)) + s[m.1..]
  {
    match ParseTemplate(template, GroupCount(p), 0)
    case None => None
    case Some(pieces) =>
      match FirstLineMatch(p, s, 0)
      case None => Some(s)
      case Some(m) => Some(s[..m.0] + Fill(pieces, GroupsOf(p, s, m)) + s[m.1..])
  }

  const RoiLinePrefix := "    minimal_roi = "
  const StopLinePrefix := "    stoploss = "

  /** What `patch_strategy` does to the file. */
  datatype PatchOutcome =
    | NotFound            // the RuntimeError: an assignment is missing, nothing is written
    | BadTemplate         // re.sub raises on a replacement text, nothing is written
    | Unchanged           // the patched text equals the old one, nothing is written
    | Rewritten(text: string)

  /**
   * `patch_strategy` on the file's text, with the ROI table already rendered by
   * `json.dumps` and the stop-loss by `str`. Both replacement texts are `re.sub`
   * templates.
   */
  function Patch(src: string, roiJson: string, slText: string): (r: PatchOutcome)
    ensures r.NotFound? <==> FirstLineMatch(RoiLine, src, 0).None? || FirstLineMatch(StopLine, src, 0).None?
    ensures r.BadTemplate? <==> !r.NotFound? && (ParseTemplate(RoiLinePrefix + roiJson, 0, 0).None?
                                                 || ParseTemplate(StopLinePrefix + slText, 1, 0).None?)
    ensures r.Rewritten? ==> r.text != src
    ensures r.Rewritten? ==> r.text == SubFirst(StopLine, SubFirst(RoiLine, src, RoiLinePrefix + roiJson).value,
                                                StopLinePrefix + slText).value
  {
    if FirstLineMatch(RoiLine, src, 0).None? || FirstLineMatch(StopLine, src, 0).None? then NotFound
    else
      match SubFirst(RoiLine, src, RoiLinePrefix + roiJson)
      case None => BadTemplate
      case Some(s1) =>
        match SubFirst(StopLine, s1, StopLinePrefix + slText)
        case None => BadTemplate
        case Some(s2) => if s2 != src then Rewritten(s2) else Unchanged
  }

  /** A non-ASCII key in the ROI table comes out of `json.dumps` as a `\u` escape, and the patch then raises. */
  lemma NonAsciiKeyRaises(src: string, before: string, after: string, slText: string)
    requires FirstLineMatch(RoiLine, src, 0).Some? && FirstLineMatch(StopLine, src, 0).Some?
    requires '\\' !in before
    ensures Patch(src, before + UnicodeEscape + after, slText) == BadTemplate
  {
    EscapedRoiTemplate(before, after);
  }

  /** The ROI line's template over JSON with a `\u` escape, and no backslash before it, raises. */
  lemma EscapedRoiTemplate(before: string, after: string)
    requires '\\' !in before
    ensures ParseTemplate(RoiLinePrefix + (before + UnicodeEscape + after), 0, 0).None?
  {
    var t := RoiLinePrefix + (before + UnicodeEscape + after);
    var i := |RoiLinePrefix| + |before|;
    assert t[i] == '\\' && t[i + 1] == 'u';
    UnicodeEscapeRaises(t, i);
    forall k | 0 <= k < i ensures t[k] != '\\' {
      if k < |RoiLinePrefix| {
        assert t[k] == RoiLinePrefix[k];
      } else {
        assert t[k] == before[k - |RoiLinePrefix|];
      }
    }
    PlainPrefixRaises(t, 0, 0, i);
  }

  /** A template that raises at `i`, after plain text, raises from the start. */
  lemma {:induction false} PlainPrefixRaises(t: string, ngroups: nat, j: nat, i: nat)
    requires j <= i <= |t| && forall k :: j <= k < i ==> t[k] != '\\'
    requires ParseTemplate(t, ngroups, i).None?
    ensures ParseTemplate(t, ngroups, j).None?
    decreases i - j
  {
    if j < i {
      PlainPrefixRaises(t, ngroups, j + 1, i);
    }
  }

  /**
   * Only the first ROI assignment is replaced: the text before it and everything after
   * its end, later assignments included, is kept as it was.
   */
  lemma PatchRoiFirstOnly(src: string, roiJson: string)
    requires FirstLineMatch(RoiLine, src, 0).Some?
    ensures var m := FirstLineMatch(RoiLine, src, 0).value;
      var s1 := SubFirst(RoiLine, src, RoiLinePrefix + roiJson);
      (s1.Some? ==> exists mid :: s1.value == src[..m.0] + mid + src[m.1..])
      && ('\\' !in roiJson ==> s1 == Some(src[..m.0] + (RoiLinePrefix + roiJson) + src[m.1..]))
      && forall k :: 0 <= k < m.0 ==> LineMatchAt(RoiLine, src, k).None?
  {
    var m := FirstLineMatch(RoiLine, src, 0).value;
    var t := RoiLinePrefix + roiJson;
    var s1 := SubFirst(RoiLine, src, t);
    if s1.Some? {
      var mid := Fill(ParseTemplate(t, 0, 0).value, GroupsOf(RoiLine, src, m));
      assert s1.value == src[..m.0] + mid + src[m.1..];
    }
    if '\\' !in roiJson {
      forall k | 0 <= k < |t| ensures t[k] != '\\' {
        if k >= |RoiLinePrefix| {
          assert t[k] == roiJson[k - |RoiLinePrefix|];
        }
      }
      SubFirstPlain(RoiLine, src, t);
    }
  }

  /** A replacement text without a backslash goes in as it is. */
  lemma SubFirstPlain(p: LinePattern, s: string, template: string)
    requires forall k :: 0 <= k < |template| ==> template[k] != '\\'
    ensures FirstLineMatch(p, s, 0).None? ==> SubFirst(p, s, template) == Some(s)
    ensures FirstLineMatch(p, s, 0).Some? ==>
      var m := FirstLineMatch(p, s, 0).value;
      SubFirst(p, s, template) == Some(s[..m.0] + template + s[m.1..])
  {
    assert template[0..] == template;
    if FirstLineMatch(p, s, 0).Some? {
      var m := FirstLineMatch(p, s, 0).value;
      PlainTemplate(template, GroupCount(p), 0, GroupsOf(p, s, m));
    } else {
      PlainTemplate(template, GroupCount(p), 0, [[], []]);
    }
  }

  const BlankLineExample := "x\n\nminimal_roi={}"

  /** Blank lines before the assignment belong to the match, so patching removes them. */
  lemma PatchEatsBlankLines()
    ensures FirstLineMatch(RoiLine, BlankLineExample, 0) == Some((2, 17))
    ensures SubFirst(RoiLine, BlankLineExample, "R") == Some("x\nR")
  {
    var s := BlankLineExample;
    BlankLineMatches();
    assert FirstLineMatch(RoiLine, s, 2) == Some((2, 17));
    assert FirstLineMatch(RoiLine, s, 1) == Some((2, 17));
    assert s[..2] == "x\n";
    SubFirstPlain(RoiLine, s, "R");
    assert s[17..] == [];
    assert "x\n" + "R" + [] == "x\nR";
  }


  lemma BlankLineMatches()
    ensures LineMatchAt(RoiLine, BlankLineExample, 0).None?
    ensures LineMatchAt(RoiLine, BlankLineExample, 1).None?
    ensures LineMatchAt(RoiLine, BlankLineExample, 2) == Some(17)
  {
    var s := BlankLineExample;
    assert s[0] == 'x' && s[1] == '\n' && s[2] == '\n' && s[3] == 'm';
    assert SkipSpace(s, 0) == 0;
    assert !OccursAt(s, "minimal_roi", 0);
    assert !LineStart(s, 1);
    assert SkipSpace(s, 3) == 3;
    assert SkipSpace(s, 2) == 3;
    BlankLineRoiEnd();
  }

  lemma BlankLineRoiEnd()
    ensures RoiEnd(BlankLineExample, 3) == Some(17)
  {
    var s := BlankLineExample;
    assert |s| == 17;
    assert OccursAt(s, "minimal_roi", 3) by { assert s[3..14] == "minimal_roi"; }
    assert SkipSpace(s, 14) == 14;
    assert SkipSpace(s, 15) == 15;
    assert FindFrom(s, "}", 16) == Some(16) by { assert s[16..17] == "}"; }
  }

  // ---------------------------------------------------------------------------
  // parse_backtest_profit
  // ---------------------------------------------------------------------------

  const ProfitLabel := "Total profit %"
  const AsciiBar := '|'
  const BoxBar := '│'

  /**
   * `s[c..g]` is `-?\d+\.\d+` with nothing more to take: the digits after the point
   * run up to `g`.
   */
  predicate DecimalGroup(s: string, c: nat, g: nat)
    requires c < g <= |s|
  {
    var d := if s[c] == '-' then c + 1 else c;
    var e := SpanDigits(s, d);
    d < e < g && s[e] == '.' && e + 1 < g && SpanDigits(s, e + 1) == g
  }

  /**
   * The captured number of `Total profit %\s*<bar>\s*(-?\d+\.\d+)` at `i`, as the
   * bounds of the group.
   */
  function ProfitGroupAt(s: string, i: nat, bar: char): (r: Option<(nat, nat)>)
    requires i <= |s|
    ensures r.Some? ==> i < r.value.0 < r.value.1 <= |s| && DecimalGroup(s, r.value.0, r.value.1)
    ensures r.Some? ==> OccursAt(s, ProfitLabel, i)
  {
    if !OccursAt(s, ProfitLabel, i) then None
    else
      var a := SkipSpace(s, i + |ProfitLabel|);
      if a < |s| && s[a] == bar then
        var c := SkipSpace(s, a + 1);
        var d := if c < |s| && s[c] == '-' then c + 1 else c;
        var e := SpanDigits(s, d);
        if d < e < |s| && s[e] == '.' then
          var g := SpanDigits(s, e + 1);
          if e + 1 < g then Some((c, g)) else None
        else None
      else None
  }

  /** `re.search`: the match at the first position from `i` where the pattern matches. */
  function FirstProfitGroup(s: string, i: nat, bar: char): (r: Option<(nat, nat)>)
    requires i <= |s|
    decreases |s| - i
    ensures r.Some? ==> r.value.0 < r.value.1 <= |s| && DecimalGroup(s, r.value.0, r.value.1)
    ensures r.Some? ==> exists k :: i <= k <= |s| && ProfitGroupAt(s, k, bar) == r
    ensures r.None? ==> forall k :: i <= k <= |s| ==> ProfitGroupAt(s, k, bar).None?
  {
    match ProfitGroupAt(s, i, bar)
    case Some(g) => Some(g)
    case None => if i == |s| then None else FirstProfitGroup(s, i + 1, bar)
  }

  /** A captured `-?\d+\.\d+` converts with `float` to the signed value of its digits. */
  lemma GroupConverts(s: string, c: nat, g: nat)
    requires c < g <= |s| && DecimalGroup(s, c, g)
    ensures ParseFloat(s[c..g]).Some?
  {
    var neg := s[c] == '-';
    var d := if neg then c + 1 else c;
    var e := SpanDigits(s, d);
    var ip := s[d..e];
    var fp := s[e + 1..g];
    DigitSlice(s, d, e);
    DigitSlice(s, e + 1, g);
    GroupSplit(s, c, d, e, g);
    ParseSigned(neg, ip, fp, s[c..g], DigitsValue(ip) as real + ScaleDown(DigitsValue(fp) as real, |fp|));
  }

  /** A slice made of digits only. */
  lemma DigitSlice(s: string, i: nat, j: nat)
    requires i <= j <= |s| && forall k :: i <= k < j ==> IsDigit(s[k])
    ensures AllDigits(s[i..j])
  {
    assert forall k :: 0 <= k < j - i ==> s[i..j][k] == s[i + k];
  }

  /** A group is its optional sign, its integer digits, the point and its fraction digits. */
  lemma GroupSplit(s: string, c: nat, d: nat, e: nat, g: nat)
    requires c <= d < e < g <= |s| && s[e] == '.'
    requires d == (if s[c] == '-' then c + 1 else c)
    ensures s[c..g] == (if s[c] == '-' then "-" else "") + s[d..e] + "." + s[e + 1..g]
  {
    if s[c] == '-' {
      assert s[c..g] == [s[c]] + s[d..g];
    }
    assert s[d..g] == s[d..e] + [s[e]] + s[e + 1..g];
  }

  /** The number a captured group holds. */
  function GroupValue(s: string, c: nat, g: nat): real
    requires c < g <= |s| && DecimalGroup(s, c, g)
  {
    GroupConverts(s, c, g);
    ParseFloat(s[c..g]).value
  }

  const DebugHead := "\n--- Could not parse profit ---\n"
  const DebugTail := "\n-----------------------------\n"

  /**
   * `parse_backtest_profit`: the profit after an ASCII bar, else after a box-drawing
   * bar, else `-inf` together with the debug dump it appends.
   */
  function ParseBacktestProfit(out: string): (ExtReal, string) {
    var ascii := FirstProfitGroup(out, 0, AsciiBar);
    if ascii.Some? then (Finite(GroupValue(out, ascii.value.0, ascii.value.1)), "")
    else
      var box := FirstProfitGroup(out, 0, BoxBar);
      if box.Some? then (Finite(GroupValue(out, box.value.0, box.value.1)), "")
      else (NegInf, DebugHead + out + DebugTail)
  }

  /**
   * The sentinel and the dump go together: the result is `-inf`, with the output
   * appended to the debug file, exactly when neither pattern occurs; an ASCII-bar
   * match wins wherever a box-bar one stands.
   */
  lemma ProfitSentinel(out: string)
    ensures var (p, dump) := ParseBacktestProfit(out);
      (p.NegInf? <==> FirstProfitGroup(out, 0, AsciiBar).None? && FirstProfitGroup(out, 0, BoxBar).None?)
      && (p.NegInf? ==> dump == DebugHead + out + DebugTail)
      && (p.Finite? ==> dump == [])
      && (FirstProfitGroup(out, 0, AsciiBar).Some? ==>
            var m := FirstProfitGroup(out, 0, AsciiBar).value; p == Finite(GroupValue(out, m.0, m.1)))
  {
  }

  // ---------------------------------------------------------------------------
  // main
  // ---------------------------------------------------------------------------

  /** Iteration `i`'s window in day offsets: `base + i*d` to `base + (i+1)*d`. */
  function Window(base: int, days: int, i: nat): (w: (int, int))
    ensures w.1 - w.0 == days && w.0 == base + i * days
  {
    (base + i * days, base + i * days + days)
  }

  /** Consecutive iterations' windows meet end to start. */
  lemma WindowsAdjacent(base: int, days: int, i: nat)
    ensures Window(base, days, i).1 == Window(base, days, i + 1).0
  {
  }

  /** The `--timerange` text: both ends written by the date formatter, joined by `-`. */
  function Timerange(fmt: int -> string, base: int, days: int, i: nat): string {
    var w := Window(base, days, i);
    fmt(w.0) + "-" + fmt(w.1)
  }

  /** The best result so far: the parameters and the timeframe and window that produced them. */
  datatype Best = Best(roi: map<string, real>, sl: real, timeframe: string, timerange: string)

  const SpecText := "Return ONLY a single JSON object with either:\n"
    + "{ \"minimal_roi\": {\"0\": 0.01, \"60\": 0.0}, \"stoploss\": -0.1 }\n"
    + "or\n"
    + "{ \"minimal_roi_0\": 0.012, \"stoploss\": -0.11 }\n"
    + "No markdown, no code fences, no commentary.\n"

  /** The feedback line: empty on the first iteration, else the last profit as `fmt` renders it. */
  function Feedback(last: Option<ExtReal>, fmt: ExtReal -> string): (f: string)
    ensures f == [] <==> last.None?
    ensures last.Some? ==> Contains(f, fmt(last.value))
  {
    match last
    case None => ""
    case Some(p) =>
      var f := "Last backtest profit: " + fmt(p) + "%. Try to improve it.";
      assert OccursAt(f, fmt(p), 22) by { assert f[22..22 + |fmt(p)|] == fmt(p); }
      f
  }

  /** The prompt of one iteration: the fixed instructions followed by the feedback. */
  function Spec(last: Option<ExtReal>, fmt: ExtReal -> string): (s: string)
    ensures StartsWith(s, SpecText)
    ensures last.None? <==> s == SpecText
  {
    assert (SpecText + Feedback(last, fmt))[..|SpecText|] == SpecText;
    SpecText + Feedback(last, fmt)
  }

  /** The backtester's arguments; the same list in `backtest_once` and in `main`. */
  function BacktestArgs(executable: string, config: string, timeframe: string, timerange: string): (a: seq<string>)
    ensures |a| == 14 && a[0] == executable && a[1] == "backtesting"
    ensures a[2] == "-c" && a[3] == config
    ensures a[8] == "--timeframe" && a[9] == timeframe && a[10] == "--timerange" && a[11] == timerange
  {
    [executable, "backtesting", "-c", config, "--strategy", "SimpleAlwaysBuySell", "--strategy-path",
     "strategies", "--timeframe", timeframe, "--timerange", timerange, "--cache", "none"]
  }

  /** The tuner's state: the strategy text, the best result, the last profit and the debug file. */
  /** What asking, normalising and patching leave: the parameters, when nothing raised, and the strategy text. */
  datatype Prepared = Prepared(n: Option<Normalized>, strategy: string)

  /**
   * Ask, normalise and patch. An exception on the way (no base URL, a failed request,
   * a rejected value, a missing assignment, a replacement text `re.sub` cannot read)
   * ends the iteration; the strategy text changes only when patching rewrote it.
   */
  function Prepare(strategy: string, base: string, reply: Reply, decode: Decoder,
                   dumps: map<string, real> -> string, repr: real -> string): (r: Prepared)
    ensures var call := CallLlm(base, reply);
      (!call.Answer? ==> r.n.None? && r.strategy == strategy)
      && (call.Answer? ==>
            var obj := Scan(call.content, decode);
            var norm := NormalizeParams(if obj.Some? then obj.value else map[]);
            (norm.None? ==> r.n.None? && r.strategy == strategy)
            && (norm.Some? ==>
                  var out := Patch(strategy, dumps(norm.value.roi), repr(norm.value.sl));
                  (r.n.Some? <==> !out.NotFound? && !out.BadTemplate?) && (r.n.Some? ==> r.n == norm)
                  && r.strategy == (if out.Rewritten? then out.text else strategy)))
  {
    var call := CallLlm(base, reply);
    if !call.Answer? then Prepared(None, strategy)
    else
      var obj := Scan(call.content, decode);
      var norm := NormalizeParams(if obj.Some? then obj.value else map[]);
      if norm.None? then Prepared(None, strategy)
      else
        var out := Patch(strategy, dumps(norm.value.roi), repr(norm.value.sl));
        if out.NotFound? || out.BadTemplate? then Prepared(None, strategy)
        else if out.Rewritten? then Prepared(norm, out.text)
        else Prepared(norm, strategy)
  }

  /** One scored backtest: its parsed profit, the parameters it ran with, and the output it was parsed from. */
  datatype Trial = Trial(profit: ExtReal, params: Best, output: string)

  /** The profits of the trials, in order. */
  function ProfitsOf(ts: seq<Trial>): (r: seq<ExtReal>)
    ensures |r| == |ts|
    decreases |ts|
  {
    if ts == [] then [] else ProfitsOf(ts[..|ts| - 1]) + [ts[|ts| - 1].profit]
  }

  /** The best pair a run leaves: the strictly-greater fold over the trials' profits, with the parameters where it was last set. */
  predicate BestOver(profit: ExtReal, params: Option<Best>, start: ExtReal, startParams: Option<Best>, ts: seq<Trial>) {
    var a := ArgFrom(start, ProfitsOf(ts));
    profit == MaxFrom(start, ProfitsOf(ts))
    && params == (if a.Some? then Some(ts[a.value].params) else startParams)
  }

  /** Each trial's profit is the one parsed from its output, and its parameters name one of the run's timeframes and windows. */
  predicate FromTrials(ts: seq<Trial>, timeframes: seq<string>, numIter: int, base: int, days: int, fmt: int -> string) {
    forall k :: 0 <= k < |ts| ==>
      ts[k].profit == ParseBacktestProfit(ts[k].output).0 && FromRun(Some(ts[k].params), timeframes, numIter, base, days, fmt)
  }

  /** One more trial moves the best pair exactly as `Record` does. */
  lemma BestOverSnoc(profit: ExtReal, params: Option<Best>, start: ExtReal, startParams: Option<Best>, ts: seq<Trial>, t: Trial)
    requires BestOver(profit, params, start, startParams, ts)
    ensures Greater(t.profit, profit) ==> BestOver(t.profit, Some(t.params), start, startParams, ts + [t])
    ensures !Greater(t.profit, profit) ==> BestOver(profit, params, start, startParams, ts + [t])
  {
    assert (ts + [t])[..|ts|] == ts;
    assert ProfitsOf(ts + [t]) == ProfitsOf(ts) + [t.profit];
    MaxFromSnoc(start, ProfitsOf(ts), t.profit);
    var a := ArgFrom(start, ProfitsOf(ts));
    if a.Some? {
      assert (ts + [t])[a.value] == ts[a.value];
    }
  }

  /**
   * One scored backtest of timeframe `tf` over `timerange` was added to the trials, and
   * the best pair moved as `Record` moves it.
   */
  predicate Scored(before: seq<Trial>, after: seq<Trial>, bp: ExtReal, bq: Option<Best>, ap: ExtReal, aq: Option<Best>,
                   tf: string, timerange: string) {
    |after| == |before| + 1 && after == before + [after[|before|]]
    && var t := after[|before|];
    t.params.timeframe == tf && t.params.timerange == timerange && t.profit == ParseBacktestProfit(t.output).0
    && (Greater(t.profit, bp) ==> ap == t.profit && aq == Some(t.params))
    && (!Greater(t.profit, bp) ==> ap == bp && aq == bq)
  }

  /** A scored step keeps the run's best pair the fold over its trials, each from the run. */
  lemma ScoredStep(start: ExtReal, startParams: Option<Best>, n0: nat, before: seq<Trial>, after: seq<Trial>,
                   bp: ExtReal, bq: Option<Best>, ap: ExtReal, aq: Option<Best>,
                   timeframes: seq<string>, tf: string, numIter: int, base: int, days: int, fmt: int -> string, i: nat)
    requires n0 <= |before| && tf in timeframes && i < numIter
    requires BestOver(bp, bq, start, startParams, before[n0..])
    requires FromTrials(before[n0..], timeframes, numIter, base, days, fmt)
    requires Scored(before, after, bp, bq, ap, aq, tf, Timerange(fmt, base, days, i))
    ensures BestOver(ap, aq, start, startParams, after[n0..])
    ensures FromTrials(after[n0..], timeframes, numIter, base, days, fmt)
  {
    var t := after[|before|];
    SnocFrom(before, t, after, n0);
    BestOverSnoc(bp, bq, start, startParams, before[n0..], t);
    FromRunAt(t.params, timeframes, numIter, base, days, fmt, i);
    FromTrialsSnoc(before[n0..], t, timeframes, numIter, base, days, fmt);
  }

  /** The trials of this run after one more was appended. */
  lemma SnocFrom(before: seq<Trial>, t: Trial, after: seq<Trial>, n0: nat)
    requires n0 <= |before| && after == before + [t]
    ensures after[n0..] == before[n0..] + [t]
  {
  }

  /** Parameters on a timeframe of the run and the window of one of its iterations come from the run. */
  lemma FromRunAt(b: Best, timeframes: seq<string>, numIter: int, base: int, days: int, fmt: int -> string, i: nat)
    requires b.timeframe in timeframes && i < numIter && b.timerange == Timerange(fmt, base, days, i)
    ensures FromRun(Some(b), timeframes, numIter, base, days, fmt)
  {
  }

  /** A trial scored from its own output, on one of the run's timeframes and windows, keeps `FromTrials`. */
  lemma FromTrialsSnoc(ts: seq<Trial>, t: Trial, timeframes: seq<string>, numIter: int, base: int, days: int, fmt: int -> string)
    requires FromTrials(ts, timeframes, numIter, base, days, fmt)
    requires t.profit == ParseBacktestProfit(t.output).0 && FromRun(Some(t.params), timeframes, numIter, base, days, fmt)
    ensures FromTrials(ts + [t], timeframes, numIter, base, days, fmt)
  {
    var us := ts + [t];
    forall k | 0 <= k < |us|
      ensures us[k].profit == ParseBacktestProfit(us[k].output).0 && FromRun(Some(us[k].params), timeframes, numIter, base, days, fmt)
    {
      if k < |ts| {
        assert us[k] == ts[k];
      } else {
        assert us[k] == t;
      }
    }
  }

  /** The tuner's whole state as a value, `trials` included. */
  datatype TuneState = TuneState(strategy: string, bestProfit: ExtReal, bestParams: Option<Best>,
                                 lastProfit: Option<ExtReal>, debug: string, trials: seq<Trial>)

  /** What one iteration depends on besides its prompt's reply, its timeframe and its window. */
  datatype TuneEnv = TuneEnv(llmBase: string, backtest: (string, string, string) -> string, executable: Option<string>,
                             decode: Decoder, dumps: map<string, real> -> string, repr: real -> string)

  /**
   * One iteration's effect on the state, and whether it stops the run: prepare the
   * strategy; with parameters and no executable, stop; with parameters and an executable,
   * backtest the prepared strategy and score its output.
   */
  function TuneStep(s: TuneState, tf: string, timerange: string, reply: Reply, env: TuneEnv): (r: (TuneState, bool))
    ensures r.1 ==> env.executable.None? && r.0.trials == s.trials
    ensures s.trials <= r.0.trials && |r.0.trials| <= |s.trials| + 1
    ensures r.0.trials == s.trials ==> r.0.bestProfit == s.bestProfit && r.0.bestParams == s.bestParams
    ensures r.0.trials != s.trials ==> Scored(s.trials, r.0.trials, s.bestProfit, s.bestParams, r.0.bestProfit, r.0.bestParams, tf, timerange)
  {
    var pr := Prepare(s.strategy, env.llmBase, reply, env.decode, env.dumps, env.repr);
    if pr.n.None? then (s.(strategy := pr.strategy), false)
    else if env.executable.None? then (s.(strategy := pr.strategy), true)
    else
      var out := env.backtest(pr.strategy, tf, timerange);
      var parsed := ParseBacktestProfit(out);
      var best := Best(pr.n.value.roi, pr.n.value.sl, tf, timerange);
      var t := Trial(parsed.0, best, out);
      assert (s.trials + [t])[|s.trials|] == t;
      var better := Greater(parsed.0, s.bestProfit);
      (TuneState(pr.strategy, if better then parsed.0 else s.bestProfit, if better then Some(best) else s.bestParams,
                 Some(parsed.0), s.debug + parsed.1, s.trials + [t]), false)
  }

  /**
   * `main`'s two loops from iteration `i` of timeframe `t` on: iteration `i` of timeframe
   * `t` is asked `Spec` of the last profit so far and backtests `Window(base, days, i)`.
   * The flag says whether an iteration stopped the run.
   */
  function RunFrom(s: TuneState, timeframes: seq<string>, numIter: int, t: nat, i: nat, base: int, days: int,
                   replies: (nat, nat, string) -> Reply, fmt: int -> string, fmt2: ExtReal -> string, env: TuneEnv): (r: (TuneState, bool))
    decreases |timeframes| - t, numIter - i
  {
    if t >= |timeframes| then (s, false)
    else if i as int >= numIter then RunFrom(s, timeframes, numIter, t + 1, 0, base, days, replies, fmt, fmt2, env)
    else
      var st := TuneStep(s, timeframes[t], Timerange(fmt, base, days, i), replies(t, i, Spec(s.lastProfit, fmt2)), env);
      if st.1 then st else RunFrom(st.0, timeframes, numIter, t, i + 1, base, days, replies, fmt, fmt2, env)
  }

  /**
   * Only a missing executable stops a run, and then no backtest was scored; otherwise
   * the run only adds trials.
   */
  lemma {:induction false} RunFromTrials(s: TuneState, timeframes: seq<string>, numIter: int, t: nat, i: nat, base: int, days: int,
                                         replies: (nat, nat, string) -> Reply, fmt: int -> string, fmt2: ExtReal -> string, env: TuneEnv)
    ensures var r := RunFrom(s, timeframes, numIter, t, i, base, days, replies, fmt, fmt2, env);
      s.trials <= r.0.trials && (r.1 ==> env.executable.None?)
      && (env.executable.None? ==> r.0.trials == s.trials && r.0.bestProfit == s.bestProfit && r.0.bestParams == s.bestParams)
    decreases |timeframes| - t, numIter - i
  {
    if t >= |timeframes| {
    } else if i as int >= numIter {
      RunFromTrials(s, timeframes, numIter, t + 1, 0, base, days, replies, fmt, fmt2, env);
    } else {
      var st := TuneStep(s, timeframes[t], Timerange(fmt, base, days, i), replies(t, i, Spec(s.lastProfit, fmt2)), env);
      if !st.1 {
        RunFromTrials(st.0, timeframes, numIter, t, i + 1, base, days, replies, fmt, fmt2, env);
      }
    }
  }

  /** Iteration `i2` of timeframe `t2` comes at or after iteration `i` of timeframe `t`. */
  predicate NotBefore(t: nat, i: nat, t2: nat, i2: nat) {
    t2 > t || (t2 == t && i2 >= i)
  }

  /** Without an executable an iteration stops the run exactly when it prepared parameters; otherwise it changes nothing. */
  lemma IdleStep(s: TuneState, tf: string, timerange: string, reply: Reply, env: TuneEnv)
    requires env.executable.None?
    ensures var pr := Prepare(s.strategy, env.llmBase, reply, env.decode, env.dumps, env.repr);
      TuneStep(s, tf, timerange, reply, env).1 == pr.n.Some?
      && (pr.n.None? ==> TuneStep(s, tf, timerange, reply, env).0 == s)
  {
    var pr := Prepare(s.strategy, env.llmBase, reply, env.decode, env.dumps, env.repr);
    assert pr.n.None? ==> pr.strategy == s.strategy;
  }

  /** Without an executable, the run stops at iteration `i` exactly when it prepares parameters, and goes on unchanged otherwise. */
  lemma IdleRun(s: TuneState, timeframes: seq<string>, numIter: int, t: nat, i: nat, base: int, days: int,
                replies: (nat, nat, string) -> Reply, fmt: int -> string, fmt2: ExtReal -> string, env: TuneEnv)
    requires env.executable.None? && t < |timeframes| && i < numIter
    ensures PreparesAt(s, t, i, replies, fmt2, env) ==> RunFrom(s, timeframes, numIter, t, i, base, days, replies, fmt, fmt2, env).1
    ensures !PreparesAt(s, t, i, replies, fmt2, env) ==>
      RunFrom(s, timeframes, numIter, t, i, base, days, replies, fmt, fmt2, env)
      == RunFrom(s, timeframes, numIter, t, i + 1, base, days, replies, fmt, fmt2, env)
  {
    IdleStep(s, timeframes[t], Timerange(fmt, base, days, i), replies(t, i, Spec(s.lastProfit, fmt2)), env);
  }

  /** Iteration `i2` of timeframe `t2`, asked with the prompt of state `s`, prepares parameters for `s`'s strategy. */
  predicate PreparesAt(s: TuneState, t2: nat, i2: nat, replies: (nat, nat, string) -> Reply, fmt2: ExtReal -> string, env: TuneEnv) {
    Prepare(s.strategy, env.llmBase, replies(t2, i2, Spec(s.lastProfit, fmt2)), env.decode, env.dumps, env.repr).n.Some?
  }

  /** Some iteration from iteration `i` of timeframe `t` on prepares parameters for `s`. */
  predicate SomePrepares(s: TuneState, timeframes: seq<string>, numIter: int, t: nat, i: nat,
                         replies: (nat, nat, string) -> Reply, fmt2: ExtReal -> string, env: TuneEnv) {
    exists t2: nat, i2: nat :: NotBefore(t, i, t2, i2) && t2 < |timeframes| && i2 < numIter && PreparesAt(s, t2, i2, replies, fmt2, env)
  }

  /** Without an executable, a run that does not stop changes nothing. */
  lemma {:induction false} NoExecutableKeeps(s: TuneState, timeframes: seq<string>, numIter: int, t: nat, i: nat, base: int, days: int,
                                             replies: (nat, nat, string) -> Reply, fmt: int -> string, fmt2: ExtReal -> string, env: TuneEnv)
    requires env.executable.None?
    ensures var r := RunFrom(s, timeframes, numIter, t, i, base, days, replies, fmt, fmt2, env);
      !r.1 ==> r.0 == s
    decreases |timeframes| - t, numIter - i
  {
    if t >= |timeframes| {
    } else if i as int >= numIter {
      NoExecutableKeeps(s, timeframes, numIter, t + 1, 0, base, days, replies, fmt, fmt2, env);
    } else {
      IdleRun(s, timeframes, numIter, t, i, base, days, replies, fmt, fmt2, env);
      if !PreparesAt(s, t, i, replies, fmt2, env) {
        NoExecutableKeeps(s, timeframes, numIter, t, i + 1, base, days, replies, fmt, fmt2, env);
      }
    }
  }

  /**
   * Without an executable, an iteration that prepared no parameters changes nothing, so
   * the run stops exactly when some remaining iteration's reply, asked with the unchanged
   * prompt, patches the unchanged strategy.
   */
  lemma {:induction false} NoExecutableStops(s: TuneState, timeframes: seq<string>, numIter: int, t: nat, i: nat, base: int, days: int,
                                             replies: (nat, nat, string) -> Reply, fmt: int -> string, fmt2: ExtReal -> string, env: TuneEnv)
    requires env.executable.None?
    ensures var r := RunFrom(s, timeframes, numIter, t, i, base, days, replies, fmt, fmt2, env);
      r.1 <==> SomePrepares(s, timeframes, numIter, t, i, replies, fmt2, env)
    decreases |timeframes| - t, numIter - i
  {
    SomePreparesStep(s, timeframes, numIter, t, i, replies, fmt2, env);
    if t >= |timeframes| {
    } else if i as int >= numIter {
      NoExecutableStops(s, timeframes, numIter, t + 1, 0, base, days, replies, fmt, fmt2, env);
    } else {
      IdleRun(s, timeframes, numIter, t, i, base, days, replies, fmt, fmt2, env);
      if !PreparesAt(s, t, i, replies, fmt2, env) {
        NoExecutableStops(s, timeframes, numIter, t, i + 1, base, days, replies, fmt, fmt2, env);
      }
    }
  }

  /** The remaining iterations are none past the last timeframe, the next timeframe's past the last iteration, else this one and the rest. */
  lemma SomePreparesStep(s: TuneState, timeframes: seq<string>, numIter: int, t: nat, i: nat,
                         replies: (nat, nat, string) -> Reply, fmt2: ExtReal -> string, env: TuneEnv)
    ensures t >= |timeframes| ==> !SomePrepares(s, timeframes, numIter, t, i, replies, fmt2, env)
    ensures t < |timeframes| && i as int >= numIter ==>
      (SomePrepares(s, timeframes, numIter, t, i, replies, fmt2, env) <==> SomePrepares(s, timeframes, numIter, t + 1, 0, replies, fmt2, env))
    ensures t < |timeframes| && i < numIter ==>
      (SomePrepares(s, timeframes, numIter, t, i, replies, fmt2, env)
       <==> PreparesAt(s, t, i, replies, fmt2, env) || SomePrepares(s, timeframes, numIter, t, i + 1, replies, fmt2, env))
  {
    if SomePrepares(s, timeframes, numIter, t, i, replies, fmt2, env) {
      var t2: nat, i2: nat :| NotBefore(t, i, t2, i2) && t2 < |timeframes| && i2 < numIter && PreparesAt(s, t2, i2, replies, fmt2, env);
      if i as int >= numIter {
        assert NotBefore(t + 1, 0, t2, i2);
      } else if !(t2 == t && i2 == i) {
        assert NotBefore(t, i + 1, t2, i2);
      }
    }
    if t < |timeframes| && i as int >= numIter && SomePrepares(s, timeframes, numIter, t + 1, 0, replies, fmt2, env) {
      var t2: nat, i2: nat :| NotBefore(t + 1, 0, t2, i2) && t2 < |timeframes| && i2 < numIter && PreparesAt(s, t2, i2, replies, fmt2, env);
      assert NotBefore(t, i, t2, i2);
    }
    if t < |timeframes| && i < numIter {
      if PreparesAt(s, t, i, replies, fmt2, env) {
        assert NotBefore(t, i, t, i);
      }
      if SomePrepares(s, timeframes, numIter, t, i + 1, replies, fmt2, env) {
        var t2: nat, i2: nat :| NotBefore(t, i + 1, t2, i2) && t2 < |timeframes| && i2 < numIter && PreparesAt(s, t2, i2, replies, fmt2, env);
        assert NotBefore(t, i, t2, i2);
      }
    }
  }



  /**
   * The tuner's state: the strategy file, the best profit and parameters, the last
   * profit fed back into the prompt, and the debug file. `trials` records, for the
   * proofs only, every backtest that was scored.
   */
  class Tuner {
    var strategy: string
    var bestProfit: ExtReal
    var bestParams: Option<Best>
    var lastProfit: Option<ExtReal>
    var debug: string
    ghost var trials: seq<Trial>

    predicate Valid()
      reads this
    {
      bestParams.Some? <==> bestProfit.Finite?
    }

    ghost function Snap(): TuneState
      reads this
    {
      TuneState(strategy, bestProfit, bestParams, lastProfit, debug, trials)
    }

    constructor(strategy: string, debug: string)
      ensures Valid()
      ensures this.strategy == strategy && this.debug == debug
      ensures bestProfit == NegInf && bestParams == None && lastProfit == None && trials == []
    {
      this.strategy := strategy;
      this.debug := debug;
      bestProfit := NegInf;
      bestParams := None;
      lastProfit := None;
      trials := [];
    }

    /**
     * `patch_strategy`: false when it raises (an assignment is missing or a replacement
     * text is bad); otherwise the file is written only when the text changed.
     */
    method PatchStrategy(roiJson: string, slText: string) returns (ok: bool)
      modifies this
      ensures var out := Patch(old(strategy), roiJson, slText);
        (ok <==> !out.NotFound? && !out.BadTemplate?)
        && strategy == (if out.Rewritten? then out.text else old(strategy))
      ensures bestProfit == old(bestProfit) && bestParams == old(bestParams) && lastProfit == old(lastProfit)
      ensures debug == old(debug) && trials == old(trials)
    {
      var out := Patch(strategy, roiJson, slText);
      if out.NotFound? || out.BadTemplate? {
        return false;
      }
      if out.Rewritten? {
        strategy := out.text;
      }
      return true;
    }

    /** Score a backtest's output and keep the parameters when the profit is strictly higher. */
    method Score(n: Normalized, tf: string, timerange: string, stdout: string)
      modifies this
      requires Valid()
      ensures Valid()
      ensures var parsed := ParseBacktestProfit(stdout);
        lastProfit == Some(parsed.0) && debug == old(debug) + parsed.1
        && trials == old(trials) + [Trial(parsed.0, Best(n.roi, n.sl, tf, timerange), stdout)]
        && (Greater(parsed.0, old(bestProfit)) ==> bestProfit == parsed.0 && bestParams == Some(Best(n.roi, n.sl, tf, timerange)))
        && (!Greater(parsed.0, old(bestProfit)) ==> bestProfit == old(bestProfit) && bestParams == old(bestParams))
      ensures strategy == old(strategy)
    {
      var parsed := ParseBacktestProfit(stdout);
      Record(parsed.0, parsed.1, Best(n.roi, n.sl, tf, timerange));
      trials := trials + [Trial(parsed.0, Best(n.roi, n.sl, tf, timerange), stdout)];
    }

    /** Record a parsed profit and its debug dump; `best` is kept when the profit is strictly higher. */
    method Record(p: ExtReal, dump: string, best: Best)
      modifies this
      requires Valid()
      ensures Valid()
      ensures lastProfit == Some(p) && debug == old(debug) + dump
      ensures Greater(p, old(bestProfit)) ==> bestProfit == p && bestParams == Some(best)
      ensures !Greater(p, old(bestProfit)) ==> bestProfit == old(bestProfit) && bestParams == old(bestParams)
      ensures strategy == old(strategy) && trials == old(trials)
    {
      debug := debug + dump;
      if Greater(p, bestProfit) {
        bestProfit := p;
        bestParams := Some(best);
      }
      lastProfit := Some(p);
    }

    /**
     * One iteration of `main` for timeframe `tf` and window `timerange`: prepare the
     * strategy, then stop the run when there is no executable, else backtest the
     * patched strategy and score it. Nothing but the strategy changes unless a backtest
     * is scored.
     */
    method Iteration(tf: string, timerange: string, llmBase: string, reply: Reply,
                     backtest: (string, string, string) -> string, executable: Option<string>,
                     decode: Decoder, dumps: map<string, real> -> string, repr: real -> string)
      returns (abort: bool)
      modifies this
      requires Valid()
      ensures Valid()
      ensures var pr := Prepare(old(strategy), llmBase, reply, decode, dumps, repr);
        strategy == pr.strategy
        && (abort <==> pr.n.Some? && executable.None?)
        && (pr.n.None? || executable.None? ==>
              bestProfit == old(bestProfit) && bestParams == old(bestParams) && lastProfit == old(lastProfit)
              && debug == old(debug) && trials == old(trials))
        && (pr.n.Some? && executable.Some? ==>
              var out := backtest(pr.strategy, tf, timerange);
              var parsed := ParseBacktestProfit(out);
              var best := Best(pr.n.value.roi, pr.n.value.sl, tf, timerange);
              lastProfit == Some(parsed.0) && debug == old(debug) + parsed.1
              && trials == old(trials) + [Trial(parsed.0, best, out)]
              && (Greater(parsed.0, old(bestProfit)) ==> bestProfit == parsed.0 && bestParams == Some(best))
              && (!Greater(parsed.0, old(bestProfit)) ==> bestProfit == old(bestProfit) && bestParams == old(bestParams)))
      ensures abort ==> executable.None? && trials == old(trials)
      ensures trials == old(trials) ==> bestProfit == old(bestProfit) && bestParams == old(bestParams)
      ensures trials != old(trials) ==> Scored(old(trials), trials, old(bestProfit), old(bestParams), bestProfit, bestParams, tf, timerange)
      ensures (Snap(), abort) == TuneStep(old(Snap()), tf, timerange, reply, TuneEnv(llmBase, backtest, executable, decode, dumps, repr))
    {
      var call := CallLlm(llmBase, reply);
      if !call.Answer? {
        return false;
      }
      var obj := ScanJsonObjects(call.content, decode);
      var norm := NormalizeParams(if obj.Some? then obj.value else map[]);
      if norm.None? {
        return false;
      }
      var patched := PatchStrategy(dumps(norm.value.roi), repr(norm.value.sl));
      if !patched {
        return false;
      }
      if executable.None? {
        return true;
      }
      Score(norm.value, tf, timerange, backtest(strategy, tf, timerange));
      return false;
    }

    /**
     * `main`'s loops over the timeframes and iterations; iteration `i` of timeframe `t`
     * sends `Spec` and gets `replies(t, i, spec)`, and backtests the window
     * `Window(base, days, i)`, the backtester printing `backtest(strategy, tf, range)`. The
     * new state is `RunFrom` over every iteration. A missing executable stops everything
     * with status 1 once an iteration has patched the strategy; every other failure only
     * skips the iteration. The best profit is the largest profit parsed during the run (or the one
     * held before), and the best parameters are those of the first backtest reaching it.
     */
    method Run(timeframes: seq<string>, numIter: int, base: int, days: int, llmBase: string,
               replies: (nat, nat, string) -> Reply, backtest: (string, string, string) -> string,
               executable: Option<string>, decode: Decoder, dumps: map<string, real> -> string,
               repr: real -> string, fmt: int -> string, fmt2: ExtReal -> string)
      returns (status: int)
      modifies this
      requires Valid()
      ensures Valid()
      ensures status == 0 || (status == 1 && executable.None?)
      ensures old(trials) <= trials
      ensures BestOver(bestProfit, bestParams, old(bestProfit), old(bestParams), trials[|old(trials)|..])
      ensures FromTrials(trials[|old(trials)|..], timeframes, numIter, base, days, fmt)
      ensures executable.None? ==> trials == old(trials) && bestProfit == old(bestProfit) && bestParams == old(bestParams)
      ensures var r := RunFrom(old(Snap()), timeframes, numIter, 0, 0, base, days, replies, fmt, fmt2,
                               TuneEnv(llmBase, backtest, executable, decode, dumps, repr));
        Snap() == r.0 && (status == 1 <==> r.1)
    {
      ghost var n0 := |trials|;
      assert trials[n0..] == [];
      ghost var env := TuneEnv(llmBase, backtest, executable, decode, dumps, repr);
      ghost var goal := RunFrom(Snap(), timeframes, numIter, 0, 0, base, days, replies, fmt, fmt2, env);
      var t := 0;
      while t < |timeframes|
        invariant t <= |timeframes|
        invariant RunFrom(Snap(), timeframes, numIter, t, 0, base, days, replies, fmt, fmt2, env) == goal
        invariant Valid()
        invariant old(trials) <= trials && n0 == |old(trials)|
        invariant BestOver(bestProfit, bestParams, old(bestProfit), old(bestParams), trials[n0..])
        invariant FromTrials(trials[n0..], timeframes, numIter, base, days, fmt)
        invariant executable.None? ==> trials == old(trials) && bestProfit == old(bestProfit) && bestParams == old(bestParams)
      {
        var tf := timeframes[t];
        var i: nat := 0;
        while i < numIter
          invariant RunFrom(Snap(), timeframes, numIter, t, i, base, days, replies, fmt, fmt2, env) == goal
          invariant Valid()
          invariant old(trials) <= trials
          invariant BestOver(bestProfit, bestParams, old(bestProfit), old(bestParams), trials[n0..])
          invariant FromTrials(trials[n0..], timeframes, numIter, base, days, fmt)
          invariant executable.None? ==> trials == old(trials) && bestProfit == old(bestProfit) && bestParams == old(bestParams)
        {
          var timerange := Timerange(fmt, base, days, i);
          var spec := Spec(lastProfit, fmt2);
          ghost var before, bp, bq := trials, bestProfit, bestParams;
          ghost var s := Snap();
          var abort := Iteration(tf, timerange, llmBase, replies(t, i, spec), backtest, executable, decode, dumps, repr);
          assert RunFrom(s, timeframes, numIter, t, i, base, days, replies, fmt, fmt2, env)
            == if abort then (Snap(), true) else RunFrom(Snap(), timeframes, numIter, t, i + 1, base, days, replies, fmt, fmt2, env);
          if abort {
            return 1;
          }
          if trials != before {
            ScoredStep(old(bestProfit), old(bestParams), n0, before, trials, bp, bq, bestProfit, bestParams,
                       timeframes, tf, numIter, base, days, fmt, i);
          }
          i := i + 1;
        }
        t := t + 1;
      }
      return 0;
    }
  }

  /** The best parameters name one of the run's timeframes and one of its iteration windows. */
  predicate FromRun(b: Option<Best>, timeframes: seq<string>, numIter: int, base: int, days: int, fmt: int -> string) {
    b.Some? && b.value.timeframe in timeframes
    && exists i: nat :: i < numIter && b.value.timerange == Timerange(fmt, base, days, i)
  }

}
