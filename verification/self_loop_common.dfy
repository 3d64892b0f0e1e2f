/**
 * The logic the three self-loop agents share: reading a parameter pair out of a chat
 * reply, clamping it into the variant's guard rails, rewriting the `minimal_roi` and
 * `stoploss` assignments of the strategy source, the fixed prefix of the backtest
 * command line, and cutting the "STRATEGY SUMMARY" block out of the backtest output.
 */
module SelfLoopCommon {
  import opened Wrappers
  import opened Text
  import opened Numeric
  import opened Json

  /** One variant's guard rails: the clamp ranges and the fallback pair. */
  datatype Bounds = Bounds(roiLo: real, roiHi: real, slLo: real, slHi: real, roiDefault: real, slDefault: real)

  /** The `minimal_roi["0"]` and `stoploss` values proposed for one loop. */
  datatype Params = Params(roi: real, sl: real)

  /** A decoded JSON value other than a string: `null`, a boolean, a number, a list or an object. */
  type NonText = v: Value | !v.Str? witness Null

  /** What the chat endpoint gave back. */
  datatype Reply =
    | RequestError            // the POST failed or returned an error status
    | Unexpected              // the reply JSON lacks `choices[0].message.content`
    | Content(text: string)   // the assistant's message text
    | NotText(value: NonText) // `content` is present but is not a string

  /** A reply whose message content cannot be read as text: it is missing, or it is not a string. */
  predicate NoText(reply: Reply) {
    reply.Unexpected? || reply.NotText?
  }

  /** The outcome of asking for parameters: a pair, or an exception that ends the run. */
  datatype Suggestion = Suggested(p: Params) | Raised

  /** Decodes a `{...}` candidate; `None` is `json.JSONDecodeError`. */
  type Decoder = string -> Option<map<string, Value>>

  /** The bounds of the original agent (also those of the agents variant). */
  const Original := Bounds(0.001, 0.10, -0.30, -0.01, 0.012, -0.11)

  /** The narrower bounds of the fixed agent. */
  const Fixed := Bounds(0.005, 0.050, -0.20, -0.03, 0.015, -0.08)

  predicate InRange(b: Bounds, p: Params) {
    b.roiLo <= p.roi <= b.roiHi && b.slLo <= p.sl <= b.slHi
  }

  /** The fallback pair lies inside the clamp ranges. */
  predicate WellFormed(b: Bounds) {
    InRange(b, Fallback(b))
  }

  function Fallback(b: Bounds): Params {
    Params(b.roiDefault, b.slDefault)
  }

  /** Python's `max(lo, min(x, hi))`. */
  function Clamp(lo: real, hi: real, x: real): (r: real)
    ensures lo <= hi ==> lo <= r <= hi
    ensures lo <= x <= hi ==> r == x
    ensures x < lo ==> r == lo
    ensures lo <= hi < x ==> r == hi
  {
    var m := if hi < x then hi else x;
    if m < lo then lo else m
  }

  /** Clamping is monotone: a larger proposal never yields a smaller value. */
  lemma ClampMonotone(lo: real, hi: real, x: real, y: real)
    requires lo <= hi && x <= y
    ensures Clamp(lo, hi, x) <= Clamp(lo, hi, y)
  {
  }

  /**
   * The first match of the lazy pattern `\{.*?\}` with DOTALL: from the first `{` to
   * the first `}` after it, across newlines.
   */
  function FirstBraceSpan(s: string): (r: Option<string>)
    ensures r.Some? ==> |r.value| >= 2 && r.value[0] == '{' && r.value[|r.value| - 1] == '}'
    ensures r.Some? ==> '}' !in r.value[..|r.value| - 1]
  {
    match Find(s, "{")
    case None => None
    case Some(i) =>
      match FindFrom(s, "}", i + 1)
      case None => None
      case Some(j) =>
        SpanShape(s, i, j);
        Some(s[i..j + 1])
  }

  lemma SpanShape(s: string, i: nat, j: nat)
    requires Find(s, "{") == Some(i) && FindFrom(s, "}", i + 1) == Some(j)
    ensures var r := s[i..j + 1];
      |r| >= 2 && r[0] == '{' && r[|r| - 1] == '}' && '}' !in r[..|r| - 1]
  {
    OccursAtChar(s, '{', i);
    OccursAtChar(s, '}', j);
    var r := s[i..j + 1];
    forall k | 0 <= k < |r| - 1
      ensures r[k] != '}'
    {
      if k > 0 {
        OccursAtChar(s, '}', i + k);
      }
    }
  }

  /** The pattern matches exactly when some `{` is followed, later, by a `}`. */
  lemma FirstBraceSpanExists(s: string)
    ensures FirstBraceSpan(s).Some? <==> exists i, j :: 0 <= i < j < |s| && s[i] == '{' && s[j] == '}'
  {
    if exists i, j :: 0 <= i < j < |s| && s[i] == '{' && s[j] == '}' {
      var i, j :| 0 <= i < j < |s| && s[i] == '{' && s[j] == '}';
      BraceSpanFound(s, i, j);
    }
    if FirstBraceSpan(s).Some? {
      var i := Find(s, "{").value;
      var j := FindFrom(s, "}", i + 1).value;
      OccursAtChar(s, '{', i);
      OccursAtChar(s, '}', j);
    }
  }

  /** A `{` before a `}` is enough for a match. */
  lemma BraceSpanFound(s: string, i: nat, j: nat)
    requires i < j < |s| && s[i] == '{' && s[j] == '}'
    ensures FirstBraceSpan(s).Some?
  {
    OccursAtChar(s, '{', i);
    var f := Find(s, "{");
    assert f.Some? && f.value <= i;
    OccursAtChar(s, '}', j);
    assert FindFrom(s, "}", f.value + 1).Some?;
  }

  /**
   * `_llm_chat_json` / `llm_tweak` after the HTTP call: take the first brace span,
   * decode it, convert the two fields with `float(data.get(key, default))`, and clamp.
   * `shapeErrorFallsBack` tells whether a reply without message content gives the
   * fallback (agents variant) or escapes as an exception (original and fixed). Content
   * that is not a string is read without error but makes `re.search`, outside every
   * `try`, raise `TypeError` in all three.
   */
  function Suggest(b: Bounds, reply: Reply, decode: Decoder, shapeErrorFallsBack: bool): (r: Suggestion)
    ensures r.Raised? <==> (reply.Unexpected? && !shapeErrorFallsBack) || reply.NotText?
    ensures WellFormed(b) && r.Suggested? ==> InRange(b, r.p)
  {
    match reply
    case RequestError => Suggested(Fallback(b))
    case Unexpected => if shapeErrorFallsBack then Suggested(Fallback(b)) else Raised
    case Content(text) => Suggested(ContentPair(b, text, decode))
    case NotText(_) => Raised
  }

  /** The pair read from a reply's message content; every failure gives the fallback. */
  function ContentPair(b: Bounds, text: string, decode: Decoder): (p: Params)
    ensures WellFormed(b) ==> InRange(b, p)
  {
    match FirstBraceSpan(text)
    case None => Fallback(b)
    case Some(span) =>
      match decode(span)
      case None => Fallback(b)
      case Some(data) =>
        var m0 := ToFloat(GetOr(data, "minimal_roi_0", Num(b.roiDefault)));
        var sl := ToFloat(GetOr(data, "stoploss", Num(b.slDefault)));
        if m0.None? || sl.None? then Fallback(b)
        else Params(Clamp(b.roiLo, b.roiHi, m0.value), Clamp(b.slLo, b.slHi, sl.value))
  }

  /** Both variants' fallback pairs lie inside their own clamp ranges. */
  lemma BoundsWellFormed()
    ensures WellFormed(Original) && WellFormed(Fixed)
  {
  }

  /**
   * A request error, a reply with no brace span, an undecodable span or a field that
   * `float` rejects all give exactly the fallback pair.
   */
  lemma SuggestFailures(b: Bounds, reply: Reply, decode: Decoder, fallsBack: bool)
    requires reply.RequestError? || (reply.Content? && FailedContent(b, reply.text, decode))
    ensures Suggest(b, reply, decode, fallsBack) == Suggested(Fallback(b))
  {
  }

  /** The ways a message text can fail to yield a pair. */
  predicate FailedContent(b: Bounds, text: string, decode: Decoder) {
    match FirstBraceSpan(text)
    case None => true
    case Some(span) =>
      match decode(span)
      case None => true
      case Some(data) =>
        ToFloat(GetOr(data, "minimal_roi_0", Num(b.roiDefault))).None?
        || ToFloat(GetOr(data, "stoploss", Num(b.slDefault))).None?
  }

  /**
   * A decoded object that lacks `stoploss` but has a numeric `minimal_roi_0` keeps the
   * clamped proposal for the first field and the default for the second.
   */
  lemma SuggestMissingStoploss(b: Bounds, text: string, decode: Decoder, fallsBack: bool, x: real)
    requires WellFormed(b)
    requires FirstBraceSpan(text).Some?
    requires var d := decode(FirstBraceSpan(text).value);
      d.Some? && "stoploss" !in d.value && "minimal_roi_0" in d.value && ToFloat(d.value["minimal_roi_0"]) == Some(x)
    ensures Suggest(b, Content(text), decode, fallsBack) == Suggested(Params(Clamp(b.roiLo, b.roiHi, x), b.slDefault))
  {
  }

  /** A decoded object that lacks `minimal_roi_0` keeps the default for it. */
  lemma SuggestMissingRoi(b: Bounds, text: string, decode: Decoder, fallsBack: bool, y: real)
    requires WellFormed(b)
    requires FirstBraceSpan(text).Some?
    requires var d := decode(FirstBraceSpan(text).value);
      d.Some? && "minimal_roi_0" !in d.value && "stoploss" in d.value && ToFloat(d.value["stoploss"]) == Some(y)
    ensures Suggest(b, Content(text), decode, fallsBack) == Suggested(Params(b.roiDefault, Clamp(b.slLo, b.slHi, y)))
  {
  }

  // ---------------------------------------------------------------------------------
  // Rewriting the strategy source with `re.sub`.

  /** The two assignment patterns `_mutate_strategy` rewrites. */
  datatype Pattern =
    | RoiAssign   // minimal_roi\s*=\s*\{[^}]*\}
    | StopAssign  // stoploss\s*=\s*[-]?\d+\.\d+

  /**
   * Where a match of `p` that starts at `i` ends, if there is one. Both patterns are
   * deterministic: each greedy run is followed by a character the run cannot contain,
   * so the backtracking matcher never gives anything back.
   */
  function MatchAt(p: Pattern, s: string, i: nat): (e: Option<nat>)
    requires i <= |s|
    ensures e.Some? ==> i < e.value <= |s|
  {
    match p
    case RoiAssign =>
      if !OccursAt(s, "minimal_roi", i) then None
      else
        var a := SkipSpace(s, i + 11);
        if a < |s| && s[a] == '=' then
          var c := SkipSpace(s, a + 1);
          if c < |s| && s[c] == '{' then
            match FindFrom(s, "}", c + 1)
            case None => None
            case Some(d) => Some(d + 1)
          else None
        else None
    case StopAssign =>
      if !OccursAt(s, "stoploss", i) then None
      else
        var a := SkipSpace(s, i + 8);
        if a < |s| && s[a] == '=' then
          var c := SkipSpace(s, a + 1);
          var d := if c < |s| && s[c] == '-' then c + 1 else c;
          var e := SpanDigits(s, d);
          if d < e < |s| && s[e] == '.' then
            var g := SpanDigits(s, e + 1);
            if e + 1 < g then Some(g) else None
          else None
        else None
  }

  /** A matcher: where a match starting at index `i` of `s` ends, if there is one. */
  type MatchFn = (string, nat) -> Option<nat>

  function Matcher(p: Pattern): MatchFn {
    (s: string, i: nat) => if i <= |s| then MatchAt(p, s, i) else None
  }

  /**
   * `re.sub` on `s[i..]` with a matcher whose matches are never empty: every
   * non-overlapping match, leftmost first, is replaced by `repl`.
   */
  function SubFrom(m: MatchFn, s: string, i: nat, repl: string): string
    requires i <= |s|
    decreases |s| - i
  {
    if i == |s| then []
    else
      var e := m(s, i);
      if e.Some? && i < e.value <= |s| then repl + SubFrom(m, s, e.value, repl)
      else [s[i]] + SubFrom(m, s, i + 1, repl)
  }

  function Sub(p: Pattern, s: string, repl: string): string {
    SubFrom(Matcher(p), s, 0, repl)
  }

  predicate NoMatchFrom(m: MatchFn, s: string, i: nat) {
    forall k: nat :: i <= k <= |s| ==> m(s, k).None?
  }

  /** Substituting a pattern that never matches leaves the text as it was. */
  lemma {:induction false} SubNoMatch(m: MatchFn, s: string, i: nat, repl: string)
    requires i <= |s| && NoMatchFrom(m, s, i)
    ensures SubFrom(m, s, i, repl) == s[i..]
    decreases |s| - i
  {
    if i < |s| {
      SubNoMatch(m, s, i + 1, repl);
    }
  }

  /**
   * The first match from `i` on is replaced, the text before it is kept, and the
   * substitution resumes where that match ended.
   */
  lemma {:induction false} SubFirstMatch(m: MatchFn, s: string, i: nat, k: nat, repl: string)
    requires i <= k < |s| && m(s, k).Some? && k < m(s, k).value <= |s|
    requires forall j: nat :: i <= j < k ==> m(s, j).None?
    ensures SubFrom(m, s, i, repl) == s[i..k] + repl + SubFrom(m, s, m(s, k).value, repl)
    decreases k - i
  {
    if i < k {
      SubCopies(m, s, i, repl);
      SubFirstMatch(m, s, i + 1, k, repl);
      Regroup(s, i, k, repl, SubFrom(m, s, m(s, k).value, repl));
    }
  }

  /** Where nothing matches, the character is copied. */
  lemma SubCopies(m: MatchFn, s: string, i: nat, repl: string)
    requires i < |s| && m(s, i).None?
    ensures SubFrom(m, s, i, repl) == [s[i]] + SubFrom(m, s, i + 1, repl)
  {
  }

  lemma Regroup(s: string, i: nat, k: nat, repl: string, rest: string)
    requires i < k <= |s|
    ensures [s[i]] + (s[i + 1..k] + repl + rest) == s[i..k] + repl + rest
  {
    assert s[i..k] == [s[i]] + s[i + 1..k];
  }

  /** `minimal_roi = {"0": x}` with `x` written to three decimals. */
  function RoiText(x: real): string {
    "minimal_roi = {\"0\": " + FormatFixed(x, 3) + "}"
  }

  /** `stoploss = x` with `x` written to two decimals. */
  function StopText(x: real): string {
    "stoploss = " + FormatFixed(x, 2)
  }

  /** `_mutate_strategy`: rewrite every ROI assignment, then every stop-loss assignment. */
  function Mutate(txt: string, p: Params): string {
    Sub(StopAssign, Sub(RoiAssign, txt, RoiText(p.roi)), StopText(p.sl))
  }

  /** A source with neither assignment is written back unchanged, and nothing fails. */
  lemma MutateNoMatch(txt: string, p: Params)
    requires forall k: nat :: k <= |txt| ==> MatchAt(RoiAssign, txt, k).None? && MatchAt(StopAssign, txt, k).None?
    ensures Mutate(txt, p) == txt
  {
    SubNoMatch(Matcher(RoiAssign), txt, 0, RoiText(p.roi));
    SubNoMatch(Matcher(StopAssign), txt, 0, StopText(p.sl));
  }

  /** A rendered number with `k >= 1` decimals is a sign, digits, a point and digits. */
  lemma FormattedParts(x: real, k: nat) returns (d: string, f: string)
    requires k >= 1
    ensures d != [] && |f| == k && AllDigits(d) && AllDigits(f)
    ensures FormatFixed(x, k) == (if x < 0.0 then "-" else "") + d + "." + f
  {
    d, f := FormatFixedShape(x < 0.0, Units(x, k), k);
  }

  /** A rendered number consists of digits, a point and perhaps a minus sign. */
  lemma FormattedChars(x: real, k: nat)
    requires k >= 1
    ensures forall j :: 0 <= j < |FormatFixed(x, k)| ==>
      var c := FormatFixed(x, k)[j]; c == '-' || c == '.' || IsDigit(c)
  {
    var d, f := FormattedParts(x, k);
    var sign := if x < 0.0 then "-" else "";
    var num := FormatFixed(x, k);
    forall j | 0 <= j < |num| ensures num[j] == '-' || num[j] == '.' || IsDigit(num[j]) {
      if j < |sign| {
      } else if j < |sign| + |d| {
        assert num[j] == d[j - |sign|];
      } else if j == |sign| + |d| {
      } else {
        assert num[j] == f[j - |sign| - |d| - 1];
      }
    }
  }

  /** The shape the ROI pattern needs at the start of `t`, spelled out character by character. */
  lemma RoiMatchShape(t: string)
    requires |t| >= 16 && t[..11] == "minimal_roi" && t[11] == ' ' && t[12] == '=' && t[13] == ' ' && t[14] == '{'
    requires FindFrom(t, "}", 15) == Some(|t| - 1)
    ensures MatchAt(RoiAssign, t, 0) == Some(|t|)
  {
    assert OccursAt(t, "minimal_roi", 0);
    assert SkipSpace(t, 11) == 12;
    assert SkipSpace(t, 13) == 14;
  }

  /** The inserted ROI assignment is itself one whole match of the ROI pattern. */
  lemma RoiTextMatches(x: real)
    ensures MatchAt(RoiAssign, RoiText(x), 0) == Some(|RoiText(x)|)
  {
    FormattedChars(x, 3);
    assert RoiText(x) == "minimal_roi = {\"0\": " + FormatFixed(x, 3) + "}";
    RoiLayout(FormatFixed(x, 3));
  }

  lemma RoiLayout(num: string)
    requires forall j :: 0 <= j < |num| ==> num[j] == '-' || num[j] == '.' || IsDigit(num[j])
    ensures var t := "minimal_roi = {\"0\": " + num + "}";
      MatchAt(RoiAssign, t, 0) == Some(|t|)
  {
    var head := "minimal_roi = {\"0\": ";
    var t := head + num + "}";
    forall j | 15 <= j < |t| - 1 ensures t[j] != '}' {
      if j < |head| {
        assert t[j] == head[j];
      } else {
        assert t[j] == num[j - |head|];
      }
    }
    FindFirstChar(t, '}', 15, |t| - 1);
    assert t[..11] == "minimal_roi";
    RoiMatchShape(t);
  }

  /** The shape the stop-loss pattern needs: `stoploss = `, an optional `-`, digits, a point, digits. */
  lemma StopMatchShape(t: string, c: nat, n: nat)
    requires |t| >= 11 && t[..8] == "stoploss" && t[8] == ' ' && t[9] == '=' && t[10] == ' '
    requires n >= 1 && (c == 11 || c == 12) && c + n + 2 <= |t|
    requires c == 12 ==> t[11] == '-'
    requires forall j :: c <= j < c + n ==> IsDigit(t[j])
    requires t[c + n] == '.'
    requires forall j :: c + n + 1 <= j < |t| ==> IsDigit(t[j])
    ensures MatchAt(StopAssign, t, 0) == Some(|t|)
  {
    assert OccursAt(t, "stoploss", 0);
    assert SkipSpace(t, 8) == 9;
    assert SkipSpace(t, 10) == 11 by {
      assert c == 12 || IsDigit(t[11]);
    }
    SpanRun(t, c, n);
    SpanRun(t, c + n + 1, |t| - (c + n + 1));
  }

  /** The inserted stop-loss assignment is itself one whole match of the stop-loss pattern. */
  lemma StopTextMatches(x: real)
    ensures MatchAt(StopAssign, StopText(x), 0) == Some(|StopText(x)|)
  {
    var d, f := FormattedParts(x, 2);
    var sign := if x < 0.0 then "-" else "";
    assert StopText(x) == "stoploss = " + sign + d + "." + f;
    StopLayout(StopText(x), sign, d, f);
  }

  lemma StopLayout(t: string, sign: string, d: string, f: string)
    requires (sign == "" || sign == "-") && d != [] && AllDigits(d) && |f| == 2 && AllDigits(f)
    requires t == "stoploss = " + sign + d + "." + f
    ensures MatchAt(StopAssign, t, 0) == Some(|t|)
  {
    var c := 11 + |sign|;
    assert t[..8] == "stoploss";
    DigitsInside(t, c, d);
    assert t[c + |d|] == '.';
    DigitsInside(t, c + |d| + 1, f);
    StopMatchShape(t, c, |d|);
  }

  /** The digits of `d`, found at `c` in `t`. */
  lemma DigitsInside(t: string, c: nat, d: string)
    requires c + |d| <= |t| && t[c..c + |d|] == d && AllDigits(d)
    ensures forall j :: c <= j < c + |d| ==> IsDigit(t[j])
  {
    forall j | c <= j < c + |d| ensures IsDigit(t[j]) {
      assert t[j] == t[c..c + |d|][j - c];
    }
  }

  /** A digit run of length `n` at `i`, followed by a non-digit or the end, spans exactly `n`. */
  lemma {:induction false} SpanRun(s: string, i: nat, n: nat)
    requires i + n <= |s|
    requires forall k :: i <= k < i + n ==> IsDigit(s[k])
    requires i + n == |s| || !IsDigit(s[i + n])
    ensures SpanDigits(s, i) == i + n
    decreases n
  {
    if n > 0 {
      SpanRun(s, i + 1, n - 1);
    }
  }

  // ---------------------------------------------------------------------------------
  // The backtest command line and its output.

  /** The arguments every variant passes before any optional flag. */
  function BacktestPrefix(bin: string, config: string, strategy: string, timeframe: string, timerange: string): seq<string> {
    [bin, "backtesting", "-c", config, "--strategy", strategy, "--strategy-path", "strategies",
     "--timeframe", timeframe, "--timerange", timerange, "--cache", "none"]
  }

  /** `n` copies of `-v`. */
  function VFlags(n: nat): (r: seq<string>)
    ensures |r| == n && forall k :: 0 <= k < n ==> r[k] == "-v"
  {
    if n == 0 then [] else VFlags(n - 1) + ["-v"]
  }

  predicate IsMarker(line: string) { Contains(line, "STRATEGY SUMMARY") }

  predicate IsClosing(line: string) { StartsWith(Strip(line), "└") }

  /** The index of the first line at or after `i` that satisfies `p`, or `|lines|` when there is none. */
  function FirstFrom(lines: seq<string>, p: string -> bool, i: nat): (j: nat)
    requires i <= |lines|
    decreases |lines| - i
    ensures i <= j <= |lines|
    ensures j < |lines| ==> p(lines[j])
    ensures forall k :: i <= k < j ==> !p(lines[k])
  {
    if i == |lines| then i else if p(lines[i]) then i else FirstFrom(lines, p, i + 1)
  }

  /** A line at `j` satisfying `p`, with none in `[i, j)`, is the first one (or `j` is the end). */
  lemma {:induction false} FirstAt(lines: seq<string>, p: string -> bool, i: nat, j: nat)
    requires i <= j <= |lines|
    requires j < |lines| ==> p(lines[j])
    requires forall k :: i <= k < j ==> !p(lines[k])
    ensures FirstFrom(lines, p, i) == j
    decreases j - i
  {
    if i < j {
      FirstAt(lines, p, i + 1, j);
    }
  }

  /**
   * The block that starts at the first `marker` line and runs through the first
   * `closing` line at or after it (or to the end); with no marker, the last 20 lines.
   */
  function SummaryWith(lines: seq<string>, marker: string -> bool, closing: string -> bool): seq<string> {
    var m := FirstFrom(lines, marker, 0);
    if m == |lines| then LastN(lines, 20)
    else
      var j := FirstFrom(lines, closing, m);
      if j < |lines| then lines[m..j + 1] else lines[m..]
  }

  /**
   * The summary written to `backtest_result.log`: from the first line containing
   * "STRATEGY SUMMARY" through the first line at or after it whose stripped text starts
   * with `└` (or to the end); with no such line, the last 20 lines.
   */
  function SummaryOf(lines: seq<string>): seq<string> {
    SummaryWith(lines, IsMarker, IsClosing)
  }

  /** How one backtest run ended: a non-zero exit, or its captured standard output. */
  datatype Run = Failed | Completed(stdout: seq<string>)

  /** The text `_backtest` writes to the summary log. */
  function SummaryText(stdout: seq<string>): string {
    Join(SummaryOf(stdout), "\n") + "\n"
  }

  /** The loop of `_backtest` that collects the summary lines, then the fallback. */
  method CollectSummary(lines: seq<string>, marker: string -> bool, closing: string -> bool) returns (summary: seq<string>)
    ensures summary == SummaryWith(lines, marker, closing)
  {
    summary := [];
    var inSummary := false;
    var i := 0;
    ghost var m: nat := 0;
    while i < |lines|
      invariant i <= |lines| && Collecting(lines, marker, closing, i, inSummary, m, summary)
    {
      var stop;
      inSummary, m, summary, stop := CollectLine(lines, marker, closing, i, inSummary, m, summary);
      if stop {
        return;
      }
      i := i + 1;
    }
    CollectedAll(lines, marker, closing, inSummary, m, summary);
    if !inSummary {
      summary := LastN(lines, 20);
    }
  }

  /**
   * The state of the collecting loop before line `i`: outside the summary no marker was
   * seen; inside it, `summary` holds the lines from the first marker on, none closing.
   */
  ghost predicate Collecting(lines: seq<string>, marker: string -> bool, closing: string -> bool,
                             i: nat, inSummary: bool, m: nat, summary: seq<string>)
    requires i <= |lines|
  {
    && (!inSummary ==> summary == [] && forall k :: 0 <= k < i ==> !marker(lines[k]))
    && (inSummary ==>
          && m < i && FirstFrom(lines, marker, 0) == m && summary == lines[m..i]
          && forall k :: m <= k < i ==> !closing(lines[k]))
  }

  /** One line of the collecting loop: `stop` when it closes the summary. */
  method CollectLine(lines: seq<string>, marker: string -> bool, closing: string -> bool, i: nat,
                     inSummary0: bool, ghost m0: nat, summary0: seq<string>)
    returns (inSummary: bool, ghost m: nat, summary: seq<string>, stop: bool)
    requires i < |lines| && Collecting(lines, marker, closing, i, inSummary0, m0, summary0)
    ensures stop ==> summary == SummaryWith(lines, marker, closing)
    ensures !stop ==> Collecting(lines, marker, closing, i + 1, inSummary, m, summary)
  {
    inSummary, m, summary, stop := inSummary0, m0, summary0, false;
    if marker(lines[i]) && !inSummary {
      FirstAt(lines, marker, 0, i);
      inSummary := true;
      m := i;
    }
    if inSummary {
      SliceExtend(lines, m, i);
      summary := summary + [lines[i]];
      if closing(lines[i]) {
        FirstAt(lines, closing, m, i);
        stop := true;
      }
    }
  }

  /** After the last line: inside the summary it runs to the end; outside, there was no marker. */
  lemma CollectedAll(lines: seq<string>, marker: string -> bool, closing: string -> bool,
                     inSummary: bool, m: nat, summary: seq<string>)
    requires Collecting(lines, marker, closing, |lines|, inSummary, m, summary)
    ensures inSummary ==> summary == SummaryWith(lines, marker, closing)
    ensures !inSummary ==> SummaryWith(lines, marker, closing) == LastN(lines, 20)
  {
    if inSummary {
      FirstAt(lines, closing, m, |lines|);
    } else {
      FirstAt(lines, marker, 0, |lines|);
    }
  }

  /** `_backtest`'s summary extraction over the captured output lines. */
  method ExtractSummary(lines: seq<string>) returns (summary: seq<string>)
    ensures summary == SummaryOf(lines)
  {
    summary := CollectSummary(lines, IsMarker, IsClosing);
  }

  lemma SliceExtend<T>(s: seq<T>, a: nat, b: nat)
    requires a <= b < |s|
    ensures s[a..b] + [s[b]] == s[a..b + 1]
  {
  }

  /** The summary is a contiguous run of the output, and empty only for empty output. */
  lemma SummaryIsSlice(lines: seq<string>) returns (a: nat, b: nat)
    ensures a <= b <= |lines| && SummaryOf(lines) == lines[a..b]
    ensures SummaryOf(lines) == [] <==> lines == []
  {
    var m := FirstFrom(lines, IsMarker, 0);
    if m == |lines| {
      a, b := |lines| - |LastN(lines, 20)|, |lines|;
    } else {
      var j := FirstFrom(lines, IsClosing, m);
      a, b := m, if j < |lines| then j + 1 else |lines|;
    }
  }
}
