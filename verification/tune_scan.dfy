/**
 * `_scan_json_objects` of the one-shot tuner: the first fenced ```` ```json {...} ``` ````
 * block that decodes, else the first top-level brace-balanced chunk that decodes. The
 * JSON decoder is a parameter; since every candidate starts with `{`, whatever it accepts
 * is a dict.
 */
module TuneScan {
  import opened Wrappers
  import opened Text
  import opened Numeric
  import opened Json
  import opened SelfLoopCommon

  const Fence := "```"

  // ---------------------------------------------------------------------------
  // Fenced blocks: ```(?:json)?\s*(\{.*?\})\s*``` with DOTALL and IGNORECASE
  // ---------------------------------------------------------------------------

  /**
   * `json` under `re.IGNORECASE` at `i`: each letter in either case, and the long s (U+017F),
   * which Python's case-insensitive matching treats as an `s`.
   */
  predicate JsonTagAt(t: string, i: nat) {
    i + 4 <= |t| && t[i] in {'j', 'J'} && t[i + 1] in {'s', 'S', '\U{017F}'} && t[i + 2] in {'o', 'O'}
    && t[i + 3] in {'n', 'N'}
  }

  /** `\s*```` from `j`: where a closing fence ends, if one follows. */
  function CloseFenceEnd(t: string, j: nat): (r: Option<nat>)
    requires j <= |t|
    ensures r.Some? ==> j + 3 <= r.value <= |t|
  {
    var k := SkipSpace(t, j);
    if OccursAt(t, Fence, k) then Some(k + 3) else None
  }

  /**
   * The lazy `.*?\}` followed by a closing fence, scanning from `j`: the end of the first
   * `}` that a closing fence follows, and the end of that fence.
   */
  function LazyClose(t: string, j: nat): (r: Option<(nat, nat)>)
    requires j <= |t|
    decreases |t| - j
    ensures r.Some? ==> j < r.value.0 <= r.value.1 <= |t| && t[r.value.0 - 1] == '}'
  {
    if j == |t| then None
    else if t[j] == '}' && CloseFenceEnd(t, j + 1).Some? then Some((j + 1, CloseFenceEnd(t, j + 1).value))
    else LazyClose(t, j + 1)
  }

  /**
   * A match of the fence pattern at `p`: the bounds of the braced group and the end of
   * the match. An optional `json` tag that is present must be followed by the group: the
   * alternative without it would need `{` where the tag's `j` stands.
   */
  function FenceAt(t: string, p: nat): (r: Option<(nat, nat, nat)>)
    requires p <= |t|
    ensures r.Some? ==> p < r.value.0 < r.value.1 <= r.value.2 <= |t|
    ensures r.Some? ==> t[r.value.0] == '{' && t[r.value.1 - 1] == '}'
  {
    if !OccursAt(t, Fence, p) then None
    else
      var q := if JsonTagAt(t, p + 3) then p + 7 else p + 3;
      var b := SkipSpace(t, q);
      if b < |t| && t[b] == '{' then
        match LazyClose(t, b + 1)
        case None => None
        case Some(m) => Some((b, m.0, m.1))
      else None
  }

  /** `re.finditer` over the fence pattern from `p`: the braced groups of the non-overlapping matches, leftmost first. */
  function FenceGroups(t: string, p: nat): (gs: seq<string>)
    requires p <= |t|
    decreases |t| - p
    ensures forall k :: 0 <= k < |gs| ==> Braced(gs[k])
  {
    if p == |t| then []
    else
      match FenceAt(t, p)
      case Some(m) =>
        SliceBraced(t, m.0, m.1);
        [t[m.0..m.1]] + FenceGroups(t, m.2)
      case None => FenceGroups(t, p + 1)
  }

  /** At least two characters, opening with `{` and closing with `}`. */
  predicate Braced(g: string) {
    |g| >= 2 && g[0] == '{' && g[|g| - 1] == '}'
  }

  lemma SliceBraced(t: string, a: nat, b: nat)
    requires a < b <= |t| && t[a] == '{' && t[b - 1] == '}'
    ensures Braced(t[a..b])
  {
  }

  /** The first candidate the decoder accepts. */
  function FirstDecoded(gs: seq<string>, decode: Decoder): (r: Option<map<string, Value>>)
    ensures r.Some? ==> exists k :: 0 <= k < |gs| && decode(gs[k]) == r
    ensures r.None? ==> forall k :: 0 <= k < |gs| ==> decode(gs[k]).None?
  {
    if gs == [] then None
    else if decode(gs[0]).Some? then decode(gs[0])
    else
      var r := FirstDecoded(gs[1..], decode);
      assert forall k :: 1 <= k < |gs| ==> gs[k] == gs[1..][k - 1];
      r
  }

  // ---------------------------------------------------------------------------
  // The brace scan
  // ---------------------------------------------------------------------------

  function Delta(c: char): int {
    if c == '{' then 1 else if c == '}' then -1 else 0
  }

  /** Opening minus closing braces in `c`. */
  function Depth(c: string): int {
    if c == [] then 0 else Depth(c[..|c| - 1]) + Delta(c[|c| - 1])
  }

  /** `{ ... }` whose braces balance and whose proper prefixes never close the first `{`. */
  predicate Balanced(c: string) {
    |c| >= 2 && c[0] == '{' && c[|c| - 1] == '}' && Depth(c) == 0
    && forall k :: 1 <= k < |c| ==> Depth(c[..k]) > 0
  }

  /**
   * The brace scan from index `i` with `depth` braces open (the stack's height) and the
   * start of the current top-level chunk. A `}` with nothing open is ignored; a chunk
   * the decoder rejects is dropped and scanning resumes after it. (`start` is always set
   * while a brace is open; the guard only keeps the slice well defined.)
   */
  function BraceScan(t: string, decode: Decoder, i: nat, depth: nat, start: Option<nat>): Option<map<string, Value>>
    requires i <= |t|
    decreases |t| - i
  {
    if i == |t| then None
    else if t[i] == '{' then BraceScan(t, decode, i + 1, depth + 1, if depth == 0 then Some(i) else start)
    else if t[i] == '}' && depth > 0 then
      if depth == 1 && start.Some? && start.value <= i then
        match decode(t[start.value..i + 1])
        case Some(obj) => Some(obj)
        case None => BraceScan(t, decode, i + 1, 0, None)
      else BraceScan(t, decode, i + 1, depth - 1, start)
    else BraceScan(t, decode, i + 1, depth, start)
  }

  /** What `_scan_json_objects` returns. */
  function Scan(t: string, decode: Decoder): Option<map<string, Value>> {
    match FirstDecoded(FenceGroups(t, 0), decode)
    case Some(obj) => Some(obj)
    case None => BraceScan(t, decode, 0, 0, None)
  }

  /** `_scan_json_objects`: the loop over the fenced matches, then the stack-based brace scan. */
  method ScanJsonObjects(t: string, decode: Decoder) returns (r: Option<map<string, Value>>)
    ensures r == Scan(t, decode)
  {
    r := FirstFenced(FenceGroups(t, 0), decode);
    if r.None? {
      r := ScanBraces(t, decode);
    }
  }

  /** The loop over the fenced matches: the first group the decoder accepts. */
  method FirstFenced(groups: seq<string>, decode: Decoder) returns (r: Option<map<string, Value>>)
    ensures r == FirstDecoded(groups, decode)
  {
    var k := 0;
    while k < |groups|
      invariant k <= |groups|
      invariant FirstDecoded(groups, decode) == FirstDecoded(groups[k..], decode)
    {
      assert groups[k..][1..] == groups[k + 1..];
      var obj := decode(groups[k]);
      if obj.Some? {
        return obj;
      }
      k := k + 1;
    }
    return None;
  }

  /** The stack-based scan over the text's braces. */
  method ScanBraces(t: string, decode: Decoder) returns (r: Option<map<string, Value>>)
    ensures r == BraceScan(t, decode, 0, 0, None)
  {
    var stack: nat := 0;
    var start: Option<nat> := None;
    var i := 0;
    while i < |t|
      invariant i <= |t|
      invariant BraceScan(t, decode, 0, 0, None) == BraceScan(t, decode, i, stack, start)
    {
      var ch := t[i];
      if ch == '{' {
        if stack == 0 {
          start := Some(i);
        }
        stack := stack + 1;
      } else if ch == '}' {
        if stack > 0 {
          stack := stack - 1;
          if stack == 0 && start.Some? && start.value <= i {
            var chunk := t[start.value..i + 1];
            var obj := decode(chunk);
            if obj.Some? {
              return obj;
            }
            start := None;
          }
        }
      }
      i := i + 1;
    }
    return None;
  }

  /** The scan's state at `i` is the one the text read so far implies. */
  predicate ScanState(t: string, i: nat, depth: nat, start: Option<nat>)
    requires i <= |t|
  {
    (start.Some? <==> depth > 0)
    && (start.Some? ==>
          start.value < i && t[start.value] == '{' && Depth(t[start.value..i]) == depth
          && forall k :: start.value < k <= i ==> Depth(t[start.value..k]) > 0)
  }

  lemma DepthStep(t: string, s: nat, i: nat)
    requires s <= i < |t|
    ensures Depth(t[s..i + 1]) == Depth(t[s..i]) + Delta(t[i])
  {
    assert t[s..i + 1][..i - s] == t[s..i];
  }

  /**
   * Every chunk the brace scan hands back starts with `{`, ends with `}`, balances its
   * braces, and is what the decoder accepted.
   */
  lemma {:induction false} BraceScanSound(t: string, decode: Decoder, i: nat, depth: nat, start: Option<nat>)
    requires i <= |t| && ScanState(t, i, depth, start)
    requires BraceScan(t, decode, i, depth, start).Some?
    ensures exists s, e :: 0 <= s < e <= |t| && Balanced(t[s..e]) && decode(t[s..e]) == BraceScan(t, decode, i, depth, start)
    decreases |t| - i
  {
    if t[i] == '{' {
      OpenStep(t, i, depth, start);
      BraceScanSound(t, decode, i + 1, depth + 1, if depth == 0 then Some(i) else start);
    } else if t[i] == '}' && depth == 1 {
      var s := start.value;
      if decode(t[s..i + 1]).Some? {
        ChunkClosed(t, i, start);
        assert decode(t[s..i + 1]) == BraceScan(t, decode, i, depth, start);
      } else {
        BraceScanSound(t, decode, i + 1, 0, None);
      }
    } else if t[i] == '}' && depth > 1 {
      CloseStep(t, i, depth, start);
      BraceScanSound(t, decode, i + 1, depth - 1, start);
    } else {
      OtherStep(t, i, depth, start);
      BraceScanSound(t, decode, i + 1, depth, start);
    }
  }

  lemma OpenStep(t: string, i: nat, depth: nat, start: Option<nat>)
    requires i < |t| && ScanState(t, i, depth, start) && t[i] == '{'
    ensures ScanState(t, i + 1, depth + 1, if depth == 0 then Some(i) else start)
  {
    if depth == 0 {
      assert t[i..i + 1] == [t[i]];
      assert Depth(t[i..i + 1]) == Depth([]) + Delta(t[i]);
    } else {
      DepthStep(t, start.value, i);
    }
  }

  lemma CloseStep(t: string, i: nat, depth: nat, start: Option<nat>)
    requires i < |t| && ScanState(t, i, depth, start) && t[i] == '}' && depth > 1
    ensures ScanState(t, i + 1, depth - 1, start)
  {
    DepthStep(t, start.value, i);
  }

  lemma OtherStep(t: string, i: nat, depth: nat, start: Option<nat>)
    requires i < |t| && ScanState(t, i, depth, start) && t[i] != '{' && (t[i] == '}' ==> depth == 0)
    ensures ScanState(t, i + 1, depth, start)
  {
    if start.Some? {
      DepthStep(t, start.value, i);
    }
  }

  /** The `}` that closes the only open brace ends a balanced chunk. */
  lemma ChunkClosed(t: string, i: nat, start: Option<nat>)
    requires i < |t| && ScanState(t, i, 1, start) && t[i] == '}'
    ensures start.Some? && start.value < i + 1 && Balanced(t[start.value..i + 1])
  {
    var s := start.value;
    DepthStep(t, s, i);
    var c := t[s..i + 1];
    forall k | 1 <= k < |c| ensures Depth(c[..k]) > 0 {
      assert c[..k] == t[s..s + k];
    }
  }

  /** Before the first `{` nothing is open, whatever stray `}` the text holds. */
  lemma {:induction false} ScanSkipsToBrace(t: string, decode: Decoder, i: nat, s: nat)
    requires i <= s <= |t|
    requires forall k :: i <= k < s ==> t[k] != '{'
    ensures BraceScan(t, decode, i, 0, None) == BraceScan(t, decode, s, 0, None)
    decreases s - i
  {
    if i < s {
      ScanSkipsToBrace(t, decode, i + 1, s);
    }
  }

  /**
   * The brace scan finds the first top-level chunk: when no `{` comes before a balanced
   * chunk the decoder accepts, that chunk is the result.
   */
  lemma FirstChunkWins(t: string, decode: Decoder, s: nat, e: nat)
    requires s < e <= |t| && Balanced(t[s..e]) && decode(t[s..e]).Some?
    requires forall k :: 0 <= k < s ==> t[k] != '{'
    ensures BraceScan(t, decode, 0, 0, None) == decode(t[s..e])
  {
    ScanSkipsToBrace(t, decode, 0, s);
    var c := t[s..e];
    assert c[..1] == [c[0]];
    assert Depth(c[..1]) == 1 by {
      assert Depth(c[..1]) == Depth([]) + Delta(c[0]);
    }
    ChunkPrefix(t, decode, s, e, 1);
  }

  /** From any proper prefix of the chunk the scan ends at the chunk's closing brace. */
  lemma {:induction false} ChunkPrefix(t: string, decode: Decoder, s: nat, e: nat, j: nat)
    requires s < e <= |t| && Balanced(t[s..e]) && decode(t[s..e]).Some?
    requires 1 <= j < e - s
    ensures BraceScan(t, decode, s + j, Depth(t[s..e][..j]), Some(s)) == decode(t[s..e])
    decreases e - s - j
  {
    var c := t[s..e];
    var i := s + j;
    assert c[..j] == t[s..i];
    DepthStep(t, s, i);
    if j == e - s - 1 {
      assert t[s..i + 1] == c;
      assert Depth(t[s..i]) == 1;
    } else {
      assert c[..j + 1] == t[s..i + 1] by {
        forall k | 0 <= k < j + 1 ensures c[k] == t[s + k] { }
      }
      assert Depth(t[s..i + 1]) > 0;
      ChunkPrefix(t, decode, s, e, j + 1);
      assert t[i] != '}' || Depth(t[s..i]) > 1;
    }
  }
}
