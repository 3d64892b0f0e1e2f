/**
 * The patch verifier: validate a decoded patch document, apply its file, config and
 * `.env` changes in order, judge the verifier's snapshots before and after, and build
 * the result. The files it touches are the fields of `PatchVerifier`: the text files by
 * path, the decoded YAML config (absent when it cannot be opened) and the lines of
 * `.env` (absent when the file does not exist). JSON decoding, the snapshots, the
 * rollback command, the documentation write, the order of a JSON object's keys and
 * `str()` of a value are inputs.
 */
module PatchVerifier {
  import opened Wrappers
  import opened Text
  import opened Json

  // ---------------------------------------------------------------------------
  // iteration over a decoded value
  // ---------------------------------------------------------------------------

  /**
   * The elements a `for` loop over a decoded value reaches: a list's items. An empty dict
   * or string gives no element; a non-empty one gives strings, on which the loop body's
   * first key lookup raises, and any other value is not iterable, so both are `None`.
   */
  function Iterated(v: Value): (r: Option<seq<Value>>)
    ensures v.Arr? ==> r == Some(v.items)
    ensures r.Some? && !v.Arr? ==> r == Some([])
  {
    match v
    case Arr(items) => Some(items)
    case Obj(m) => if m == map[] then Some([]) else None
    case Str(s) => if s == [] then Some([]) else None
    case _ => None
  }

  // ---------------------------------------------------------------------------
  // _validate_patch
  // ---------------------------------------------------------------------------

  const RequiredFields := ["description", "changes", "verification"]

  /**
   * `_validate_patch`: every required field is `in` the patch; a value on which `in`
   * raises cannot be validated.
   */
  function ValidatePatch(patch: Value): (r: Option<bool>)
    ensures patch.Obj? ==> r == Some(forall f :: f in RequiredFields ==> f in patch.fields)
    ensures r.None? <==> !(patch.Obj? || patch.Arr? || patch.Str?)
    ensures r == Some(true) <==> forall f :: f in RequiredFields ==> Has(patch, f) == Some(true)
  {
    if Has(patch, "description").None? then None
    else Some(forall f :: f in RequiredFields ==> Has(patch, f) == Some(true))
  }

  // ---------------------------------------------------------------------------
  // _apply_modifications
  // ---------------------------------------------------------------------------

  /** A text modification; `position` is absent for a JSON `null`, which slices nothing off. */
  datatype Mod =
    | ReplaceAll(search: string, replacement: string)
    | InsertText(position: Option<int>, text: string)
    | Ignored

  /** Python's reading of a slice bound `p` on a sequence of length `n`. */
  function SliceIndex(p: int, n: nat): (q: nat)
    ensures q <= n
    ensures 0 <= p <= n ==> q == p
    ensures p > n ==> q == n
    ensures p < 0 ==> q == if p + n < 0 then 0 else p + n
  {
    if p < 0 then (if p + n < 0 then 0 else p + n) else if p > n then n else p
  }

  /** `content[:p] + text + content[p:]`. */
  function InsertAt(content: string, position: Option<int>, text: string): string {
    match position
    case None => content + text + content
    case Some(p) =>
      var q := SliceIndex(p, |content|);
      content[..q] + text + content[q..]
  }

  /** An insertion puts `text` at the slice index and removing it gives the content back. */
  lemma InsertRemovable(content: string, p: int, text: string)
    ensures var q := SliceIndex(p, |content|);
      var r := InsertAt(content, Some(p), text);
      |r| == |content| + |text| && r[q..q + |text|] == text && r[..q] + r[q + |text|..] == content
  {
    var q := SliceIndex(p, |content|);
    var r := InsertAt(content, Some(p), text);
    assert r[..q] == content[..q];
    assert r[q + |text|..] == content[q..];
  }

  /** A JSON number that is a whole number, or a bool, used as an index. */
  function IndexOf(v: Value): Option<Option<int>> {
    match v
    case Null => Some(None)
    case Bool(b) => Some(Some(if b then 1 else 0))
    case Num(n) => if n == n.Floor as real then Some(Some(n.Floor)) else None
    case _ => None
  }

  /** One modification of the list; `None` when evaluating it raises. */
  function ModOf(v: Value): Option<Mod> {
    if !v.Obj? || "type" !in v.fields then None
    else
      var m := v.fields;
      if m["type"] == Str("replace") then
        if "search" in m && "replace" in m && m["search"].Str? && m["replace"].Str? then
          Some(ReplaceAll(m["search"].s, m["replace"].s))
        else None
      else if m["type"] == Str("insert") then
        if "position" in m && IndexOf(m["position"]).Some? && "text" in m && m["text"].Str? then
          Some(InsertText(IndexOf(m["position"]).value, m["text"].s))
        else None
      else Some(Ignored)
  }

  /** All the modifications, or `None` when one of them raises. */
  function ModsOf(vs: seq<Value>): (r: Option<seq<Mod>>)
    ensures r.Some? ==> |r.value| == |vs| && forall i :: 0 <= i < |vs| ==> ModOf(vs[i]) == Some(r.value[i])
    decreases |vs|
  {
    if vs == [] then Some([])
    else
      match ModsOf(vs[..|vs| - 1])
      case None => None
      case Some(ms) =>
        match ModOf(vs[|vs| - 1])
        case None => None
        case Some(m) => Some(ms + [m])
  }

  lemma {:induction false} ModsOfNone(vs: seq<Value>, k: nat)
    requires k <= |vs| && ModsOf(vs[..k]).None?
    ensures ModsOf(vs).None?
    decreases |vs|
  {
    if k < |vs| {
      assert vs[..|vs| - 1][..k] == vs[..k];
      ModsOfNone(vs[..|vs| - 1], k);
    } else {
      assert vs[..k] == vs;
    }
  }

  /** The content after one modification. */
  function ModifiedBy(content: string, m: Mod): string {
    match m
    case ReplaceAll(search, replacement) => Replace(content, search, replacement)
    case InsertText(p, text) => InsertAt(content, p, text)
    case Ignored => content
  }

  /** The content after the modifications, in order. */
  function Modified(content: string, mods: seq<Mod>): string
    decreases |mods|
  {
    if mods == [] then content else ModifiedBy(Modified(content, mods[..|mods| - 1]), mods[|mods| - 1])
  }

  /** `_apply_modifications` on the decoded `modifications` value. */
  function ModifiedText(content: string, mods: Value): Option<string> {
    match Iterated(mods)
    case None => None
    case Some(vs) =>
      match ModsOf(vs)
      case None => None
      case Some(ms) => Some(Modified(content, ms))
  }

  /** Modifications of other types leave the content as it was. */
  lemma {:induction false} IgnoredKeep(content: string, mods: seq<Mod>)
    requires forall i :: 0 <= i < |mods| ==> mods[i] == Ignored
    ensures Modified(content, mods) == content
    decreases |mods|
  {
    if mods != [] {
      IgnoredKeep(content, mods[..|mods| - 1]);
    }
  }

  /** Replacing text that does not occur is a no-op, so modifications compose as if it were absent. */
  lemma AbsentReplaceKeeps(content: string, mods: seq<Mod>, search: string, replacement: string)
    requires search != [] && !Contains(Modified(content, mods), search)
    ensures Modified(content, mods + [ReplaceAll(search, replacement)]) == Modified(content, mods)
  {
    assert (mods + [ReplaceAll(search, replacement)])[..|mods|] == mods;
    ReplaceAbsent(Modified(content, mods), search, replacement);
  }

  /** `_apply_modifications`: each modification in turn, rebinding the content. */
  method ApplyModifications(content: string, mods: Value) returns (r: Option<string>)
    ensures r == ModifiedText(content, mods)
  {
    var vs := Iterated(mods);
    if vs.None? {
      return None;
    }
    var items := vs.value;
    var c := content;
    ghost var ms: seq<Mod> := [];
    var i := 0;
    while i < |items|
      invariant i <= |items|
      invariant ModsOf(items[..i]) == Some(ms) && c == Modified(content, ms)
    {
      var m := ModOf(items[i]);
      if m.None? {
        assert items[..i + 1][..i] == items[..i];
        ModsOfNone(items, i + 1);
        return None;
      }
      ApplyStep(content, items, i, ms, m.value);
      ms := ms + [m.value];
      c := ModifiedBy(c, m.value);
      i := i + 1;
    }
    assert items[..i] == items;
    return Some(c);
  }

  /** One more modification read and applied. */
  lemma ApplyStep(content: string, items: seq<Value>, i: nat, ms: seq<Mod>, m: Mod)
    requires i < |items| && ModsOf(items[..i]) == Some(ms) && ModOf(items[i]) == Some(m)
    ensures ModsOf(items[..i + 1]) == Some(ms + [m])
    ensures Modified(content, ms + [m]) == ModifiedBy(Modified(content, ms), m)
  {
    assert items[..i + 1][..i] == items[..i];
    assert (ms + [m])[..|ms|] == ms;
  }

  // ---------------------------------------------------------------------------
  // _apply_env_change
  // ---------------------------------------------------------------------------

  /** An ordered dict of strings, as Python keeps it: in first-insertion order. */
  type Pairs = seq<(string, string)>

  predicate DistinctKeys(d: Pairs) {
    forall i, j :: 0 <= i < j < |d| ==> d[i].0 != d[j].0
  }

  function Lookup(d: Pairs, k: string): Option<string>
    decreases |d|
  {
    if d == [] then None
    else if d[0].0 == k then Some(d[0].1)
    else Lookup(d[1..], k)
  }

  /** A key is found exactly when some pair has it. */
  lemma {:induction false} LookupIff(d: Pairs, k: string)
    ensures Lookup(d, k).Some? <==> exists i :: 0 <= i < |d| && d[i].0 == k
    decreases |d|
  {
    if d != [] && d[0].0 != k {
      LookupIff(d[1..], k);
      if exists i :: 0 <= i < |d| && d[i].0 == k {
        var i :| 0 <= i < |d| && d[i].0 == k;
        assert d[1..][i - 1].0 == k;
      }
      if Lookup(d, k).Some? {
        var i :| 0 <= i < |d[1..]| && d[1..][i].0 == k;
        assert d[i + 1].0 == k;
      }
    }
  }

  /** `d[k] = v`: an existing key keeps its place and takes the value, a new one goes last. */
  function Put(d: Pairs, k: string, v: string): (r: Pairs)
    ensures Lookup(r, k) == Some(v)
    ensures forall j :: j != k ==> Lookup(r, j) == Lookup(d, j)
    ensures Lookup(d, k).None? ==> r == d + [(k, v)]
    ensures Lookup(d, k).Some? ==> |r| == |d| && forall i :: 0 <= i < |d| ==> r[i].0 == d[i].0
    decreases |d|
  {
    if d == [] then [(k, v)]
    else if d[0].0 == k then [(k, v)] + d[1..]
    else [d[0]] + Put(d[1..], k, v)
  }

  /** Putting keeps the keys distinct. */
  lemma PutDistinct(d: Pairs, k: string, v: string)
    requires DistinctKeys(d)
    ensures DistinctKeys(Put(d, k, v))
  {
    var r := Put(d, k, v);
    LookupIff(d, k);
    if Lookup(d, k).None? {
      assert r == d + [(k, v)];
      forall i, j | 0 <= i < j < |r| ensures r[i].0 != r[j].0 {
        assert r[i] == d[i];
        if j < |d| {
          assert r[j] == d[j];
        }
      }
    } else {
      forall i, j | 0 <= i < j < |r| ensures r[i].0 != r[j].0 {
        assert r[i].0 == d[i].0 && r[j].0 == d[j].0;
      }
    }
  }

  /** One line of `.env`: a line holding `=` gives its stripped text split at the first `=`. */
  function EnvLine(line: string): Option<(string, string)> {
    var s := Strip(line);
    match Find(s, "=")
    case None => None
    case Some(i) => Some((s[..i], s[i + 1..]))
  }

  /** Only a line holding `=` is read, since stripping never removes an `=`. */
  lemma EnvLineIff(line: string)
    ensures EnvLine(line).Some? <==> Contains(line, "=")
  {
    var i, j := StripIsSlice(line);
    if Contains(line, "=") {
      var k: nat :| k <= |line| && OccursAt(line, "=", k);
      EqualsKept(line, i, j, k);
    }
    if EnvLine(line).Some? {
      var m := Find(Strip(line), "=").value;
      EqualsFound(line, i, j, m);
    }
  }

  /** An `=` of the line lies inside the stripped slice. */
  lemma EqualsKept(line: string, i: nat, j: nat, k: nat)
    requires i <= j <= |line| && Strip(line) == line[i..j]
    requires forall n :: 0 <= n < i ==> IsSpace(line[n])
    requires forall n :: j <= n < |line| ==> IsSpace(line[n])
    requires OccursAt(line, "=", k)
    ensures Contains(Strip(line), "=")
  {
    OccursAtChar(line, '=', k);
    assert !IsSpace(line[k]);
    assert i <= k < j;
    assert Strip(line)[k - i] == '=';
    OccursAtChar(Strip(line), '=', k - i);
  }

  /** An `=` of the stripped slice is one of the line's. */
  lemma EqualsFound(line: string, i: nat, j: nat, m: nat)
    requires i <= j <= |line| && Strip(line) == line[i..j]
    requires OccursAt(Strip(line), "=", m)
    ensures Contains(line, "=")
  {
    OccursAtChar(Strip(line), '=', m);
    assert line[i + m] == Strip(line)[m];
    OccursAtChar(line, '=', i + m);
  }

  /** The variables read from `.env`'s lines, in file order; a later line overrides. */
  function ParseEnv(lines: seq<string>): Pairs
    decreases |lines|
  {
    if lines == [] then []
    else
      var d := ParseEnv(lines[..|lines| - 1]);
      match EnvLine(lines[|lines| - 1])
      case None => d
      case Some(kv) => Put(d, kv.0, kv.1)
  }

  /** `env_vars.update(...)` with the pairs in order. */
  function PutAll(d: Pairs, items: Pairs): Pairs
    decreases |items|
  {
    if items == [] then d else Put(PutAll(d, items[..|items| - 1]), items[|items| - 1].0, items[|items| - 1].1)
  }

  /** The lines written back: one `KEY=VALUE` line per variable. */
  function EnvText(d: Pairs): (lines: seq<string>)
    ensures |lines| == |d|
    ensures forall i :: 0 <= i < |d| ==> lines[i] == d[i].0 + "=" + d[i].1 + "\n"
  {
    seq(|d|, i requires 0 <= i < |d| => d[i].0 + "=" + d[i].1 + "\n")
  }

  /** The `variables` object's items in its key order, each value rendered by `str()`. */
  function Items(keys: seq<string>, m: map<string, Value>, str_: Value -> string): (r: Pairs)
    ensures forall i :: 0 <= i < |r| ==> r[i].0 in m && r[i].1 == str_(m[r[i].0])
    ensures forall k :: k in keys && k in m ==> exists i :: 0 <= i < |r| && r[i].0 == k
    decreases |keys|
  {
    if keys == [] then []
    else
      var rest := Items(keys[..|keys| - 1], m, str_);
      var k := keys[|keys| - 1];
      var r := if k in m then rest + [(k, str_(m[k]))] else rest;
      forall j | j in keys && j in m ensures exists i :: 0 <= i < |r| && r[i].0 == j {
        if j != k {
          assert j in keys[..|keys| - 1];
          var i :| 0 <= i < |rest| && rest[i].0 == j;
          assert r[i] == rest[i];
        } else {
          assert r[|r| - 1].0 == j;
        }
      }
      r
  }

  /** After the update every variable of the patch has its new value and every other keeps its old one. */
  lemma {:induction false} UpdatesWin(d: Pairs, items: Pairs, k: string)
    ensures (exists i :: 0 <= i < |items| && items[i].0 == k) ==> Lookup(PutAll(d, items), k) == Some(LastValue(items, k))
    ensures (forall i :: 0 <= i < |items| ==> items[i].0 != k) ==> Lookup(PutAll(d, items), k) == Lookup(d, k)
    decreases |items|
  {
    if items != [] {
      var init := items[..|items| - 1];
      UpdatesWin(d, init, k);
      if items[|items| - 1].0 != k && exists i :: 0 <= i < |items| && items[i].0 == k {
        var i :| 0 <= i < |items| && items[i].0 == k;
        assert init[i].0 == k;
      }
      if forall i :: 0 <= i < |items| ==> items[i].0 != k {
        assert forall i :: 0 <= i < |init| ==> init[i] == items[i];
      }
    }
  }

  /** The value of the last pair with key `k`. */
  function LastValue(items: Pairs, k: string): string
    decreases |items|
  {
    if items == [] then []
    else if items[|items| - 1].0 == k then items[|items| - 1].1
    else LastValue(items[..|items| - 1], k)
  }

  /** Variables whose lines read back as themselves: no `=` in the key, no line break, nothing stripped. */
  predicate Clean(d: Pairs) {
    DistinctKeys(d)
    && forall i :: 0 <= i < |d| ==> CleanPair(d[i].0, d[i].1)
  }

  predicate CleanPair(k: string, v: string) {
    '=' !in k && '\n' !in k && '\n' !in v
    && (k == [] || !IsSpace(k[0])) && (v == [] || !IsSpace(v[|v| - 1]))
  }

  /** A line's newline is stripped along with nothing else when the text has no whitespace at its ends. */
  lemma StripNewline(s: string)
    requires s != [] && !IsSpace(s[0]) && !IsSpace(s[|s| - 1])
    ensures Strip(s + "\n") == s
  {
    var line := s + "\n";
    assert line[0] == s[0];
    assert LStrip(line) == line;
    assert line[..|line| - 1] == s;
    assert RStrip(line) == RStrip(s);
    StripNoop(s);
  }

  /** The first `=` of `k=v` is the one after `k` when `k` has none. */
  lemma FirstEquals(k: string, v: string)
    requires '=' !in k
    ensures Find(k + "=" + v, "=") == Some(|k|)
  {
    var s := k + "=" + v;
    forall m | 0 <= m < |k| ensures s[m] != '=' {
      assert s[m] == k[m];
    }
    FindFirstChar(s, '=', 0, |k|);
  }

  lemma LineReadsBack(k: string, v: string)
    requires CleanPair(k, v)
    ensures EnvLine(k + "=" + v + "\n") == Some((k, v))
  {
    var s := k + "=" + v;
    CleanEnds(k, v);
    StripNewline(s);
    FirstEquals(k, v);
    assert s[..|k|] == k && s[|k| + 1..] == v;
  }

  /** A clean pair's line has no whitespace at either end. */
  lemma CleanEnds(k: string, v: string)
    requires CleanPair(k, v)
    ensures var s := k + "=" + v; !IsSpace(s[0]) && !IsSpace(s[|s| - 1])
  {
    var s := k + "=" + v;
    assert s[0] == if k == [] then '=' else k[0];
    assert s[|s| - 1] == if v == [] then '=' else v[|v| - 1];
  }

  /** Writing clean variables and reading the file back gives the same variables, in the same order. */
  lemma {:induction false} EnvRoundTrip(d: Pairs)
    requires Clean(d)
    ensures ParseEnv(EnvText(d)) == d
    decreases |d|
  {
    if d != [] {
      var init := d[..|d| - 1];
      var kv := d[|d| - 1];
      LastSplit(d);
      CleanInit(d);
      EnvRoundTrip(init);
      EnvTextSnoc(d);
      LineReadsBack(kv.0, kv.1);
      ParseEnvLast(EnvText(d), init, kv.0, kv.1);
      NewLastKey(d);
    }
  }

  /** A last line read as `(k, v)` puts `k` into what the lines before it gave. */
  lemma ParseEnvLast(lines: seq<string>, d: Pairs, k: string, v: string)
    requires lines != [] && ParseEnv(lines[..|lines| - 1]) == d
    requires EnvLine(lines[|lines| - 1]) == Some((k, v))
    ensures ParseEnv(lines) == Put(d, k, v)
  {
  }

  lemma LastSplit(d: Pairs)
    requires d != []
    ensures d[..|d| - 1] + [(d[|d| - 1].0, d[|d| - 1].1)] == d
  {
  }

  /** The variables but the last are clean too. */
  lemma CleanInit(d: Pairs)
    requires Clean(d) && d != []
    ensures Clean(d[..|d| - 1])
  {
    var init := d[..|d| - 1];
    forall i | 0 <= i < |init| ensures CleanPair(init[i].0, init[i].1) {
      assert init[i] == d[i];
    }
  }

  /** The text of the variables is that of all but the last, then the last one's line. */
  lemma EnvTextSnoc(d: Pairs)
    requires d != []
    ensures var lines := EnvText(d);
      lines[..|lines| - 1] == EnvText(d[..|d| - 1])
      && lines[|lines| - 1] == d[|d| - 1].0 + "=" + d[|d| - 1].1 + "\n"
  {
  }

  /** The last key of distinct keys is not found among the others. */
  lemma NewLastKey(d: Pairs)
    requires DistinctKeys(d) && d != []
    ensures Lookup(d[..|d| - 1], d[|d| - 1].0).None?
  {
    var init := d[..|d| - 1];
    var k := d[|d| - 1].0;
    forall i | 0 <= i < |init| ensures init[i].0 != k {
      assert init[i] == d[i];
    }
    LookupIff(init, k);
  }

  /** The reading loop of `_apply_env_change`. */
  method ReadEnv(lines: seq<string>) returns (vars: Pairs)
    ensures vars == ParseEnv(lines)
  {
    vars := [];
    var i := 0;
    while i < |lines|
      invariant i <= |lines| && vars == ParseEnv(lines[..i])
    {
      assert lines[..i + 1][..i] == lines[..i];
      var kv := EnvLine(lines[i]);
      if kv.Some? {
        vars := Put(vars, kv.value.0, kv.value.1);
      }
      i := i + 1;
    }
    assert lines[..i] == lines;
  }

  /** `env_vars.update(...)`: each item in turn. */
  method UpdateVars(vars: Pairs, items: Pairs) returns (r: Pairs)
    ensures r == PutAll(vars, items)
  {
    r := vars;
    var j := 0;
    while j < |items|
      invariant j <= |items| && r == PutAll(vars, items[..j])
    {
      assert items[..j + 1][..j] == items[..j];
      r := Put(r, items[j].0, items[j].1);
      j := j + 1;
    }
    assert items[..j] == items;
  }

  // ---------------------------------------------------------------------------
  // _apply_config_change
  // ---------------------------------------------------------------------------

  /** A dict update that `setdefault(key, {}).update(...)` cannot apply: the key holds a non-dict. */
  predicate Blocked(fields: map<string, Value>, updates: map<string, Value>, k: string) {
    k in updates && updates[k].Obj? && k in fields && !fields[k].Obj?
  }

  /** The merged value of key `k`: a dict update merges into the existing dict, anything else overwrites. */
  function MergedAt(fields: map<string, Value>, updates: map<string, Value>, k: string): Value
    requires k in updates && !Blocked(fields, updates, k)
  {
    if updates[k].Obj? then Obj((if k in fields then fields[k].fields else map[]) + updates[k].fields)
    else updates[k]
  }

  /**
   * The config after the updates; `None` when an update raises: any update of a config that
   * is not a dict, or a dict update of a key holding something else. No updates leave the
   * config as it is.
   */
  function MergeConfig(config: Value, updates: map<string, Value>): (r: Option<Value>)
    ensures r.None? <==> updates != map[] && (!config.Obj? || exists k :: k in updates && Blocked(config.fields, updates, k))
    ensures r.Some? && updates != map[] ==> r.value.Obj? && r.value.fields.Keys == config.fields.Keys + updates.Keys
    ensures r.Some? && updates != map[] ==> forall k :: k in config.fields && k !in updates ==> r.value.fields[k] == config.fields[k]
    ensures r.Some? && updates != map[] ==> forall k :: k in updates && !updates[k].Obj? ==> r.value.fields[k] == updates[k]
    ensures updates == map[] ==> r == Some(config)
  {
    if updates == map[] then Some(config)
    else if !config.Obj? || exists k :: k in updates && Blocked(config.fields, updates, k) then None
    else
      Some(Obj(map k | k in config.fields.Keys + updates.Keys ::
        if k in updates then MergedAt(config.fields, updates, k) else config.fields[k]))
  }

  /** Fields holding every key's merged value, and every other key's old one, are the merged config. */
  lemma MergedFields(c: Value, updates: map<string, Value>, fields: map<string, Value>)
    requires c.Obj? && updates != map[]
    requires fields.Keys == c.fields.Keys + updates.Keys
    requires forall k :: k in updates.Keys ==> !Blocked(c.fields, updates, k) && fields[k] == MergedAt(c.fields, updates, k)
    requires forall k :: k in c.fields && k !in updates.Keys ==> fields[k] == c.fields[k]
    ensures MergeConfig(c, updates) == Some(Obj(fields))
  {
    var merged := MergeConfig(c, updates).value;
    assert forall k :: k in fields ==> fields[k] == merged.fields[k];
    assert fields == merged.fields;
  }

  /** A dict update keeps the existing entries it does not name and sets those it names. */
  lemma MergeKeepsSubEntries(config: map<string, Value>, updates: map<string, Value>, k: string, j: string)
    requires MergeConfig(Obj(config), updates).Some? && k in updates && updates[k].Obj?
    ensures var sub := MergeConfig(Obj(config), updates).value.fields[k];
      sub.Obj?
      && (j in updates[k].fields ==> j in sub.fields && sub.fields[j] == updates[k].fields[j])
      && (k in config && j in config[k].fields && j !in updates[k].fields ==> j in sub.fields && sub.fields[j] == config[k].fields[j])
  {
    assert !Blocked(config, updates, k);
  }

  // ---------------------------------------------------------------------------
  // the patch as a whole
  // ---------------------------------------------------------------------------

  /** The files a patch may touch. */
  datatype World = World(files: map<string, string>, config: Option<Value>, envFile: Option<seq<string>>)

  /** `_apply_file_change`: the file must exist; `create` truncates it before reading `content`. */
  function FileChange(w: World, change: map<string, Value>): (World, bool) {
    if "path" !in change || !change["path"].Str? || change["path"].s !in w.files || "operation" !in change then (w, false)
    else
      var path := change["path"].s;
      var op := change["operation"];
      if op == Str("modify") then
        if "modifications" !in change then (w, false)
        else
          match ModifiedText(w.files[path], change["modifications"])
          case None => (w, false)
          case Some(t) => (w.(files := w.files[path := t]), true)
      else if op == Str("create") then
        if "content" in change && change["content"].Str? then (w.(files := w.files[path := change["content"].s]), true)
        else (w.(files := w.files[path := []]), false)
      else (w, true)
  }

  /** `_apply_config_change`: the config file must open and `updates` must be a dict. */
  function ConfigChange(w: World, change: map<string, Value>): (World, bool) {
    if w.config.None? || "updates" !in change || !change["updates"].Obj? then (w, false)
    else
      match MergeConfig(w.config.value, change["updates"].fields)
      case None => (w, false)
      case Some(c) => (w.(config := Some(c)), true)
  }

  /** `_apply_env_change`: the existing variables, updated by the patch's, written back. */
  function EnvChange(w: World, change: map<string, Value>, keyOrder: map<string, Value> -> seq<string>,
                     str_: Value -> string): (World, bool) {
    if "variables" !in change || !change["variables"].Obj? then (w, false)
    else
      var m := change["variables"].fields;
      var old_ := if w.envFile.Some? then ParseEnv(w.envFile.value) else [];
      (w.(envFile := Some(EnvText(PutAll(old_, Items(keyOrder(m), m, str_))))), true)
  }

  /** One change, dispatched on its `type`; other types are skipped. */
  function ChangeStep(w: World, change: Value, keyOrder: map<string, Value> -> seq<string>,
                      str_: Value -> string): (World, bool) {
    if !change.Obj? || "type" !in change.fields then (w, false)
    else
      var t := change.fields["type"];
      if t == Str("file") then FileChange(w, change.fields)
      else if t == Str("config") then ConfigChange(w, change.fields)
      else if t == Str("env") then EnvChange(w, change.fields, keyOrder, str_)
      else (w, true)
  }

  /** The changes in order, stopping at the first that raises, whose partial effect stays. */
  function ChangeSteps(w: World, changes: seq<Value>, keyOrder: map<string, Value> -> seq<string>,
                       str_: Value -> string): (World, bool)
    decreases |changes|
  {
    if changes == [] then (w, true)
    else
      var (w1, ok) := ChangeSteps(w, changes[..|changes| - 1], keyOrder, str_);
      if !ok then (w1, false) else ChangeStep(w1, changes[|changes| - 1], keyOrder, str_)
  }

  lemma {:induction false} StepsStop(w: World, changes: seq<Value>, k: nat, keyOrder: map<string, Value> -> seq<string>,
                                     str_: Value -> string)
    requires k <= |changes| && !ChangeSteps(w, changes[..k], keyOrder, str_).1
    ensures ChangeSteps(w, changes, keyOrder, str_) == ChangeSteps(w, changes[..k], keyOrder, str_)
    decreases |changes|
  {
    if k < |changes| {
      assert changes[..|changes| - 1][..k] == changes[..k];
      StepsStop(w, changes[..|changes| - 1], k, keyOrder, str_);
    } else {
      assert changes[..k] == changes;
    }
  }

  /** `_apply_patch`: the patch's `changes`; a patch that is not a dict or lacks them fails. */
  function PatchApplied(w: World, patch: Value, keyOrder: map<string, Value> -> seq<string>,
                        str_: Value -> string): (World, bool) {
    if !patch.Obj? || "changes" !in patch.fields then (w, false)
    else
      match Iterated(patch.fields["changes"])
      case None => (w, false)
      case Some(cs) => ChangeSteps(w, cs, keyOrder, str_)
  }

  /** A change of a type other than file, config and env is skipped. */
  lemma OtherTypesSkipped(w: World, fields: map<string, Value>, keyOrder: map<string, Value> -> seq<string>,
                          str_: Value -> string)
    requires "type" in fields && fields["type"] !in {Str("file"), Str("config"), Str("env")}
    ensures ChangeStep(w, Obj(fields), keyOrder, str_) == (w, true)
  {
  }

  /** A config change never touches the text files or `.env`, and an env change never the files or the config. */
  lemma ChangesStayInTheirFile(w: World, change: map<string, Value>, keyOrder: map<string, Value> -> seq<string>,
                               str_: Value -> string)
    ensures var c := ConfigChange(w, change).0; c.files == w.files && c.envFile == w.envFile
    ensures var e := EnvChange(w, change, keyOrder, str_).0; e.files == w.files && e.config == w.config
    ensures var f := FileChange(w, change).0; f.config == w.config && f.envFile == w.envFile && f.files.Keys == w.files.Keys
  {
  }

  // ---------------------------------------------------------------------------
  // _verify_improvement
  // ---------------------------------------------------------------------------

  /**
   * Python's `a > b` for two numbers (a bool counts as 0 or 1) and for two strings (by
   * code point); any other pair raises.
   */
  function Greater(a: Value, b: Value): (r: Option<bool>)
    ensures NumberOf(a).Some? && NumberOf(b).Some? ==> r == Some(NumberOf(a).value > NumberOf(b).value)
    ensures a.Str? && b.Str? ==> r == Some(!LexLe(a.s, b.s))
    ensures r.Some? ==> (NumberOf(a).Some? && NumberOf(b).Some?) || (a.Str? && b.Str?)
  {
    if NumberOf(a).Some? && NumberOf(b).Some? then Some(NumberOf(a).value > NumberOf(b).value)
    else if a.Str? && b.Str? then Some(!LexLe(a.s, b.s))
    else None
  }

  function NumberOf(v: Value): Option<real> {
    match v
    case Num(n) => Some(n)
    case Bool(b) => Some(if b then 1.0 else 0.0)
    case _ => None
  }

  predicate AllTruthy(d: map<string, Value>) {
    forall k :: k in d ==> Truthy(d[k])
  }

  /** `state[key]` when the state is a dict and the entry is a dict too. */
  function Section(state: Value, key: string): Option<map<string, Value>> {
    if state.Obj? && key in state.fields && state.fields[key].Obj? then Some(state.fields[key].fields) else None
  }

  /** The final memory reading is not above the initial one (missing readings count as 100 and 0). */
  predicate MemoryNotGrown(initial: Value, final: Value) {
    Section(final, "resources").Some? && Section(initial, "resources").Some?
    && Greater(GetOr(Section(final, "resources").value, "memory_percent", Num(100.0)),
               GetOr(Section(initial, "resources").value, "memory_percent", Num(0.0))) == Some(false)
  }

  /**
   * `_verify_improvement`: the final config flags all hold, memory use did not grow
   * (the final reading defaults to 100 and the initial to 0) and the model flags all
   * hold. A missing section or an unusable value raises (`None`).
   */
  function VerifyImprovement(initial: Value, final: Value): (r: Option<bool>)
    ensures r == Some(true) ==> (final.Obj? && "config" in final.fields && final.fields["config"].Obj?
      && AllTruthy(final.fields["config"].fields))
    ensures r == Some(true) ==> "model" in final.fields && final.fields["model"].Obj? && AllTruthy(final.fields["model"].fields)
    ensures r == Some(true) <==>
      && Section(final, "config").Some? && AllTruthy(Section(final, "config").value)
      && MemoryNotGrown(initial, final)
      && Section(final, "model").Some? && AllTruthy(Section(final, "model").value)
    ensures Section(final, "config").Some? && !AllTruthy(Section(final, "config").value) ==> r == Some(false)
    ensures Section(final, "config").Some? && AllTruthy(Section(final, "config").value)
            && Section(final, "resources").Some? && Section(initial, "resources").Some?
            && Greater(GetOr(Section(final, "resources").value, "memory_percent", Num(100.0)),
                       GetOr(Section(initial, "resources").value, "memory_percent", Num(0.0))) == Some(true)
            ==> r == Some(false)
  {
    if !final.Obj? || "config" !in final.fields || !final.fields["config"].Obj? then None
    else if !AllTruthy(final.fields["config"].fields) then Some(false)
    else if "resources" !in final.fields || !final.fields["resources"].Obj? then None
    else if !initial.Obj? || "resources" !in initial.fields || !initial.fields["resources"].Obj? then None
    else
      var after := GetOr(final.fields["resources"].fields, "memory_percent", Num(100.0));
      var before := GetOr(initial.fields["resources"].fields, "memory_percent", Num(0.0));
      match Greater(after, before)
      case None => None
      case Some(true) => Some(false)
      case Some(false) =>
        if "model" !in final.fields || !final.fields["model"].Obj? then None
        else Some(AllTruthy(final.fields["model"].fields))
  }

  /** A final snapshot without a memory reading counts as 100%, so it passes only against an initial reading of at least 100. */
  lemma MissingReadingIsFull(initial: map<string, Value>, final: map<string, Value>, before: real)
    requires "resources" in initial && initial["resources"].Obj? && initial["resources"].fields == map["memory_percent" := Num(before)]
    requires "config" in final && final["config"] == Obj(map[]) && "model" in final && final["model"] == Obj(map[])
    requires "resources" in final && final["resources"] == Obj(map[])
    ensures VerifyImprovement(Obj(initial), Obj(final)) == Some(before >= 100.0)
  {
  }

  // ---------------------------------------------------------------------------
  // the verifier
  // ---------------------------------------------------------------------------

  /** Why `verify_and_apply` stopped with an exception. */
  datatype Problem = Unreadable | Uncheckable | InvalidFormat | BadSnapshot | DocsFailed

  /** An entry of the result's `errors`. */
  datatype Note = Message(text: string) | Raised(why: Problem)

  datatype PatchResult = PatchResult(success: bool, changes: seq<string>, errors: seq<Note>,
                                     timestamp: string, verification: Value)

  const FailedPrefix := "Failed to apply patch: "
  const AppliedPrefix := "Applied patch: "
  const NoImprovement := "Patch did not improve system state"

  class PatchVerifier {
    var files: map<string, string>
    var config: Option<Value>
    var envFile: Option<seq<string>>

    constructor(files: map<string, string>, config: Option<Value>, envFile: Option<seq<string>>)
      ensures State() == World(files, config, envFile)
    {
      this.files, this.config, this.envFile := files, config, envFile;
    }

    function State(): World
      reads this
    {
      World(files, config, envFile)
    }

    /** `_apply_file_change`. */
    method ApplyFileChange(change: map<string, Value>) returns (ok: bool)
      modifies this
      ensures (State(), ok) == FileChange(old(State()), change)
    {
      if "path" !in change || !change["path"].Str? || change["path"].s !in files || "operation" !in change {
        return false;
      }
      var path := change["path"].s;
      var op := change["operation"];
      if op == Str("modify") {
        if "modifications" !in change {
          return false;
        }
        var t := ApplyModifications(files[path], change["modifications"]);
        if t.None? {
          return false;
        }
        files := files[path := t.value];
      } else if op == Str("create") {
        // opening for writing empties the file before `content` is looked up
        if "content" !in change || !change["content"].Str? {
          files := files[path := []];
          return false;
        }
        files := files[path := change["content"].s];
      }
      return true;
    }

    /** `_apply_config_change`: each update in turn on the loaded config, which is written back only if none raises. */
    method ApplyConfigChange(change: map<string, Value>) returns (ok: bool)
      modifies this
      ensures (State(), ok) == ConfigChange(old(State()), change)
    {
      if config.None? || "updates" !in change || !change["updates"].Obj? {
        return false;
      }
      var updates := change["updates"].fields;
      var c := config.value;
      if updates == map[] {
        return true;
      }
      if !c.Obj? {
        return false;
      }
      var fields := c.fields;
      var rest := updates.Keys;
      while rest != {}
        invariant rest <= updates.Keys
        invariant fields.Keys == c.fields.Keys + (updates.Keys - rest)
        invariant forall k :: k in updates.Keys - rest ==> !Blocked(c.fields, updates, k) && fields[k] == MergedAt(c.fields, updates, k)
        invariant forall k :: k in c.fields && k !in updates.Keys - rest ==> fields[k] == c.fields[k]
        decreases rest
      {
        var k :| k in rest;
        if updates[k].Obj? {
          if k in fields && !fields[k].Obj? {
            assert Blocked(c.fields, updates, k);
            return false;
          }
          var sub := if k in fields then fields[k].fields else map[];
          fields := fields[k := Obj(sub + updates[k].fields)];
        } else {
          fields := fields[k := updates[k]];
        }
        rest := rest - {k};
      }
      assert updates.Keys - rest == updates.Keys;
      MergedFields(c, updates, fields);
      config := Some(Obj(fields));
      return true;
    }

    /** `_apply_env_change`: read the existing variables line by line, apply the patch's, write them all back. */
    method ApplyEnvChange(change: map<string, Value>, keyOrder: map<string, Value> -> seq<string>,
                          str_: Value -> string) returns (ok: bool)
      modifies this
      ensures (State(), ok) == EnvChange(old(State()), change, keyOrder, str_)
    {
      var vars := ReadEnv(if envFile.Some? then envFile.value else []);
      if "variables" !in change || !change["variables"].Obj? {
        return false;
      }
      var m := change["variables"].fields;
      vars := UpdateVars(vars, Items(keyOrder(m), m, str_));
      envFile := Some(EnvText(vars));
      return true;
    }

    /** One change of the patch. */
    method ApplyChange(change: Value, keyOrder: map<string, Value> -> seq<string>, str_: Value -> string)
      returns (ok: bool)
      modifies this
      ensures (State(), ok) == ChangeStep(old(State()), change, keyOrder, str_)
    {
      if !change.Obj? || "type" !in change.fields {
        return false;
      }
      var t := change.fields["type"];
      if t == Str("file") {
        ok := ApplyFileChange(change.fields);
      } else if t == Str("config") {
        ok := ApplyConfigChange(change.fields);
      } else if t == Str("env") {
        ok := ApplyEnvChange(change.fields, keyOrder, str_);
      } else {
        ok := true;
      }
    }

    /** `_apply_patch`: the changes in order; false at the first that raises. */
    method ApplyPatch(patch: Value, keyOrder: map<string, Value> -> seq<string>, str_: Value -> string)
      returns (ok: bool)
      modifies this
      ensures (State(), ok) == PatchApplied(old(State()), patch, keyOrder, str_)
    {
      if !patch.Obj? || "changes" !in patch.fields {
        return false;
      }
      var cs := Iterated(patch.fields["changes"]);
      if cs.None? {
        return false;
      }
      var changes := cs.value;
      ghost var w0 := State();
      var i := 0;
      while i < |changes|
        invariant i <= |changes|
        invariant (State(), true) == ChangeSteps(w0, changes[..i], keyOrder, str_)
      {
        assert changes[..i + 1][..i] == changes[..i];
        var applied := ApplyChange(changes[i], keyOrder, str_);
        if !applied {
          StepsStop(w0, changes, i + 1, keyOrder, str_);
          return false;
        }
        i := i + 1;
      }
      assert changes[..i] == changes;
      return true;
    }

    /**
     * `verify_and_apply`: a patch that cannot be read, checked or validated fails without
     * touching anything; otherwise it is applied, and the result succeeds only when the
     * application succeeded, the snapshots show an improvement and the documentation
     * was written. A snapshot showing none triggers the rollback (`rolledBack`).
     */
    method VerifyAndApply(patchFile: string, decoded: Option<Value>, initial: Value, final: Value, docsOk: bool,
                          keyOrder: map<string, Value> -> seq<string>, str_: Value -> string, now: string)
      returns (r: PatchResult, rolledBack: bool)
      modifies this
      ensures r.timestamp == now && r.verification == final
      ensures !Accepted(decoded) ==> State() == old(State()) && !r.success && !rolledBack && r.changes == []
      ensures Accepted(decoded) ==> State() == PatchApplied(old(State()), decoded.value, keyOrder, str_).0
      ensures r.success <==> Accepted(decoded) && PatchApplied(old(State()), decoded.value, keyOrder, str_).1
                             && VerifyImprovement(initial, final) == Some(true) && docsOk
      ensures r.success ==> r.changes == [AppliedPrefix + patchFile] && r.errors == []
      ensures rolledBack <==> Accepted(decoded) && VerifyImprovement(initial, final) == Some(false)
    {
      rolledBack := false;
      if decoded.None? {
        return PatchResult(false, [], [Raised(Unreadable)], now, final), false;
      }
      var valid := ValidatePatch(decoded.value);
      if valid.None? {
        return PatchResult(false, [], [Raised(Uncheckable)], now, final), false;
      }
      if !valid.value {
        return PatchResult(false, [], [Raised(InvalidFormat)], now, final), false;
      }
      var success := ApplyPatch(decoded.value, keyOrder, str_);
      var changes := if success then [AppliedPrefix + patchFile] else [];
      var errors := if success then [] else [Message(FailedPrefix + patchFile)];
      var improved := VerifyImprovement(initial, final);
      if improved.None? {
        return PatchResult(false, changes, [Raised(BadSnapshot)], now, final), false;
      }
      if !improved.value {
        rolledBack := true;
        errors := errors + [Message(NoImprovement)];
        success := false;
      }
      if success && !docsOk {
        return PatchResult(false, changes, [Raised(DocsFailed)], now, final), rolledBack;
      }
      return PatchResult(success, changes, errors, now, final), rolledBack;
    }
  }

  /** The patch was decoded and passes `_validate_patch`. */
  predicate Accepted(decoded: Option<Value>) {
    decoded.Some? && ValidatePatch(decoded.value) == Some(true)
  }
}
