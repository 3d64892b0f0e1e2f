/**
 * The review packager: collect the files named by the include globs, classify each as
 * excluded, empty, oversize or selected, and either report the selection (dry run) or
 * write it to an archive with a manifest. Glob expansion, `fnmatch`, file sizes, SHA-1
 * digests and the clock are inputs; paths are relative to the project root.
 */
module PackageReview {
  import opened Wrappers
  import opened Text
  import opened Numeric

  const DefaultIncludes: seq<string> := [
    "README.md", "PROJECT_DOCUMENTATION.md", "PRO_DOCS.md", "Makefile", "docs/**",
    "official_docs/**", "scripts/**", "config/**", "agents/**", "strategies/**",
    "user_data/learning_log.csv", "user_data/ml_trades_book.csv", "user_data/verified_strategies/**"]
  const DefaultExcludes: seq<string> := [
    ".git/**", ".github/**", ".venv/**", "__pycache__/**", "*.pyc", "*.pyo", "*.log", "*.tmp",
    "*.bak", "*.DS_Store", "runs/**", "data/**", "user_data/data/**", "user_data/logs/**",
    "user_data/hyperopt_results/**", "config/agent_config.yaml"]
  const DefaultMaxMb := 20
  const DefaultOutput := "hf_battle_ai_review_package.zip"
  const MiB := 1024 * 1024
  const ManifestName := "manifest.json"

  /** A zip timestamp. */
  datatype Stamp = Stamp(year: int, month: int, day: int, hour: int, minute: int, second: int)

  /** The fixed timestamp of reproducible archives. */
  const ReproTs := Stamp(2025, 1, 1, 0, 0, 0)

  /** `fnmatch.fnmatch`, supplied by the caller. */
  type Matcher = (string, string) -> bool

  /** `_match_any`: some pattern matches the path. */
  function MatchAny(path: string, patterns: seq<string>, fnmatch: Matcher): (b: bool)
    ensures b <==> exists i :: 0 <= i < |patterns| && fnmatch(path, patterns[i])
  {
    if patterns == [] then false
    else fnmatch(path, patterns[0]) || MatchAny(path, patterns[1..], fnmatch)
  }

  /** Appending extra patterns to the defaults matches what either list matches. */
  lemma MatchAnyConcat(path: string, defaults: seq<string>, extra: seq<string>, fnmatch: Matcher)
    ensures MatchAny(path, defaults + extra, fnmatch) <==> MatchAny(path, defaults, fnmatch) || MatchAny(path, extra, fnmatch)
  {
    var all := defaults + extra;
    if MatchAny(path, defaults, fnmatch) {
      var i :| 0 <= i < |defaults| && fnmatch(path, defaults[i]);
      assert all[i] == defaults[i];
    }
    if MatchAny(path, extra, fnmatch) {
      var i :| 0 <= i < |extra| && fnmatch(path, extra[i]);
      assert all[|defaults| + i] == extra[i];
    }
    if MatchAny(path, all, fnmatch) && !MatchAny(path, defaults, fnmatch) {
      var i :| 0 <= i < |all| && fnmatch(path, all[i]);
      assert all[i] == extra[i - |defaults|];
    }
  }

  // ---------------------------------------------------------------------------
  // iter_candidates
  // ---------------------------------------------------------------------------

  function Elems(s: seq<string>): set<string> {
    set x | x in s
  }

  /** The files the glob of each include pattern yields (directories already expanded). */
  function Found(includes: seq<string>, glob: string -> seq<string>): set<string>
    decreases |includes|
  {
    if includes == [] then {}
    else Found(includes[..|includes| - 1], glob) + Elems(glob(includes[|includes| - 1]))
  }

  /**
   * The sort key: the path under `lower`, Python's Unicode `str.lower`, which the model
   * takes as given. Every candidate starts with the same root, so ordering the relative
   * paths orders the full ones.
   */
  predicate KeyLe(lower: string -> string, a: string, b: string) {
    LexLe(lower(a), lower(b))
  }

  predicate SortedByKey(lower: string -> string, s: seq<string>) {
    forall i, j :: 0 <= i < j < |s| ==> KeyLe(lower, s[i], s[j])
  }

  predicate NoDup(s: seq<string>) {
    forall i, j :: 0 <= i < j < |s| ==> s[i] != s[j]
  }

  /** One step of `sorted(set(files), key=...)`: put a new path at its place in the order. */
  method InsertSorted(files: seq<string>, p: string, lower: string -> string) returns (r: seq<string>)
    requires SortedByKey(lower, files) && NoDup(files) && p !in files
    ensures SortedByKey(lower, r) && NoDup(r) && Elems(r) == Elems(files) + {p}
  {
    var k := 0;
    while k < |files| && !KeyLe(lower, p, files[k])
      invariant k <= |files|
      invariant forall i :: 0 <= i < k ==> !KeyLe(lower, p, files[i])
    {
      k := k + 1;
    }
    r := files[..k] + [p] + files[k..];
    InsertedSorted(files, p, k, lower);
    InsertedElems(files, p, k);
  }

  /** Putting `p` after the paths it sorts above and before the rest keeps the order. */
  lemma InsertedSorted(files: seq<string>, p: string, k: nat, lower: string -> string)
    requires SortedByKey(lower, files) && k <= |files|
    requires forall i :: 0 <= i < k ==> !KeyLe(lower, p, files[i])
    requires k < |files| ==> KeyLe(lower, p, files[k])
    ensures SortedByKey(lower, files[..k] + [p] + files[k..])
  {
    var r := files[..k] + [p] + files[k..];
    forall i, j | 0 <= i < j < |r| ensures KeyLe(lower, r[i], r[j]) {
      if i < k && j == k {
        LexLeTotal(lower(p), lower(files[i]));
      } else if i == k && j > k {
        if j - 1 > k {
          LexLeTrans(lower(p), lower(files[k]), lower(files[j - 1]));
        }
      } else if i < k && j > k {
        assert KeyLe(lower, files[i], files[j - 1]);
      } else if i > k {
        assert KeyLe(lower, files[i - 1], files[j - 1]);
      }
    }
  }

  /** Inserting a new path adds exactly it and no duplicate. */
  lemma InsertedElems(files: seq<string>, p: string, k: nat)
    requires NoDup(files) && p !in files && k <= |files|
    ensures var r := files[..k] + [p] + files[k..];
      NoDup(r) && Elems(r) == Elems(files) + {p}
  {
    assert files == files[..k] + files[k..];
  }

  /** `iter_candidates`: every globbed file once, ordered by lower-cased path. */
  method IterCandidates(includes: seq<string>, glob: string -> seq<string>, lower: string -> string) returns (files: seq<string>)
    ensures SortedByKey(lower, files) && NoDup(files) && Elems(files) == Found(includes, glob)
  {
    files := [];
    var i := 0;
    while i < |includes|
      invariant i <= |includes|
      invariant SortedByKey(lower, files) && NoDup(files) && Elems(files) == Found(includes[..i], glob)
    {
      var hits := glob(includes[i]);
      var j := 0;
      while j < |hits|
        invariant j <= |hits|
        invariant SortedByKey(lower, files) && NoDup(files)
        invariant Elems(files) == Found(includes[..i], glob) + Elems(hits[..j])
      {
        if hits[j] !in files {
          files := InsertSorted(files, hits[j], lower);
        }
        assert Elems(hits[..j + 1]) == Elems(hits[..j]) + {hits[j]} by {
          assert hits[..j + 1] == hits[..j] + [hits[j]];
        }
        j := j + 1;
      }
      assert hits[..j] == hits;
      assert includes[..i + 1][..i] == includes[..i];
      i := i + 1;
    }
    assert includes[..i] == includes;
  }

  // ---------------------------------------------------------------------------
  // make_zip: selection
  // ---------------------------------------------------------------------------

  /** Why a candidate is skipped, or `None` when it is selected; the first rule that applies wins. */
  function Reason(rel: string, size: nat, excludes: seq<string>, maxMb: int, fnmatch: Matcher): (r: Option<string>)
    ensures MatchAny(rel, excludes, fnmatch) ==> r == Some("excluded")
    ensures !MatchAny(rel, excludes, fnmatch) && size == 0 ==> r == Some("zero-bytes")
    ensures r.None? <==> !MatchAny(rel, excludes, fnmatch) && size > 0 && (maxMb == 0 || size <= maxMb * MiB)
  {
    if MatchAny(rel, excludes, fnmatch) then Some("excluded")
    else if size == 0 then Some("zero-bytes")
    else if maxMb != 0 && size > maxMb * MiB then Some(">" + IntToString(maxMb) + "MB")
    else None
  }

  datatype Selected = Selected(path: string, size: nat)
  datatype Skipped = Skipped(path: string, reason: string)

  /** The selected candidates, in candidate order. */
  function SelectedOf(cands: seq<string>, size: string -> nat, excludes: seq<string>, maxMb: int, fnmatch: Matcher): seq<Selected>
    decreases |cands|
  {
    if cands == [] then []
    else
      var c := cands[|cands| - 1];
      var rest := SelectedOf(cands[..|cands| - 1], size, excludes, maxMb, fnmatch);
      if Reason(c, size(c), excludes, maxMb, fnmatch).None? then rest + [Selected(c, size(c))] else rest
  }

  /** The skipped candidates with their reasons, in candidate order. */
  function SkippedOf(cands: seq<string>, size: string -> nat, excludes: seq<string>, maxMb: int, fnmatch: Matcher): seq<Skipped>
    decreases |cands|
  {
    if cands == [] then []
    else
      var c := cands[|cands| - 1];
      var rest := SkippedOf(cands[..|cands| - 1], size, excludes, maxMb, fnmatch);
      match Reason(c, size(c), excludes, maxMb, fnmatch)
      case Some(why) => rest + [Skipped(c, why)]
      case None => rest
  }

  /** The classification loop of `make_zip`. */
  method SelectFiles(cands: seq<string>, size: string -> nat, excludes: seq<string>, maxMb: int, fnmatch: Matcher)
    returns (selected: seq<Selected>, skipped: seq<Skipped>)
    ensures selected == SelectedOf(cands, size, excludes, maxMb, fnmatch)
    ensures skipped == SkippedOf(cands, size, excludes, maxMb, fnmatch)
  {
    selected, skipped := [], [];
    var i := 0;
    while i < |cands|
      invariant i <= |cands|
      invariant selected == SelectedOf(cands[..i], size, excludes, maxMb, fnmatch)
      invariant skipped == SkippedOf(cands[..i], size, excludes, maxMb, fnmatch)
    {
      var f := cands[i];
      assert cands[..i + 1][..i] == cands[..i] && cands[..i + 1][i] == f;
      if MatchAny(f, excludes, fnmatch) {
        skipped := skipped + [Skipped(f, "excluded")];
      } else if size(f) == 0 {
        skipped := skipped + [Skipped(f, "zero-bytes")];
      } else if maxMb != 0 && size(f) > maxMb * MiB {
        skipped := skipped + [Skipped(f, ">" + IntToString(maxMb) + "MB")];
      } else {
        selected := selected + [Selected(f, size(f))];
      }
      i := i + 1;
    }
    assert cands[..i] == cands;
  }

  /** Each candidate is classified exactly once: selected and skipped together account for all of them. */
  lemma {:induction false} ClassifiedOnce(cands: seq<string>, size: string -> nat, excludes: seq<string>, maxMb: int, fnmatch: Matcher)
    ensures |SelectedOf(cands, size, excludes, maxMb, fnmatch)| + |SkippedOf(cands, size, excludes, maxMb, fnmatch)| == |cands|
    decreases |cands|
  {
    if cands != [] {
      ClassifiedOnce(cands[..|cands| - 1], size, excludes, maxMb, fnmatch);
    }
  }

  /**
   * A candidate is selected exactly when no rule skips it, and it is skipped (with that
   * rule's reason) exactly when one does.
   */
  lemma {:induction false} SelectedIffNoReason(cands: seq<string>, size: string -> nat, excludes: seq<string>, maxMb: int, fnmatch: Matcher, c: string)
    requires c in cands
    ensures var why := Reason(c, size(c), excludes, maxMb, fnmatch);
      (Selected(c, size(c)) in SelectedOf(cands, size, excludes, maxMb, fnmatch) <==> why.None?)
      && (why.Some? ==> Skipped(c, why.value) in SkippedOf(cands, size, excludes, maxMb, fnmatch))
      && (why.None? ==> forall s :: s in SkippedOf(cands, size, excludes, maxMb, fnmatch) ==> s.path != c)
    decreases |cands|
  {
    var init := cands[..|cands| - 1];
    var last := cands[|cands| - 1];
    SelectedPaths(init, size, excludes, maxMb, fnmatch);
    SkippedPaths(init, size, excludes, maxMb, fnmatch);
    if c in init {
      SelectedIffNoReason(init, size, excludes, maxMb, fnmatch, c);
    } else {
      assert c == last by { assert cands == init + [last]; }
    }
  }

  /** Every selected entry is a candidate that no rule skips, carrying its size. */
  lemma {:induction false} SelectedPaths(cands: seq<string>, size: string -> nat, excludes: seq<string>, maxMb: int, fnmatch: Matcher)
    ensures forall s :: s in SelectedOf(cands, size, excludes, maxMb, fnmatch) ==>
      s.path in cands && s.size == size(s.path) && Reason(s.path, s.size, excludes, maxMb, fnmatch).None?
    decreases |cands|
  {
    if cands != [] {
      SelectedPaths(cands[..|cands| - 1], size, excludes, maxMb, fnmatch);
    }
  }

  /** Every skipped entry is a candidate, with the reason the first applicable rule gives. */
  lemma {:induction false} SkippedPaths(cands: seq<string>, size: string -> nat, excludes: seq<string>, maxMb: int, fnmatch: Matcher)
    ensures forall s :: s in SkippedOf(cands, size, excludes, maxMb, fnmatch) ==>
      s.path in cands && Reason(s.path, size(s.path), excludes, maxMb, fnmatch) == Some(s.reason)
    decreases |cands|
  {
    if cands != [] {
      SkippedPaths(cands[..|cands| - 1], size, excludes, maxMb, fnmatch);
    }
  }

  /** With `max_mb = 0` nothing is skipped for its size. */
  lemma NoSizeLimit(cands: seq<string>, size: string -> nat, excludes: seq<string>, fnmatch: Matcher)
    ensures forall s :: s in SkippedOf(cands, size, excludes, 0, fnmatch) ==> s.reason == "excluded" || s.reason == "zero-bytes"
  {
    SkippedPaths(cands, size, excludes, 0, fnmatch);
  }

  // ---------------------------------------------------------------------------
  // make_zip: the archive and its manifest
  // ---------------------------------------------------------------------------

  /** An archive member; `stamp` is `None` when it carries the time of writing. */
  datatype ZipEntry = ZipEntry(name: string, stamp: Option<Stamp>)

  datatype ManifestEntry = ManifestEntry(path: string, size: nat, sha1: string)

  datatype Manifest = Manifest(createdUtc: int, root: string, count: nat, maxMb: int,
                               includes: seq<string>, excludes: seq<string>, files: seq<ManifestEntry>)

  datatype Packaged =
    | DryRun(wouldInclude: seq<Selected>, skipped: seq<Skipped>, output: string)
    | Packed(included: seq<ManifestEntry>, skipped: seq<Skipped>, output: string,
             entries: seq<ZipEntry>, manifest: Manifest)

  function StampFor(reproducible: bool): (s: Option<Stamp>)
    ensures reproducible <==> s == Some(ReproTs)
  {
    if reproducible then Some(ReproTs) else None
  }

  /** The archive loop: one member and one manifest entry per selected file, in selection order. */
  method WriteMembers(selected: seq<Selected>, reproducible: bool, sha1: string -> string)
    returns (entries: seq<ZipEntry>, files: seq<ManifestEntry>)
    ensures |entries| == |files| == |selected|
    ensures forall i :: 0 <= i < |selected| ==>
      entries[i] == ZipEntry(selected[i].path, StampFor(reproducible))
      && files[i] == ManifestEntry(selected[i].path, selected[i].size, sha1(selected[i].path))
  {
    entries, files := [], [];
    var i := 0;
    while i < |selected|
      invariant i <= |selected| && |entries| == |files| == i
      invariant forall k :: 0 <= k < i ==>
        entries[k] == ZipEntry(selected[k].path, StampFor(reproducible))
        && files[k] == ManifestEntry(selected[k].path, selected[k].size, sha1(selected[k].path))
    {
      var s := selected[i];
      entries := entries + [ZipEntry(s.path, StampFor(reproducible))];
      files := files + [ManifestEntry(s.path, s.size, sha1(s.path))];
      i := i + 1;
    }
  }

  /** What `iter_candidates` returns for these includes. */
  predicate CandidateList(cands: seq<string>, includes: seq<string>, glob: string -> seq<string>, lower: string -> string) {
    SortedByKey(lower, cands) && NoDup(cands) && Elems(cands) == Found(includes, glob)
  }

  /** The result reports the skips and the selection (paths and sizes, in order) of `cands`. */
  predicate Accounts(r: Packaged, cands: seq<string>, size: string -> nat, excludes: seq<string>, maxMb: int, fnmatch: Matcher) {
    var selected := SelectedOf(cands, size, excludes, maxMb, fnmatch);
    r.skipped == SkippedOf(cands, size, excludes, maxMb, fnmatch)
    && (r.DryRun? ==> r.wouldInclude == selected)
    && (r.Packed? ==> (|r.included| == |selected|
                       && forall i :: 0 <= i < |r.included| ==>
                            r.included[i].path == selected[i].path && r.included[i].size == selected[i].size))
  }

  /**
   * A written archive: the files in manifest order, then the manifest, whose count is the
   * number of files; in reproducible mode every member has the fixed timestamp.
   */
  predicate WellFormed(r: Packaged, reproducible: bool, now: int)
    requires r.Packed?
  {
    r.manifest.count == |r.included| && r.manifest.files == r.included
    && |r.entries| == |r.included| + 1 && r.entries[|r.included|].name == ManifestName
    && (forall i :: 0 <= i < |r.included| ==> r.entries[i].name == r.included[i].path)
    && (reproducible ==> forall e :: e in r.entries ==> e.stamp == Some(ReproTs))
    && r.manifest.createdUtc == now
  }

  /**
   * `make_zip`. A dry run reports the selection and skips; otherwise every selected file
   * goes into the archive in order, followed by the manifest, whose count is the number of
   * files included; in reproducible mode every member carries the fixed timestamp.
   */
  method MakeZip(output: string, root: string, includes: seq<string>, excludes: seq<string>, maxMb: int,
                 dryRun: bool, reproducible: bool, glob: string -> seq<string>, size: string -> nat,
                 fnmatch: Matcher, sha1: string -> string, lower: string -> string, now: int) returns (r: Packaged)
    ensures dryRun <==> r.DryRun?
    ensures exists cands :: CandidateList(cands, includes, glob, lower) && Accounts(r, cands, size, excludes, maxMb, fnmatch)
    ensures r.Packed? ==> WellFormed(r, reproducible, now)
  {
    var cands := IterCandidates(includes, glob, lower);
    var selected, skipped := SelectFiles(cands, size, excludes, maxMb, fnmatch);
    if dryRun {
      r := DryRun(selected, skipped, output);
      assert Accounts(r, cands, size, excludes, maxMb, fnmatch);
      return;
    }
    var entries, files := WriteMembers(selected, reproducible, sha1);
    entries := entries + [ZipEntry(ManifestName, StampFor(reproducible))];
    var manifest := Manifest(now, root, |files|, maxMb, includes, excludes, files);
    r := Packed(files, skipped, output, entries, manifest);
    assert Accounts(r, cands, size, excludes, maxMb, fnmatch);
  }

  /** The effective pattern lists of `main`: the defaults, then the command-line extras. */
  function Effective(defaults: seq<string>, extra: seq<string>): (r: seq<string>)
    ensures |r| == |defaults| + |extra| && r[..|defaults|] == defaults && r[|defaults|..] == extra
  {
    defaults + extra
  }

  /**
   * Extra excludes can only skip more: a path the default excludes skip is still skipped,
   * and one skipped under the effective list is matched by a default or an extra pattern.
   */
  lemma ExtrasOnlyAdd(path: string, extra: seq<string>, fnmatch: Matcher)
    ensures MatchAny(path, DefaultExcludes, fnmatch) ==> MatchAny(path, Effective(DefaultExcludes, extra), fnmatch)
    ensures MatchAny(path, Effective(DefaultExcludes, extra), fnmatch) ==>
      MatchAny(path, DefaultExcludes, fnmatch) || MatchAny(path, extra, fnmatch)
  {
    MatchAnyConcat(path, DefaultExcludes, extra, fnmatch);
  }
}
