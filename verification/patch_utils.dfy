/**
 * Patch helpers: cleaning up an LLM-suggested patch, backing up and restoring a file,
 * and applying a suggestion either as a whole new file or as a diff through an ordered
 * list of external patch commands. The file system is a map from paths to contents;
 * each external command is a parameter returning its exit status and output.
 */
module PatchUtils {
  import opened Wrappers
  import opened Text

  const Fence := "```"
  const PatchTag := "patch\n"

  /** Python's `s[:-3]`: everything but the last three characters, or nothing. */
  function DropLast3(s: string): (r: string)
    ensures |s| >= 3 ==> r == s[..|s| - 3]
    ensures |s| < 3 ==> r == []
  {
    if |s| >= 3 then s[..|s| - 3] else []
  }

  /** Line endings made `\n`: first `\r\n`, then any lone `\r`. */
  function NormalizeNewlines(s: string): string {
    Replace(Replace(s, "\r\n", "\n"), "\r", "\n")
  }

  /** `txt` after the fence step: the opening line and the closing fence removed. */
  function Unfenced(txt: string): string {
    if StartsWith(txt, Fence) && EndsWith(txt, Fence) then
      var body := match Find(txt, "\n") case Some(i) => txt[i + 1..] case None => txt;
      DropLast3(body)
    else txt
  }

  /** `txt` after the tag step: one leading `patch\n`, in any letter case, removed. */
  function Untagged(txt: string): string {
    if StartsWith(Lower(txt), PatchTag) then txt[|PatchTag|..] else txt
  }

  /** `sanitize_patch_string`. */
  function Sanitize(raw: string): string {
    Strip(NormalizeNewlines(Untagged(Unfenced(Strip(raw)))))
  }

  /** The result has no surrounding whitespace and no carriage return. */
  lemma SanitizeClean(raw: string)
    ensures var r := Sanitize(raw);
      '\r' !in r && (r == [] || (!IsSpace(r[0]) && !IsSpace(r[|r| - 1])))
  {
    var u := Untagged(Unfenced(Strip(raw)));
    NormalizedClean(u);
    StripNoChar(NormalizeNewlines(u), '\r');
    StripEnds(NormalizeNewlines(u));
  }

  /** Normalising leaves no carriage return. */
  lemma NormalizedClean(u: string)
    ensures '\r' !in NormalizeNewlines(u)
  {
    ReplaceRemovesChar(Replace(u, "\r\n", "\n"), '\r', "\n");
  }

  /** Text that is neither fenced nor tagged and has no carriage return only loses its surrounding whitespace. */
  lemma SanitizePlain(raw: string)
    requires !(StartsWith(Strip(raw), Fence) && EndsWith(Strip(raw), Fence))
    requires !StartsWith(Lower(Strip(raw)), PatchTag)
    requires '\r' !in raw
    ensures Sanitize(raw) == Strip(raw)
  {
    var t := Strip(raw);
    var i, j := StripIsSlice(raw);
    assert '\r' !in t by { assert forall k :: 0 <= k < |t| ==> t[k] == raw[i + k]; }
    NoCarriageReturn(t);
    StripEnds(raw);
    StripNoop(t);
  }

  /** Normalising text without `\r` changes nothing. */
  lemma NoCarriageReturn(t: string)
    requires '\r' !in t
    ensures NormalizeNewlines(t) == t
  {
    assert !Contains(t, "\r\n") by {
      forall i: nat | i <= |t| ensures !OccursAt(t, "\r\n", i) {
        if i + 2 <= |t| { assert t[i..i + 2][0] == t[i]; }
      }
    }
    ReplaceAbsent(t, "\r\n", "\n");
    assert !Contains(t, "\r") by {
      forall i: nat | i <= |t| ensures !OccursAt(t, "\r", i) {
        if i + 1 <= |t| { assert t[i..i + 1][0] == t[i]; }
      }
    }
    ReplaceAbsent(t, "\r", "\n");
  }

  /** The fence step on a block whose opening line is `lang`: the body is what remains. */
  lemma UnfenceBlock(lang: string, body: string)
    requires '\n' !in lang
    ensures Unfenced(Fence + lang + "\n" + body + Fence) == body
  {
    var t := Fence + lang + "\n" + body + Fence;
    var p := |Fence + lang|;
    assert StartsWith(t, Fence) by { assert t[..3] == Fence; }
    assert EndsWith(t, Fence) by { assert t[|t| - 3..] == Fence; }
    assert t[p] == '\n';
    forall k | 0 <= k < p ensures t[k] != '\n' {
      if k >= 3 { assert t[k] == lang[k - 3]; }
    }
    FindFirstChar(t, '\n', 0, p);
    assert t[p + 1..] == body + Fence;
  }

  /**
   * A fenced block with a language tag on its opening line comes back as its body,
   * stripped, provided the body carries no `patch` tag and no carriage return.
   */
  lemma SanitizeFenced(raw: string, lang: string, body: string)
    requires Strip(raw) == Fence + lang + "\n" + body + Fence
    requires '\n' !in lang && '\r' !in body
    requires !StartsWith(Lower(body), PatchTag)
    ensures Sanitize(raw) == Strip(body)
  {
    UnfenceBlock(lang, body);
    NoCarriageReturn(body);
  }

  /** The tag on the first line goes, once, before the newlines are normalised. */
  lemma SanitizeTagged(raw: string, tag: string, rest: string)
    requires !(StartsWith(Strip(raw), Fence) && EndsWith(Strip(raw), Fence))
    requires |tag| == |PatchTag| && Lower(tag) == PatchTag && Strip(raw) == tag + rest
    ensures Sanitize(raw) == Strip(NormalizeNewlines(rest))
  {
    assert Unfenced(Strip(raw)) == Strip(raw);
    UntaggedTag(Strip(raw), tag, rest);
  }

  /** A leading tag in any letter case is what the tag step removes. */
  lemma UntaggedTag(t: string, tag: string, rest: string)
    requires |tag| == |PatchTag| && Lower(tag) == PatchTag && t == tag + rest
    ensures Untagged(t) == rest
  {
    var n := |tag|;
    assert t[..n] == tag && t[n..] == rest;
    LowerPrefix(t, n);
  }

  // ---------------------------------------------------------------------------
  // Backups and patch application
  // ---------------------------------------------------------------------------

  const BackupDir := ".agent_backups"
  const FileFailLog := "last_patch_fail.log"
  const ProjectFailLog := "last_project_patch_fail.log"

  /** `os.path.basename`: the text after the last `/`. */
  function Basename(path: string): (b: string)
    ensures '/' !in b
    ensures b == path || (|b| < |path| && path[|path| - |b| - 1] == '/' && b == path[|path| - |b|..])
  {
    if path == [] then []
    else if path[|path| - 1] == '/' then []
    else
      var b := Basename(path[..|path| - 1]);
      assert b == path[..|path| - 1] || path[|path| - 1 - |b| - 1] == '/';
      b + [path[|path| - 1]]
  }

  /** Where `backup_file` keeps the copy of `path`. */
  function BackupPath(path: string): string {
    BackupDir + "/" + Basename(path)
  }

  /** Two paths in different directories with the same file name share one backup slot. */
  lemma BackupCollides(dir1: string, dir2: string, name: string)
    requires '/' !in name
    ensures BackupPath(dir1 + "/" + name) == BackupPath(dir2 + "/" + name)
  {
    BasenameOfJoin(dir1, name);
    BasenameOfJoin(dir2, name);
  }

  lemma {:induction false} BasenameOfJoin(dir: string, name: string)
    requires '/' !in name
    ensures Basename(dir + "/" + name) == name
    decreases |name|
  {
    var p := dir + "/" + name;
    if name == [] {
      assert p[|p| - 1] == '/';
    } else {
      assert p[|p| - 1] == name[|name| - 1];
      assert p[..|p| - 1] == dir + "/" + name[..|name| - 1];
      BasenameOfJoin(dir, name[..|name| - 1]);
      assert name[..|name| - 1] + [name[|name| - 1]] == name;
    }
  }

  /** The strategies, in the order they are tried, for a patch written to `patchPath`. */
  function Attempts(patchPath: string): (a: seq<seq<string>>)
    ensures |a| == 4 && forall i :: 0 <= i < 4 ==> |a[i]| > 0 && a[i][|a[i]| - 1] == patchPath
  {
    [["patch", "--batch", "--forward", "-p0", "-i", patchPath],
     ["patch", "--batch", "--forward", "-p1", "-i", patchPath],
     ["git", "apply", "--reject", "--whitespace=fix", patchPath],
     ["git", "apply", "-p0", "--reject", "--whitespace=fix", patchPath]]
  }

  /**
   * What running an external command does: its exit status (as success), its combined
   * output and the working tree it leaves behind. `patch --forward` and
   * `git apply --reject` rewrite files, and a failing run may still have applied some hunks.
   */
  datatype Outcome = Outcome(ok: bool, out: string, files: map<string, string>)

  /** Python's `s[:n]`. */
  function Take(s: string, n: nat): string {
    if |s| <= n then s else s[..n]
  }

  /** The result of trying commands in order: success, how many ran, the tree after them and the last output. */
  datatype Trial = Trial(ok: bool, count: nat, files: map<string, string>, lastOut: string)

  /**
   * Running `cmds` in order from the tree `files` until one succeeds; each command sees
   * the tree its predecessors left. `lastOut` is the output before the first command.
   */
  function Tried(files: map<string, string>, cmds: seq<seq<string>>, run: (map<string, string>, seq<string>) -> Outcome,
                 lastOut: string): (t: Trial)
    ensures t.count <= |cmds|
    ensures t.ok ==> t.count >= 1
    ensures !t.ok ==> t.count == |cmds|
    decreases |cmds|
  {
    if cmds == [] then Trial(false, 0, files, lastOut)
    else
      var o := run(files, cmds[0]);
      if o.ok then Trial(true, 1, o.files, o.out)
      else
        var t := Tried(o.files, cmds[1..], run, o.out);
        t.(count := t.count + 1)
  }

  /** The tree and the outcome just before the `k`-th command, when every earlier one failed. */
  function Before(files: map<string, string>, cmds: seq<seq<string>>, run: (map<string, string>, seq<string>) -> Outcome,
                  k: nat): map<string, string>
    requires k <= |cmds|
    decreases k
  {
    if k == 0 then files else run(Before(files, cmds, run, k - 1), cmds[k - 1]).files
  }

  /**
   * The commands that ran are exactly those up to the first success: every earlier one
   * failed on the tree it saw, and the last one that ran succeeded exactly when the trial
   * did, leaving its tree and its output.
   */
  lemma {:induction false} TriedStopsAtFirstSuccess(files: map<string, string>, cmds: seq<seq<string>>,
                                                    run: (map<string, string>, seq<string>) -> Outcome, lastOut: string)
    requires cmds != []
    ensures var t := Tried(files, cmds, run, lastOut);
      t.count >= 1
      && (forall k :: 0 <= k < t.count - 1 ==> !run(Before(files, cmds, run, k), cmds[k]).ok)
      && var o := run(Before(files, cmds, run, t.count - 1), cmds[t.count - 1]);
      t.ok == o.ok && t.files == o.files && t.lastOut == o.out
    decreases |cmds|
  {
    var o := run(files, cmds[0]);
    if !o.ok && |cmds| > 1 {
      TriedStopsAtFirstSuccess(o.files, cmds[1..], run, o.out);
      var t := Tried(o.files, cmds[1..], run, o.out);
      forall k | 0 <= k <= t.count ensures Before(files, cmds, run, k + 1) == Before(o.files, cmds[1..], run, k) {
        BeforeShift(files, cmds, run, k);
      }
    }
  }

  /** Running the first command and then the rest from its tree is the same as running all of them. */
  lemma {:induction false} BeforeShift(files: map<string, string>, cmds: seq<seq<string>>,
                                       run: (map<string, string>, seq<string>) -> Outcome, k: nat)
    requires k < |cmds|
    ensures Before(files, cmds, run, k + 1) == Before(run(files, cmds[0]).files, cmds[1..], run, k)
    decreases k
  {
    if k > 0 {
      BeforeShift(files, cmds, run, k - 1);
    }
  }

  /** When no command touches the tree, the trial leaves it as it was. */
  lemma {:induction false} TriedWithoutEffect(files: map<string, string>, cmds: seq<seq<string>>,
                                              run: (map<string, string>, seq<string>) -> Outcome, lastOut: string)
    requires forall f, c :: run(f, c).files == f
    ensures Tried(files, cmds, run, lastOut).files == files
    decreases |cmds|
  {
    if cmds != [] && !run(files, cmds[0]).ok {
      TriedWithoutEffect(files, cmds[1..], run, run(files, cmds[0]).out);
    }
  }

  /** How `apply_patch` treats a suggestion: as a diff when it looks like one, else as the whole new file. */
  predicate LooksLikeDiff(patch: string) {
    StartsWith(LStrip(patch), "---") || Contains(patch, "diff --git")
  }

  /** The working tree and the external commands run so far. */
  class Workspace {
    var files: map<string, string>
    var ran: seq<seq<string>>

    constructor(files: map<string, string>)
      ensures this.files == files && ran == []
    {
      this.files := files;
      ran := [];
    }

    /** `backup_file`: the file is copied to its backup slot; a missing file raises. */
    method Backup(path: string) returns (r: Option<string>)
      modifies this
      ensures path !in old(files) ==> r.None? && files == old(files)
      ensures path in old(files) ==> r == Some(BackupPath(path)) && files == old(files)[BackupPath(path) := old(files)[path]]
      ensures ran == old(ran)
    {
      if path !in files {
        return None;
      }
      files := files[BackupPath(path) := files[path]];
      return Some(BackupPath(path));
    }

    /** `rollback_file`: restores from the backup slot when there is one. */
    method Rollback(path: string) returns (ok: bool)
      modifies this
      ensures ok <==> BackupPath(path) in old(files)
      ensures ok ==> files == old(files)[path := old(files)[BackupPath(path)]]
      ensures !ok ==> files == old(files)
      ensures ran == old(ran)
    {
      if BackupPath(path) !in files {
        return false;
      }
      files := files[path := files[BackupPath(path)]];
      return true;
    }

    /**
     * The strategy loop shared by both entry points: run the commands in order until one
     * succeeds, each on the tree the previous ones left; when none does, keep the last
     * output (first 5000 characters) in the failure log.
     */
    method TryStrategies(cmds: seq<seq<string>>, run: (map<string, string>, seq<string>) -> Outcome, failLog: string)
        returns (ok: bool)
      modifies this
      requires cmds != []
      ensures var t := Tried(old(files), cmds, run, "");
        ok == t.ok && ran == old(ran) + cmds[..t.count]
        && files == if ok then t.files else t.files[BackupDir + "/" + failLog := Take(t.lastOut, 5000)]
    {
      var lastOut := "";
      var i := 0;
      while i < |cmds|
        invariant i <= |cmds|
        invariant ran == old(ran) + cmds[..i]
        invariant var t := Tried(files, cmds[i..], run, lastOut);
          Tried(old(files), cmds, run, "") == t.(count := t.count + i)
      {
        var outcome := run(files, cmds[i]);
        assert cmds[i..][1..] == cmds[i + 1..];
        ran := ran + [cmds[i]];
        files := outcome.files;
        lastOut := outcome.out;
        assert cmds[..i + 1] == cmds[..i] + [cmds[i]];
        if outcome.ok {
          return true;
        }
        i := i + 1;
      }
      assert cmds[..i] == cmds;
      files := files[BackupDir + "/" + failLog := Take(lastOut, 5000)];
      return false;
    }

    /**
     * The diff path shared by both entry points: write the patch to a fresh temporary
     * file, try the strategies, and remove the temporary file in every case.
     */
    method ApplyDiff(patch: string, patchPath: string, run: (map<string, string>, seq<string>) -> Outcome, failLog: string)
        returns (ok: bool)
      modifies this
      requires patchPath !in files && patchPath != BackupDir + "/" + failLog
      ensures var t := Tried(old(files)[patchPath := patch], Attempts(patchPath), run, "");
        ok == t.ok && ran == old(ran) + Attempts(patchPath)[..t.count]
        && files == (if ok then t.files else t.files[BackupDir + "/" + failLog := Take(t.lastOut, 5000)]) - {patchPath}
    {
      files := files[patchPath := patch];
      ok := TryStrategies(Attempts(patchPath), run, failLog);
      files := files - {patchPath};
    }

    /**
     * `apply_patch`: back up first (a missing file raises); a suggestion that does not
     * look like a diff replaces the file verbatim; a diff goes through `ApplyDiff`.
     */
    method ApplyPatch(path: string, patch: string, patchPath: string, run: (map<string, string>, seq<string>) -> Outcome)
        returns (r: Option<bool>)
      modifies this
      requires patchPath !in files && patchPath != BackupPath(path) && patchPath != BackupDir + "/" + FileFailLog
      ensures path !in old(files) ==> r.None? && files == old(files) && ran == old(ran)
      ensures path in old(files) && !LooksLikeDiff(patch) ==>
        r == Some(true) && files == old(files)[BackupPath(path) := old(files)[path]][path := patch] && ran == old(ran)
      ensures path in old(files) && LooksLikeDiff(patch) ==>
        var backedUp := old(files)[BackupPath(path) := old(files)[path]];
        var t := Tried(backedUp[patchPath := patch], Attempts(patchPath), run, "");
        r == Some(t.ok) && ran == old(ran) + Attempts(patchPath)[..t.count]
        && files == (if t.ok then t.files else t.files[BackupDir + "/" + FileFailLog := Take(t.lastOut, 5000)]) - {patchPath}
    {
      var b := Backup(path);
      if b.None? {
        return None;
      }
      if !LooksLikeDiff(patch) {
        files := files[path := patch];
        return Some(true);
      }
      var ok := ApplyDiff(patch, patchPath, run, FileFailLog);
      return Some(ok);
    }

    /** `apply_project_patch`: the diff path with no backup and a project-level failure log. */
    method ApplyProjectPatch(patch: string, patchPath: string, run: (map<string, string>, seq<string>) -> Outcome)
        returns (ok: bool)
      modifies this
      requires patchPath !in files && patchPath != BackupDir + "/" + ProjectFailLog
      ensures var t := Tried(old(files)[patchPath := patch], Attempts(patchPath), run, "");
        ok == t.ok && ran == old(ran) + Attempts(patchPath)[..t.count]
        && files == (if ok then t.files else t.files[BackupDir + "/" + ProjectFailLog := Take(t.lastOut, 5000)]) - {patchPath}
    {
      ok := ApplyDiff(patch, patchPath, run, ProjectFailLog);
    }
  }

  /** When the commands leave the tree alone, the diff path changes at most the failure log. */
  lemma DiffWithoutEffect(files: map<string, string>, patch: string, patchPath: string,
                          run: (map<string, string>, seq<string>) -> Outcome, failLog: string)
    requires patchPath !in files && patchPath != BackupDir + "/" + failLog
    requires forall f, c :: run(f, c).files == f
    ensures var t := Tried(files[patchPath := patch], Attempts(patchPath), run, "");
      (t.files - {patchPath} == files)
      && (t.files[BackupDir + "/" + failLog := Take(t.lastOut, 5000)] - {patchPath}
          == files[BackupDir + "/" + failLog := Take(t.lastOut, 5000)])
  {
    TriedWithoutEffect(files[patchPath := patch], Attempts(patchPath), run, "");
  }

  /** Applying a whole-file suggestion and rolling back restores the original text. */
  method ApplyThenRollback(w: Workspace, path: string, patch: string, patchPath: string,
                           run: (map<string, string>, seq<string>) -> Outcome)
      returns (applied: Option<bool>, restored: bool)
    modifies w
    requires path in w.files && !LooksLikeDiff(patch)
    requires patchPath !in w.files && patchPath != BackupPath(path) && patchPath != BackupDir + "/" + FileFailLog
    requires BackupPath(path) != path
    ensures applied == Some(true) && restored && path in w.files && w.files[path] == old(w.files[path])
  {
    ghost var original := w.files[path];
    applied := w.ApplyPatch(path, patch, patchPath, run);
    assert applied == Some(true);
    assert w.files[BackupPath(path)] == original;
    restored := w.Rollback(path);
    assert w.files[path] == original;
  }
}
