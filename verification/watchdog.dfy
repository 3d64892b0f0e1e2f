/**
 * The watchdog's change detection: walk the watched directories, record the modification
 * time of every `.py` file and report whether a known file's time changed. The directory
 * walk and the modification times are inputs, taken as one snapshot per scan; the
 * polling loop and the healing run it triggers are not modelled.
 */
module Watchdog {
  import opened Wrappers
  import opened Text

  /** One step of `os.walk`: a directory and the names of the files directly in it. */
  datatype WalkEntry = WalkEntry(root: string, files: seq<string>)

  /** `os.path.join(root, name)` for a plain file name. */
  function PathJoin(root: string, name: string): string {
    if root == [] || EndsWith(root, "/") then root + name else root + "/" + name
  }

  /** The watched paths of one directory's files: the `.py` ones. */
  function FilePaths(root: string, files: seq<string>): set<string>
    decreases |files|
  {
    if files == [] then {}
    else
      var f := files[|files| - 1];
      FilePaths(root, files[..|files| - 1]) + (if EndsWith(f, ".py") then {PathJoin(root, f)} else {})
  }

  /** The watched paths of a walk. */
  function WalkPaths(walk: seq<WalkEntry>): set<string>
    decreases |walk|
  {
    if walk == [] then {}
    else WalkPaths(walk[..|walk| - 1]) + FilePaths(walk[|walk| - 1].root, walk[|walk| - 1].files)
  }

  /** The watched paths under all the watched directories. */
  function Visited(dirs: seq<string>, walk: string -> seq<WalkEntry>): set<string>
    decreases |dirs|
  {
    if dirs == [] then {}
    else Visited(dirs[..|dirs| - 1], walk) + WalkPaths(walk(dirs[|dirs| - 1]))
  }

  lemma FilePathsStep(root: string, files: seq<string>, k: nat)
    requires k < |files|
    ensures EndsWith(files[k], ".py") ==> FilePaths(root, files[..k + 1]) == FilePaths(root, files[..k]) + {PathJoin(root, files[k])}
    ensures !EndsWith(files[k], ".py") ==> FilePaths(root, files[..k + 1]) == FilePaths(root, files[..k])
  {
    assert files[..k + 1][..k] == files[..k];
  }

  /** The paths seen grow by the `k`-th file's path when it is a `.py` file. */
  lemma SeenStep(root: string, files: seq<string>, k: nat, seen: set<string>)
    requires k < |files|
    ensures seen + FilePaths(root, files[..k + 1])
      == seen + FilePaths(root, files[..k]) + (if EndsWith(files[k], ".py") then {PathJoin(root, files[k])} else {})
  {
    FilePathsStep(root, files, k);
  }

  /** The paths seen grow by those of the `j`-th directory of the walk. */
  lemma SeenWalkStep(entries: seq<WalkEntry>, j: nat, seen: set<string>)
    requires j < |entries|
    ensures seen + WalkPaths(entries[..j + 1]) == seen + WalkPaths(entries[..j]) + FilePaths(entries[j].root, entries[j].files)
  {
    assert entries[..j + 1][..j] == entries[..j];
  }

  /** A path of `FilePaths` names a `.py` file. */
  lemma {:induction false} OnlyPython(root: string, files: seq<string>, p: string)
    requires p in FilePaths(root, files)
    ensures exists f :: f in files && EndsWith(f, ".py") && p == PathJoin(root, f)
    decreases |files|
  {
    var f := files[|files| - 1];
    if p in FilePaths(root, files[..|files| - 1]) {
      OnlyPython(root, files[..|files| - 1], p);
      var g :| g in files[..|files| - 1] && EndsWith(g, ".py") && p == PathJoin(root, g);
      assert g in files;
    } else {
      assert f in files;
    }
  }

  /** Some already-known path has a time different from the one observed now. */
  predicate Differs(before: map<string, int>, paths: set<string>, mtime: string -> int) {
    exists p :: p in paths && p in before && before[p] != mtime(p)
  }

  class WatchdogAgent {
    const watchDirs: seq<string>
    const interval: int
    var lastMtimes: map<string, int>

    /** The watched directories default to `.` when none (or an empty list) are given; nothing is known yet. */
    constructor(dirs: Option<seq<string>>, interval: int)
      ensures dirs.Some? && dirs.value != [] ==> watchDirs == dirs.value
      ensures !(dirs.Some? && dirs.value != []) ==> watchDirs == ["."]
      ensures this.interval == interval && lastMtimes == map[]
    {
      watchDirs := if dirs.Some? && dirs.value != [] then dirs.value else ["."];
      this.interval := interval;
      lastMtimes := map[];
    }

    /**
     * `scan_files`: every visited `.py` path now maps to its observed time, other entries
     * are kept, and the result says whether some already-known path had a different time.
     * A path seen for the first time is recorded without counting as a change.
     */
    method ScanFiles(walk: string -> seq<WalkEntry>, mtime: string -> int) returns (changed: bool)
      modifies this
      ensures lastMtimes.Keys == old(lastMtimes).Keys + Visited(watchDirs, walk)
      ensures forall p :: p in Visited(watchDirs, walk) ==> lastMtimes[p] == mtime(p)
      ensures forall p :: p in old(lastMtimes) && p !in Visited(watchDirs, walk) ==> lastMtimes[p] == old(lastMtimes)[p]
      ensures changed <==> Differs(old(lastMtimes), Visited(watchDirs, walk), mtime)
    {
      changed := false;
      ghost var before := lastMtimes;
      var i := 0;
      while i < |watchDirs|
        invariant i <= |watchDirs|
        invariant Scanned(lastMtimes, before, Visited(watchDirs[..i], walk), mtime, changed)
      {
        assert watchDirs[..i + 1][..i] == watchDirs[..i];
        changed := ScanWalk(walk(watchDirs[i]), mtime, before, Visited(watchDirs[..i], walk), changed);
        i := i + 1;
      }
      assert watchDirs[..i] == watchDirs;
    }

    /** The walk of one watched directory. */
    method ScanWalk(entries: seq<WalkEntry>, mtime: string -> int, ghost before: map<string, int>,
                    ghost seen: set<string>, changed0: bool) returns (changed: bool)
      modifies this
      requires Scanned(lastMtimes, before, seen, mtime, changed0)
      ensures Scanned(lastMtimes, before, seen + WalkPaths(entries), mtime, changed)
    {
      changed := changed0;
      var j := 0;
      while j < |entries|
        invariant j <= |entries|
        invariant Scanned(lastMtimes, before, seen + WalkPaths(entries[..j]), mtime, changed)
      {
        SeenWalkStep(entries, j, seen);
        changed := ScanFilesOf(entries[j].root, entries[j].files, mtime, before, seen + WalkPaths(entries[..j]), changed);
        j := j + 1;
      }
      assert entries[..j] == entries;
    }

    /** The files of one directory of the walk. */
    method ScanFilesOf(root: string, files: seq<string>, mtime: string -> int, ghost before: map<string, int>,
                       ghost seen: set<string>, changed0: bool) returns (changed: bool)
      modifies this
      requires Scanned(lastMtimes, before, seen, mtime, changed0)
      ensures Scanned(lastMtimes, before, seen + FilePaths(root, files), mtime, changed)
    {
      changed := changed0;
      var k := 0;
      while k < |files|
        invariant k <= |files|
        invariant Scanned(lastMtimes, before, seen + FilePaths(root, files[..k]), mtime, changed)
      {
        SeenStep(root, files, k, seen);
        changed := ScanFile(root, files[k], mtime, before, seen + FilePaths(root, files[..k]), changed);
        k := k + 1;
      }
      assert files[..k] == files;
    }

    /** One file of a directory: only a `.py` file is looked at. */
    method ScanFile(root: string, f: string, mtime: string -> int, ghost before: map<string, int>,
                    ghost seen: set<string>, changed0: bool) returns (changed: bool)
      modifies this
      requires Scanned(lastMtimes, before, seen, mtime, changed0)
      ensures Scanned(lastMtimes, before, seen + (if EndsWith(f, ".py") then {PathJoin(root, f)} else {}), mtime, changed)
    {
      changed := changed0;
      if EndsWith(f, ".py") {
        var path := PathJoin(root, f);
        ghost var m0 := lastMtimes;
        var c := Observe(path, mtime(path));
        ObserveKeeps(m0, lastMtimes, before, seen, mtime, changed, path, c);
        changed := changed || c;
      } else {
        assert seen + {} == seen;
      }
    }

    /** One file of the walk: record a new path, update a changed one and report the change. */
    method Observe(path: string, t: int) returns (c: bool)
      modifies this
      ensures Observed(old(lastMtimes), lastMtimes, path, t, c)
    {
      c := false;
      if path !in lastMtimes {
        lastMtimes := lastMtimes[path := t];
      } else if lastMtimes[path] != t {
        lastMtimes := lastMtimes[path := t];
        c := true;
      }
    }
  }

  /** The effect of observing time `t` for `path`. */
  predicate Observed(m: map<string, int>, m': map<string, int>, path: string, t: int, c: bool) {
    m' == m[path := t] && (c <==> path in m && m[path] != t)
  }

  /** The scan's invariant after visiting the paths `seen`. */
  predicate Scanned(m: map<string, int>, before: map<string, int>, seen: set<string>, mtime: string -> int, changed: bool) {
    m.Keys == before.Keys + seen
    && (forall p :: p in seen ==> m[p] == mtime(p))
    && (forall p :: p in before && p !in seen ==> m[p] == before[p])
    && (changed <==> Differs(before, seen, mtime))
  }

  /** Observing a path with its current time extends the invariant to that path. */
  lemma ObserveKeeps(m: map<string, int>, m': map<string, int>, before: map<string, int>, seen: set<string>,
                     mtime: string -> int, changed: bool, path: string, c: bool)
    requires Scanned(m, before, seen, mtime, changed) && Observed(m, m', path, mtime(path), c)
    ensures Scanned(m', before, seen + {path}, mtime, changed || c)
  {
    if c {
      assert path in before && path !in seen;
    }
    if Differs(before, seen + {path}, mtime) && !Differs(before, seen, mtime) {
      assert path in before && before[path] != mtime(path);
    }
  }
}
