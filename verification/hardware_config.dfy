/**
 * The hardware-tuning block check on the agents' YAML configuration: find the comment
 * line announcing the "Hardware/LLM Studio Tuning" section and collect it with the comment
 * and blank lines that follow it. The file is read by the caller; its lines (each with
 * its line break) are the input.
 */
module HardwareConfig {
  import opened Wrappers
  import opened Text

  const Header := "# Hardware/LLM Studio Tuning"

  /** A line announcing the block, whatever its indentation. */
  predicate IsHeader(line: string) {
    StartsWith(Strip(line), Header)
  }

  /** A line that keeps an open block going: a header, a comment in column one, or a blank line. */
  predicate Continues(line: string) {
    IsHeader(line) || StartsWith(line, "#") || Strip(line) == ""
  }

  /** What the scan needs to know of a line. */
  datatype Kind = Kind(header: bool, continues: bool, stripped: string)

  /** A header also continues an open block: a second header line inside it is kept. */
  function Classify(line: string): (k: Kind)
    ensures k.header ==> k.continues
  {
    Kind(IsHeader(line), Continues(line), Strip(line))
  }

  /** `f` applied to every element of `s`. */
  function Map<A, B>(s: seq<A>, f: A -> B): (r: seq<B>)
    ensures |r| == |s|
    decreases |s|
  {
    if s == [] then [] else Map(s[..|s| - 1], f) + [f(s[|s| - 1])]
  }

  lemma {:induction false} MapAt<A, B>(s: seq<A>, f: A -> B, k: nat)
    requires k < |s|
    ensures Map(s, f)[k] == f(s[k])
    decreases |s|
  {
    var init := s[..|s| - 1];
    assert Map(s, f) == Map(init, f) + [f(s[|s| - 1])];
    if k < |s| - 1 {
      MapAt(init, f, k);
      assert init[k] == s[k];
    }
  }

  /** Every line of the file, classified. */
  function Classified(lines: seq<string>): (ks: seq<Kind>)
    ensures |ks| == |lines|
  {
    Map(lines, Classify)
  }

  lemma ClassifiedAt(lines: seq<string>, k: nat)
    requires k < |lines|
    ensures Classified(lines)[k] == Classify(lines[k])
  {
    MapAt(lines, Classify, k);
  }

  lemma ClassifiedSpec(lines: seq<string>)
    ensures forall k :: 0 <= k < |lines| ==> Classified(lines)[k] == Classify(lines[k])
  {
    forall k | 0 <= k < |lines|
      ensures Classified(lines)[k] == Classify(lines[k])
    {
      ClassifiedAt(lines, k);
    }
  }

  /** The index of the first header at or after `i`. */
  function FirstHeaderFrom(ks: seq<Kind>, i: nat): (r: Option<nat>)
    requires i <= |ks|
    ensures r.Some? ==> i <= r.value < |ks| && ks[r.value].header
    ensures r.Some? ==> forall k :: i <= k < r.value ==> !ks[k].header
    ensures r.None? ==> forall k :: i <= k < |ks| ==> !ks[k].header
    decreases |ks| - i
  {
    if i == |ks| then None
    else if ks[i].header then Some(i)
    else FirstHeaderFrom(ks, i + 1)
  }

  /** The stripped lines of the longest prefix that continues a block. */
  function Run(ks: seq<Kind>): seq<string>
    decreases |ks|
  {
    if ks == [] || !ks[0].continues then [] else [ks[0].stripped] + Run(ks[1..])
  }

  function Stripped(ks: seq<Kind>): (r: seq<string>)
    ensures |r| == |ks| && forall k :: 0 <= k < |ks| ==> r[k] == ks[k].stripped
  {
    seq(|ks|, k requires 0 <= k < |ks| => ks[k].stripped)
  }

  /** The block of classified lines: the first header and the run that follows it. */
  function BlockOf(ks: seq<Kind>): seq<string> {
    match FirstHeaderFrom(ks, 0)
    case None => []
    case Some(h) => [ks[h].stripped] + Run(ks[h + 1..])
  }

  /** The block of a file's lines. */
  function Block(lines: seq<string>): seq<string> {
    BlockOf(Classified(lines))
  }

  /** The printed report. */
  function Report(block: seq<string>): seq<string> {
    if block != [] then ["Hardware/LLM Studio Tuning block found:", Join(block, "\n")]
    else ["Hardware/LLM Studio Tuning block NOT found!"]
  }

  /** The scan of the configuration's lines, stopping at the first line that ends the block. */
  method ScanBlock(lines: seq<string>) returns (block: seq<string>)
    ensures block == Block(lines)
  {
    block := [];
    ghost var h: nat := 0;
    var i := 0;
    while i < |lines|
      invariant i <= |lines| && Scanned(Classified(lines), h, i, block)
    {
      var stop;
      block, h, stop := ScanLine(lines, i, block, h);
      if stop {
        return;
      }
      i := i + 1;
    }
    ScannedAll(Classified(lines), h, block);
  }

  /** One turn of the scan's loop: line `i` is skipped, added to the block, or ends it. */
  method ScanLine(lines: seq<string>, i: nat, block0: seq<string>, ghost h0: nat)
    returns (block: seq<string>, ghost h: nat, stop: bool)
    requires i < |lines| && Scanned(Classified(lines), h0, i, block0)
    ensures stop ==> block == Block(lines)
    ensures !stop ==> Scanned(Classified(lines), h, i + 1, block)
  {
    ghost var ks := Classified(lines);
    block, h, stop := block0, h0, false;
    var kind := ClassifyAt(lines, i);
    if kind.header {
      if block == [] {
        h := i;
        OpenAtHeader(ks, i);
      } else {
        OpenStep(ks, h, i, block);
      }
      block := block + [kind.stripped];
      return;
    }
    // Not a header here, so continuing means a comment in column one or a blank line.
    if block != [] && kind.continues {
      OpenStep(ks, h, i, block);
      block := block + [kind.stripped];
    } else if block != [] {
      OpenClosed(ks, h, i, block);
      stop := true;
    }
  }

  /** The scan's state after lines before `i` were read: no header yet, or a block still open. */
  predicate Scanned(ks: seq<Kind>, h: nat, i: nat, block: seq<string>)
    requires i <= |ks|
  {
    (block == [] ==> forall k :: 0 <= k < i ==> !ks[k].header)
    && (block != [] ==> Open(ks, h, i, block))
  }

  /** At the end of the file the scan holds the block. */
  lemma ScannedAll(ks: seq<Kind>, h: nat, block: seq<string>)
    requires Scanned(ks, h, |ks|, block)
    ensures block == BlockOf(ks)
  {
    if block != [] {
      OpenClosed(ks, h, |ks|, block);
    }
  }

  /** The classification of line `i`, computed on its own. */
  method ClassifyAt(lines: seq<string>, i: nat) returns (kind: Kind)
    requires i < |lines|
    ensures kind == Classified(lines)[i] && (kind.header ==> kind.continues)
  {
    kind := Classify(lines[i]);
    ClassifiedAt(lines, i);
  }

  /** The scan's state once the header at `h` was met and lines up to `i` were read. */
  predicate Open(ks: seq<Kind>, h: nat, i: nat, block: seq<string>)
    requires i <= |ks|
  {
    h < i && FirstHeaderFrom(ks, 0) == Some(h)
    && (forall k :: h < k < i ==> ks[k].continues)
    && block == [ks[h].stripped] + Stripped(ks[h + 1..i])
  }

  lemma OpenAtHeader(ks: seq<Kind>, i: nat)
    requires i < |ks| && ks[i].header && forall k :: 0 <= k < i ==> !ks[k].header
    ensures Open(ks, i, i + 1, [ks[i].stripped])
  {
    assert Stripped(ks[i + 1..i + 1]) == [];
    var r := FirstHeaderFrom(ks, 0);
    assert r.Some? && r.value == i;
  }

  lemma OpenStep(ks: seq<Kind>, h: nat, i: nat, block: seq<string>)
    requires i < |ks| && Open(ks, h, i, block) && ks[i].continues
    ensures Open(ks, h, i + 1, block + [ks[i].stripped])
  {
    StrippedSnoc(ks, h + 1, i);
  }

  lemma OpenClosed(ks: seq<Kind>, h: nat, i: nat, block: seq<string>)
    requires i <= |ks| && Open(ks, h, i, block) && (i < |ks| ==> !ks[i].continues)
    ensures block == BlockOf(ks)
  {
    RunStops(ks[h + 1..], i - h - 1);
    assert ks[h + 1..][..i - h - 1] == ks[h + 1..i];
  }

  lemma StrippedSnoc(ks: seq<Kind>, a: nat, i: nat)
    requires a <= i < |ks|
    ensures Stripped(ks[a..i + 1]) == Stripped(ks[a..i]) + [ks[i].stripped]
  {
    assert ks[a..i + 1] == ks[a..i] + [ks[i]];
  }

  /** A run that continues for `e` lines and then stops (or reaches the end) is those `e` lines. */
  lemma {:induction false} RunStops(ks: seq<Kind>, e: nat)
    requires e <= |ks|
    requires forall k :: 0 <= k < e ==> ks[k].continues
    requires e < |ks| ==> !ks[e].continues
    ensures Run(ks) == Stripped(ks[..e])
    decreases e
  {
    if e > 0 {
      RunStops(ks[1..], e - 1);
      assert ks[1..][..e - 1] == ks[..e][1..];
    }
  }

  /** The run is a prefix of continuing lines followed by a line that ends it or by the end of the file. */
  lemma {:induction false} RunShape(ks: seq<Kind>)
    ensures |Run(ks)| <= |ks|
    ensures forall k :: 0 <= k < |Run(ks)| ==> Run(ks)[k] == ks[k].stripped && ks[k].continues
    ensures |Run(ks)| < |ks| ==> !ks[|Run(ks)|].continues
    decreases |ks|
  {
    if ks != [] && ks[0].continues {
      RunShape(ks[1..]);
      assert Run(ks) == [ks[0].stripped] + Run(ks[1..]);
      forall k | 1 <= k < |Run(ks)|
        ensures Run(ks)[k] == ks[k].stripped && ks[k].continues
      {
        assert Run(ks)[k] == Run(ks[1..])[k - 1] && ks[1..][k - 1] == ks[k];
      }
    }
  }

  /** Lines before the first header do not affect the block. */
  lemma LinesBeforeIgnored(before: seq<string>, lines: seq<string>)
    requires forall k :: 0 <= k < |before| ==> !IsHeader(before[k])
    ensures Block(before + lines) == Block(lines)
  {
    var ks := Classified(lines);
    var all := Classified(before + lines);
    ClassifiedSpec(lines);
    ClassifiedSpec(before);
    ClassifiedSpec(before + lines);
    assert all == Classified(before) + ks;
    HeadersSkipped(Classified(before), ks);
  }

  /** Classified lines without a header in front shift the first header and keep the block. */
  lemma {:induction false} HeadersSkipped(pre: seq<Kind>, ks: seq<Kind>)
    requires forall k :: 0 <= k < |pre| ==> !pre[k].header
    ensures BlockOf(pre + ks) == BlockOf(ks)
  {
    FirstHeaderShift(pre, ks, 0);
    match FirstHeaderFrom(ks, 0)
    case None =>
      assert BlockOf(pre + ks) == [];
    case Some(h) =>
      var all := pre + ks;
      assert FirstHeaderFrom(all, 0) == Some(|pre| + h);
      assert all[|pre| + h] == ks[h];
      assert all[|pre| + h + 1..] == ks[h + 1..];
      assert BlockOf(all) == [ks[h].stripped] + Run(ks[h + 1..]);
  }

  lemma {:induction false} FirstHeaderShift(pre: seq<Kind>, ks: seq<Kind>, i: nat)
    requires i <= |pre|
    requires forall k :: 0 <= k < |pre| ==> !pre[k].header
    ensures FirstHeaderFrom(pre + ks, i) == (match FirstHeaderFrom(ks, 0) case None => None case Some(h) => Some(|pre| + h))
    decreases |pre| - i
  {
    if i < |pre| {
      FirstHeaderShift(pre, ks, i + 1);
    } else {
      FirstHeaderFromShift(pre, ks, 0);
    }
  }

  lemma {:induction false} FirstHeaderFromShift(pre: seq<Kind>, ks: seq<Kind>, j: nat)
    requires j <= |ks|
    ensures FirstHeaderFrom(pre + ks, |pre| + j) == (match FirstHeaderFrom(ks, j) case None => None case Some(h) => Some(|pre| + h))
    decreases |ks| - j
  {
    if j < |ks| {
      assert (pre + ks)[|pre| + j] == ks[j];
      FirstHeaderFromShift(pre, ks, j + 1);
    }
  }

  /** The first header is the header line with no header before it. */
  lemma FirstHeaderAt(ks: seq<Kind>, h: nat)
    requires h < |ks| && ks[h].header && forall k :: 0 <= k < h ==> !ks[k].header
    ensures FirstHeaderFrom(ks, 0) == Some(h)
  {
    var r := FirstHeaderFrom(ks, 0);
    assert r.Some?;
    assert !(r.value < h);
    assert !(h < r.value);
  }

  /** `BlockEnd` on classified lines. */
  lemma KindsEnd(ks: seq<Kind>, h: nat)
    requires FirstHeaderFrom(ks, 0) == Some(h)
    ensures h + |BlockOf(ks)| <= |ks|
    ensures h + |BlockOf(ks)| < |ks| ==> !ks[h + |BlockOf(ks)|].continues
  {
    var rest := ks[h + 1..];
    assert BlockOf(ks) == [ks[h].stripped] + Run(rest);
    RunShape(rest);
    var e := h + |BlockOf(ks)|;
    if e < |ks| {
      assert rest[e - h - 1] == ks[e];
    }
  }

  /** `BlockLine` on classified lines. */
  lemma KindsLine(ks: seq<Kind>, h: nat, k: nat)
    requires FirstHeaderFrom(ks, 0) == Some(h) && h <= k < h + |BlockOf(ks)|
    ensures k < |ks| && BlockOf(ks)[k - h] == ks[k].stripped
    ensures h < k ==> ks[k].continues
  {
    var rest := ks[h + 1..];
    var run := Run(rest);
    assert BlockOf(ks) == [ks[h].stripped] + run;
    RunShape(rest);
    if h < k {
      var m := k - h - 1;
      assert m < |run| && BlockOf(ks)[k - h] == run[m];
      assert run[m] == rest[m].stripped && rest[m].continues;
      assert rest[m] == ks[k];
    }
  }

  /**
   * The block ends at the first line after the header that does not continue it, or at
   * the end of the file.
   */
  lemma BlockEnd(lines: seq<string>, h: nat)
    requires h < |lines| && IsHeader(lines[h]) && forall k :: 0 <= k < h ==> !IsHeader(lines[k])
    ensures h + |Block(lines)| <= |lines|
    ensures h + |Block(lines)| < |lines| ==> !Continues(lines[h + |Block(lines)|])
  {
    FirstHeaderOfLines(lines, h);
    KindsEnd(Classified(lines), h);
    if h + |Block(lines)| < |lines| {
      ClassifiedAt(lines, h + |Block(lines)|);
    }
  }

  /**
   * Line `k` of the file, from the header on and inside the block, is in the block
   * stripped; after the header it is a line that continues the block.
   */
  lemma BlockLine(lines: seq<string>, h: nat, k: nat)
    requires h < |lines| && IsHeader(lines[h]) && forall k :: 0 <= k < h ==> !IsHeader(lines[k])
    requires h <= k < h + |Block(lines)|
    ensures k < |lines| && Block(lines)[k - h] == Strip(lines[k])
    ensures h < k ==> Continues(lines[k])
  {
    FirstHeaderOfLines(lines, h);
    KindsLine(Classified(lines), h, k);
    ClassifiedAt(lines, k);
  }

  lemma FirstHeaderOfLines(lines: seq<string>, h: nat)
    requires h < |lines| && IsHeader(lines[h]) && forall k :: 0 <= k < h ==> !IsHeader(lines[k])
    ensures FirstHeaderFrom(Classified(lines), 0) == Some(h)
  {
    var ks := Classified(lines);
    forall k | 0 <= k <= h
      ensures ks[k].header == IsHeader(lines[k])
    {
      ClassifiedAt(lines, k);
    }
    FirstHeaderAt(ks, h);
  }

  /** "NOT found" is reported exactly when no line is a header. */
  lemma NotFoundIffNoHeader(lines: seq<string>)
    ensures Report(Block(lines)) == ["Hardware/LLM Studio Tuning block NOT found!"]
        <==> forall k :: 0 <= k < |lines| ==> !IsHeader(lines[k])
  {
    var ks := Classified(lines);
    ClassifiedSpec(lines);
    var r := FirstHeaderFrom(ks, 0);
    if r.Some? {
      assert IsHeader(lines[r.value]);
      assert Block(lines) != [];
    } else {
      forall k | 0 <= k < |lines|
        ensures !IsHeader(lines[k])
      {
        assert ks[k] == Classify(lines[k]);
      }
    }
  }
}
