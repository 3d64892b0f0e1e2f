/**
 * The JSONL export of the learning log and the trade book: row `i` of one CSV file is
 * paired with row `i` of the other, and each pair becomes one JSON object on a line of
 * its own. The CSV reader, Python's dict `repr` and the JSON encoder are parameters.
 */
module ExportMlLogs {
  import opened Wrappers
  import opened Json

  /**
   * A row of `csv.DictReader`: column name to cell. A row shorter than the header
   * gets `None` for its missing cells.
   */
  type Row = map<string, Option<string>>

  /** `row.get(key, "")`. */
  function Get(row: Row, key: string): Option<string> {
    if key in row then row[key] else Some("")
  }

  /**
   * The sample's answer: the log row's improvement when it is a non-empty string,
   * otherwise the trade row's result (which may be `None`, written as JSON `null`).
   */
  function Response(log: Row, trade: Row): (r: Option<string>)
    ensures Get(log, "improvement").Some? && Get(log, "improvement").value != "" ==> r == Get(log, "improvement")
    ensures !(Get(log, "improvement").Some? && Get(log, "improvement").value != "") ==> r == Get(trade, "result")
  {
    var improvement := Get(log, "improvement");
    if improvement.Some? && improvement.value != "" then improvement else Get(trade, "result")
  }

  /** The JSON value of an optional string. */
  function StrOrNull(s: Option<string>): Value {
    if s.Some? then Str(s.value) else Null
  }

  /** The object written for the pair (`log`, `trade`). */
  function Sample(log: Row, trade: Row, show: Row -> string): (v: Value)
    ensures v.Obj? && v.fields.Keys == {"prompt", "response"}
    ensures v.fields["prompt"] == Str("Learning log: " + show(log) + "\nTrade: " + show(trade))
    ensures v.fields["response"] == StrOrNull(Response(log, trade))
  {
    Obj(map["prompt" := Str("Learning log: " + show(log) + "\nTrade: " + show(trade)),
            "response" := StrOrNull(Response(log, trade))])
  }

  function Min(a: nat, b: nat): nat {
    if a <= b then a else b
  }

  /** The file's text: each encoded line followed by a newline. */
  function Joined(lines: seq<string>): string
    decreases |lines|
  {
    if lines == [] then [] else lines[0] + "\n" + Joined(lines[1..])
  }

  /**
   * `main`: writes `min(|logRows|, |tradeRows|)` lines, line `i` being the encoding of the
   * sample built from row `i` of each file, and reports that count.
   */
  method Export(logRows: seq<Row>, tradeRows: seq<Row>, show: Row -> string, dump: Value -> string)
    returns (text: string, n: nat)
    ensures n == Min(|logRows|, |tradeRows|)
    ensures text == Joined(seq(n, i requires 0 <= i < n => dump(Sample(logRows[i], tradeRows[i], show))))
  {
    n := Min(|logRows|, |tradeRows|);
    ghost var all := seq(n, i requires 0 <= i < n => dump(Sample(logRows[i], tradeRows[i], show)));
    text := [];
    var i := 0;
    while i < n
      invariant i <= n
      invariant text + Joined(all[i..]) == Joined(all)
    {
      JoinedStep(all, i);
      assert all[i] == dump(Sample(logRows[i], tradeRows[i], show));
      text := text + dump(Sample(logRows[i], tradeRows[i], show)) + "\n";
      i := i + 1;
    }
    assert all[n..] == [];
  }

  /** The lines from `i` on: line `i`, its newline, then the lines after it. */
  lemma JoinedStep(lines: seq<string>, i: nat)
    requires i < |lines|
    ensures Joined(lines[i..]) == lines[i] + "\n" + Joined(lines[i + 1..])
  {
    assert lines[i..][1..] == lines[i + 1..];
  }

  /** The index of the first newline of `s`, or `|s|` when there is none. */
  function LineEnd(s: string): (k: nat)
    ensures k <= |s| && '\n' !in s[..k]
    ensures k < |s| ==> s[k] == '\n'
    decreases |s|
  {
    if s == [] || s[0] == '\n' then 0 else 1 + LineEnd(s[1..])
  }

  /** Reading a JSONL file back: its lines, a final newline ending the last one. */
  function Lines(s: string): seq<string>
    decreases |s|
  {
    if s == [] then []
    else if LineEnd(s) == |s| then [s]
    else [s[..LineEnd(s)]] + Lines(s[LineEnd(s) + 1..])
  }

  /** A line without a newline is found whole. */
  lemma {:induction false} LineEndOf(line: string, rest: string)
    requires '\n' !in line
    ensures LineEnd(line + "\n" + rest) == |line|
    decreases |line|
  {
    if line != [] {
      assert (line + "\n" + rest)[1..] == line[1..] + "\n" + rest;
      LineEndOf(line[1..], rest);
    }
  }

  /**
   * Each sample is one JSON object followed by a newline: when the encoder writes no
   * raw newline (as `json.dump` does not), the file read back line by line gives the
   * encoded samples, one per line and in order.
   */
  lemma {:induction false} ReadBack(lines: seq<string>)
    requires forall i :: 0 <= i < |lines| ==> '\n' !in lines[i]
    ensures Lines(Joined(lines)) == lines
    decreases |lines|
  {
    if lines != [] {
      var s := Joined(lines);
      LineEndOf(lines[0], Joined(lines[1..]));
      assert s[..|lines[0]|] == lines[0];
      assert s[|lines[0]| + 1..] == Joined(lines[1..]);
      ReadBack(lines[1..]);
    }
  }

  /** The exported file read back: exactly `n` lines, line `i` the sample of row `i` of each file. */
  lemma ExportReadsBack(logRows: seq<Row>, tradeRows: seq<Row>, show: Row -> string, dump: Value -> string)
    requires forall v: Value :: '\n' !in dump(v)
    ensures var n := Min(|logRows|, |tradeRows|);
      var lines := Lines(Joined(seq(n, i requires 0 <= i < n => dump(Sample(logRows[i], tradeRows[i], show)))));
      |lines| == n && forall i :: 0 <= i < n ==> lines[i] == dump(Sample(logRows[i], tradeRows[i], show))
  {
    var n := Min(|logRows|, |tradeRows|);
    var lines := seq(n, i requires 0 <= i < n => dump(Sample(logRows[i], tradeRows[i], show)));
    forall i | 0 <= i < |lines|
      ensures '\n' !in lines[i]
    {
      assert lines[i] == dump(Sample(logRows[i], tradeRows[i], show));
    }
    ReadBack(lines);
  }
}
