/**
 * The learning-log summary: the rows of the CSV log with exactly five fields, newest
 * first, at most `n` of them, framed by a header and a rule. The CSV reader is outside
 * the model: the log arrives as its rows of fields. The printed output is the sequence
 * of lines returned.
 */
module LearningLogSummary {

  type Row = seq<string>

  /** A row the summary prints: cycle, strategy, timerange, metric and improved. */
  predicate Printable(row: Row) {
    |row| == 5
  }

  /** The printable rows met when walking the log from its last row to its first. */
  function NewestFirst(rows: seq<Row>): (r: seq<Row>)
    ensures forall i :: 0 <= i < |r| ==> Printable(r[i])
    ensures |r| <= |rows|
    decreases |rows|
  {
    if rows == [] then [] else NewestFirst(rows[1..]) + (if Printable(rows[0]) then [rows[0]] else [])
  }

  /** Walking `a + b` backwards meets `b`'s rows before `a`'s. */
  lemma {:induction false} NewestFirstSplit(a: seq<Row>, b: seq<Row>)
    ensures NewestFirst(a + b) == NewestFirst(b) + NewestFirst(a)
    decreases |a|
  {
    if a != [] {
      assert (a + b)[1..] == a[1..] + b;
      NewestFirstSplit(a[1..], b);
    } else {
      assert a + b == b;
    }
  }

  /** The rows printed are exactly the five-field rows of the log. */
  lemma {:induction false} NewestFirstMembers(rows: seq<Row>, row: Row)
    ensures row in NewestFirst(rows) <==> row in rows && Printable(row)
    decreases |rows|
  {
    if rows != [] {
      NewestFirstMembers(rows[1..], row);
      assert rows == [rows[0]] + rows[1..];
    }
  }

  /** Walking backwards reverses the order: the last five-field row comes first. */
  lemma NewestIsLast(rows: seq<Row>, row: Row)
    requires Printable(row)
    ensures NewestFirst(rows + [row]) == [row] + NewestFirst(rows)
  {
    NewestFirstSplit(rows, [row]);
    assert [row][1..] == [];
    assert NewestFirst([row]) == [row];
  }

  /** The number of rows printed: the first row is printed before `count >= n` is checked, so one row at least. */
  function Limit(n: int): (k: nat)
    ensures k >= 1 && (n >= 1 ==> k == n)
  {
    if n <= 1 then 1 else n
  }

  /** What a run prints. */
  datatype Summary = NoLog(path: string) | Empty | Table(rows: seq<Row>)

  /** `f"{s:<w}"`: `s` padded with spaces on the right to width `w`. */
  function Pad(s: string, w: nat): (r: string)
    ensures |r| == if |s| < w then w else |s|
    ensures r[..|s|] == s
  {
    if |s| < w then s + seq(w - |s|, _ => ' ') else s
  }

  const Title := "\n=== LEARNING LOG SUMMARY ==="
  const NoRows := "No valid summary rows found."

  /** The printed form of one row. */
  function Line(row: Row): string
    requires Printable(row)
  {
    Pad(row[0], 6) + " " + Pad(row[1], 32) + " " + Pad(row[2], 20) + " " + Pad(row[3], 10) + " " + Pad(row[4], 10)
  }

  /** The printed lines of a summary. */
  function Output(s: Summary): (lines: seq<string>)
    requires s.Table? ==> forall i :: 0 <= i < |s.rows| ==> Printable(s.rows[i])
    ensures s.Table? ==> (NoRows in lines <==> s.rows == [])
  {
    match s
    case NoLog(path) => ["No learning log found at " + path]
    case Empty => [Title, "Log is empty."]
    case Table(rows) =>
      var body := seq(|rows|, i requires 0 <= i < |rows| => Line(rows[i]));
      assert forall i :: 0 <= i < |body| ==> |body[i]| >= 78;
      [Title, Line(["Cycle", "Strategy", "Timerange", "Metric", "Improved"]), seq(80, _ => '-')] + body
      + (if rows == [] then [NoRows] else []) + [seq(80, _ => '=')]
  }

  /**
   * `print_learning_log_summary`: no log gives a message; an empty log says so; otherwise
   * the first `Limit(n)` five-field rows met walking backwards from the end.
   */
  method Summarize(exists_: bool, path: string, rows: seq<Row>, n: int) returns (s: Summary)
    ensures !exists_ ==> s == NoLog(path)
    ensures exists_ && rows == [] ==> s == Empty
    ensures exists_ && rows != [] ==> s.Table? && s.rows == Take(NewestFirst(rows), Limit(n))
  {
    if !exists_ {
      return NoLog(path);
    }
    if rows == [] {
      return Empty;
    }
    var printed: seq<Row> := [];
    var i := |rows|;
    while i > 0
      invariant 0 <= i <= |rows|
      invariant printed == NewestFirst(rows[i..]) && |printed| < Limit(n)
    {
      var row := rows[i - 1];
      assert rows[i - 1..][1..] == rows[i..];
      if Printable(row) {
        printed := printed + [row];
        if |printed| >= Limit(n) {
          NewestFirstSplit(rows[..i - 1], rows[i - 1..]);
          assert rows[..i - 1] + rows[i - 1..] == rows;
          return Table(printed);
        }
      }
      i := i - 1;
    }
    assert rows[0..] == rows;
    return Table(printed);
  }

  /** The first `k` elements, or all of them when there are fewer. */
  function Take<T>(s: seq<T>, k: nat): (r: seq<T>)
    ensures |r| == if |s| < k then |s| else k
    ensures r == s[..|r|]
  {
    if |s| <= k then s else s[..k]
  }

  /** "No valid summary rows found." is printed exactly when no row has five fields. */
  lemma NoRowsIffNonePrintable(rows: seq<Row>, n: int)
    requires rows != []
    ensures Take(NewestFirst(rows), Limit(n)) == [] <==> forall i :: 0 <= i < |rows| ==> !Printable(rows[i])
  {
    if exists i :: 0 <= i < |rows| && Printable(rows[i]) {
      var i :| 0 <= i < |rows| && Printable(rows[i]);
      NewestFirstMembers(rows, rows[i]);
    }
    if NewestFirst(rows) != [] {
      NewestFirstMembers(rows, NewestFirst(rows)[0]);
    }
  }

  /** As written, a limit of zero or less still prints the newest five-field row. */
  lemma NonPositiveLimitPrintsOne(rows: seq<Row>, row: Row, n: int)
    requires n <= 0 && Printable(row)
    ensures Take(NewestFirst(rows + [row]), Limit(n)) == [row]
  {
    NewestIsLast(rows, row);
  }
}
