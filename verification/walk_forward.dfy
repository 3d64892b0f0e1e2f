/**
 * The walk-forward validation generator. Dates are whole-day offsets (the parsing and
 * formatting of `YYYYMMDD` text are parameters); a "month" is 30 days, as in the source.
 */
module WalkForward {
  import opened Numeric

  /** One train/test split, as day offsets. */
  datatype Period = Period(trainStart: int, trainEnd: int, testStart: int, testEnd: int)

  /** The number of days in `months` 30-day months. */
  function Days(months: int): int {
    30 * months
  }

  /** The split whose training window starts at `c`. */
  function PeriodAt(c: int, train: int, test: int): (p: Period)
    ensures p.trainStart == c && p.testStart == p.trainEnd
    ensures p.trainEnd - p.trainStart == Days(train) && p.testEnd - p.testStart == Days(test)
  {
    Period(c, c + Days(train), c + Days(train), c + Days(train) + Days(test))
  }

  /** Where generation stops: the cursor has reached `end`, or the split there overruns it. */
  predicate Stops(c: int, end: int, train: int, test: int) {
    c >= end || PeriodAt(c, train, test).testEnd > end
  }

  /** The splits emitted from cursor `c` on, one step apart, until generation stops. */
  function PeriodsFrom(c: int, end: int, train: int, test: int, step: int): seq<Period>
    requires step > 0
    decreases end - c
  {
    if Stops(c, end, train, test) then []
    else [PeriodAt(c, train, test)] + PeriodsFrom(c + Days(step), end, train, test, step)
  }

  /**
   * The k-th split from `c` starts `k` steps later, each ends its test window by `end`,
   * none of them is where generation stops, and the cursor after the last one is.
   */
  lemma {:induction false} PeriodsFromShape(c: int, end: int, train: int, test: int, step: int)
    requires step > 0
    decreases end - c
    ensures var ps := PeriodsFrom(c, end, train, test, step);
      (forall k :: 0 <= k < |ps| ==> ps[k] == PeriodAt(c + k * Days(step), train, test))
      && (forall k :: 0 <= k < |ps| ==> ps[k].testEnd <= end && !Stops(c + k * Days(step), end, train, test))
      && Stops(c + |ps| * Days(step), end, train, test)
  {
    if !Stops(c, end, train, test) {
      var rest := PeriodsFrom(c + Days(step), end, train, test, step);
      PeriodsFromShape(c + Days(step), end, train, test, step);
      forall k | 1 <= k < |rest| + 1
        ensures c + Days(step) + (k - 1) * Days(step) == c + k * Days(step)
      {
        MulStep(k, Days(step));
      }
      MulStep(|rest| + 1, Days(step));
    }
  }

  lemma MulStep(k: int, d: int)
    ensures (k - 1) * d + d == k * d
  {
  }

  /**
   * The source loops forever when the step is not positive and a split fits; it returns
   * at once when no split fits from the start.
   */
  predicate Halts(start: int, end: int, train: int, test: int, step: int) {
    step > 0 || Stops(start, end, train, test)
  }

  /** `generate_walk_forward_periods` on day offsets. */
  function Periods(start: int, end: int, train: int, test: int, step: int): seq<Period>
    requires Halts(start, end, train, test, step)
  {
    if step > 0 then PeriodsFrom(start, end, train, test, step) else []
  }

  /** The generator's loop: advance a cursor by the step, stopping at the first split that overruns. */
  method Generate(start: int, end: int, train: int, test: int, step: int) returns (periods: seq<Period>)
    requires Halts(start, end, train, test, step)
    ensures periods == Periods(start, end, train, test, step)
  {
    periods := [];
    var current := start;
    while current < end
      invariant step > 0 ==> Periods(start, end, train, test, step) == periods + PeriodsFrom(current, end, train, test, step)
      invariant step <= 0 ==> periods == [] && current == start
      decreases end - current
    {
      var trainStart := current;
      var trainEnd := trainStart + Days(train);
      var testStart := trainEnd;
      var testEnd := testStart + Days(test);
      if testEnd > end {
        break;
      }
      var p := Period(trainStart, trainEnd, testStart, testEnd);
      if step > 0 {
        ghost var rest := PeriodsFrom(current + Days(step), end, train, test, step);
        assert p == PeriodAt(current, train, test);
        assert periods + [p] + rest == periods + ([p] + rest);
      }
      periods := periods + [p];
      current := current + Days(step);
    }
  }

  /**
   * Every split has the training window ending where the test window starts, windows of
   * `30·train` and `30·test` days, a test end within `end`, and the k-th starts at
   * `start + k·30·step`.
   */
  lemma PeriodShape(start: int, end: int, train: int, test: int, step: int, k: nat)
    requires Halts(start, end, train, test, step)
    requires k < |Periods(start, end, train, test, step)|
    ensures var p := Periods(start, end, train, test, step)[k];
      p.trainEnd == p.testStart
      && p.trainEnd - p.trainStart == Days(train) && p.testEnd - p.testStart == Days(test)
      && p.testEnd <= end
      && p.trainStart == start + k * Days(step)
  {
    PeriodsFromShape(start, end, train, test, step);
  }

  /** Starts strictly increase with a positive step. */
  lemma StartsIncrease(start: int, end: int, train: int, test: int, step: int, i: nat, j: nat)
    requires Halts(start, end, train, test, step)
    requires i < j < |Periods(start, end, train, test, step)|
    ensures Periods(start, end, train, test, step)[i].trainStart < Periods(start, end, train, test, step)[j].trainStart
  {
    assert step > 0;
    PeriodShape(start, end, train, test, step, i);
    PeriodShape(start, end, train, test, step, j);
    MulMonotone(i, j, Days(step));
  }

  lemma MulMonotone(i: int, j: int, d: int)
    requires i < j && d > 0
    ensures i * d < j * d
  {
    assert j * d - i * d == (j - i) * d;
  }

  /**
   * Generation stops at the first split that overruns: the split right after the last
   * one emitted would start at or past `end` or end its test window after `end`.
   */
  lemma StopsAtFirstOverrun(start: int, end: int, train: int, test: int, step: int)
    requires step > 0
    ensures var ps := Periods(start, end, train, test, step);
      Stops(start + |ps| * Days(step), end, train, test)
  {
    PeriodsFromShape(start, end, train, test, step);
  }

  /** Nothing is emitted when the start is not before the end. */
  lemma EmptyWhenStartNotBefore(start: int, end: int, train: int, test: int, step: int)
    requires start >= end
    ensures Halts(start, end, train, test, step) && Periods(start, end, train, test, step) == []
  {
  }

  // ---------------------------------------------------------------------------
  // CSV output
  // ---------------------------------------------------------------------------

  const CsvHeader := "period,train_start,train_end,test_start,test_end"

  /** One CSV line: the 1-based period number and the four formatted dates. */
  function CsvRow(i: nat, p: Period, fmt: int -> string): string {
    NatToString(i) + "," + fmt(p.trainStart) + "," + fmt(p.trainEnd) + "," + fmt(p.testStart) + "," + fmt(p.testEnd)
  }

  /** The CSV lines for `periods[k..]`, numbered from `k + 1`. */
  function CsvRows(periods: seq<Period>, k: nat, fmt: int -> string): (rows: seq<string>)
    requires k <= |periods|
    decreases |periods| - k
    ensures |rows| == |periods| - k
    ensures forall j :: 0 <= j < |rows| ==> rows[j] == CsvRow(k + j + 1, periods[k + j], fmt)
  {
    if k == |periods| then [] else [CsvRow(k + 1, periods[k], fmt)] + CsvRows(periods, k + 1, fmt)
  }

  /** The CSV format: the header and one row per period, in generation order. */
  method WriteCsv(periods: seq<Period>, fmt: int -> string) returns (lines: seq<string>)
    ensures |lines| == |periods| + 1 && lines[0] == CsvHeader
    ensures forall j :: 0 <= j < |periods| ==> lines[j + 1] == CsvRow(j + 1, periods[j], fmt)
  {
    lines := [CsvHeader];
    var i := 0;
    while i < |periods|
      invariant i <= |periods|
      invariant |lines| == i + 1 && lines[0] == CsvHeader
      invariant forall j :: 0 <= j < i ==> lines[j + 1] == CsvRow(j + 1, periods[j], fmt)
    {
      lines := lines + [CsvRow(i + 1, periods[i], fmt)];
      i := i + 1;
    }
  }

  /** A row's first field is its period number, which reads back as that number. */
  lemma CsvRowNumber(i: nat, p: Period, fmt: int -> string)
    ensures var row := CsvRow(i, p, fmt); var n := NatToString(i);
      |n| < |row| && row[..|n|] == n && row[|n|] == ',' && DigitsValue(n) == i
  {
    var n := NatToString(i);
    assert CsvRow(i, p, fmt)[..|n|] == n;
    NatToStringValue(i);
  }

  /** The `bash` format: a comment and two range assignments per period, numbered from 1. */
  function BashBlock(i: nat, p: Period, fmt: int -> string): (lines: seq<string>)
    ensures |lines| == 4 && lines[3] == ""
  {
    ["# Period " + NatToString(i),
     "TRAIN_RANGE_" + NatToString(i) + "=\"" + fmt(p.trainStart) + "-" + fmt(p.trainEnd) + "\"",
     "TEST_RANGE_" + NatToString(i) + "=\"" + fmt(p.testStart) + "-" + fmt(p.testEnd) + "\"",
     ""]
  }
}
