/**
 * The Strong Column Weak Beam (SCWB) joint check: a joint passes when the
 * summed nominal moment capacity of its columns is at least the safety
 * factor times the summed nominal moment capacity of its beams,
 * Sum(Mc) >= factor * Sum(Mb), with factor 1.2 by default.
 *
 * Capacities and the factor are mathematical reals; the floating-point
 * infinity used when the beam sum is zero is the constructor `Infinite`.
 */
module Scwb {
  import opened Wrappers

  const SatisfiedMessage: string := "Strong Column Weak Beam Satisfied"
  const WarningMessage: string := "WARNING: Weak Column Detected"

  /** Column names: the two the check reads and the three it appends. */
  const McColumn: string := "sum_mc"
  const MbColumn: string := "sum_mb"
  const RatioColumn: string := "ratio"
  const SafeColumn: string := "is_safe"
  const MessageColumn: string := "message"

  function ResultColumns(): seq<string> { [RatioColumn, SafeColumn, MessageColumn] }

  /** Capacity ratio Sum(Mc) / Sum(Mb), or the infinity sentinel when Sum(Mb) is zero. */
  datatype Ratio = Finite(value: real) | Infinite

  /** Everything the check reports about one joint. */
  datatype JointCheck = JointCheck(
    sumMc: real,
    sumMb: real,
    requiredMc: real,
    ratio: Ratio,
    isSafe: bool,
    message: string)

  /** The SCWB rule itself: the column sum covers the factored beam sum. */
  predicate ColumnCoversBeams(factor: real, sumMc: real, sumMb: real)
  {
    sumMc >= factor * sumMb
  }

  /**
   * Checks one joint. Total: any real inputs are accepted, negative and
   * zero included, and a zero beam sum gives the infinity sentinel instead
   * of a division.
   */
  function CheckJoint(factor: real, sumMc: real, sumMb: real): (r: JointCheck)
    ensures r.sumMc == sumMc && r.sumMb == sumMb
    ensures r.requiredMc == factor * sumMb
    ensures r.isSafe <==> ColumnCoversBeams(factor, sumMc, sumMb)
    ensures r.ratio.Infinite? <==> sumMb == 0.0
    ensures r.ratio.Finite? ==> r.ratio.value * sumMb == sumMc
    ensures r.message == SatisfiedMessage <==> r.isSafe
    ensures r.message == WarningMessage <==> !r.isSafe
  {
    var requiredMc := factor * sumMb;
    var isSafe := sumMc >= requiredMc;
    var ratio := if sumMb != 0.0 then Finite(sumMc / sumMb) else Infinite;
    JointCheck(sumMc, sumMb, requiredMc, ratio, isSafe,
               if isSafe then SatisfiedMessage else WarningMessage)
  }

  // ---------------------------------------------------------------------
  // The table the batch step works on: the parsed CSV file.

  /** A cell as the CSV reader types it: a number or anything else. */
  datatype Cell = Num(value: real) | Text(text: string)

  /** A data row, whose cells are looked up by column name. */
  type Row = map<string, Cell>

  /** A parsed table: its header in file order and its data rows in file order. */
  datatype Frame = Frame(columns: seq<string>, rows: seq<Row>)

  /** Outcome of reading the CSV file; a reader error is abstract. */
  datatype ReadResult = Loaded(frame: Frame) | ReadFailed

  /** An output row: the input row unchanged plus the three appended results. */
  datatype ResultRow = ResultRow(original: Row, ratio: Ratio, isSafe: bool, message: string)

  /** The output table: the input header followed by the three result columns. */
  datatype ResultFrame = ResultFrame(columns: seq<string>, rows: seq<ResultRow>)

  /** A row the check can use: both capacity columns are present and numeric. */
  predicate Readable(row: Row)
  {
    McColumn in row && MbColumn in row && row[McColumn].Num? && row[MbColumn].Num?
  }

  predicate AllReadable(rows: seq<Row>)
  {
    forall i :: 0 <= i < |rows| ==> Readable(rows[i])
  }

  /** The check applied to a readable row, with the row's own capacities. */
  function CheckRow(factor: real, row: Row): JointCheck
    requires Readable(row)
  {
    CheckJoint(factor, row[McColumn].value, row[MbColumn].value)
  }

  /** The row the batch step emits for a readable input row. */
  function Annotated(factor: real, row: Row): ResultRow
    requires Readable(row)
  {
    var c := CheckRow(factor, row);
    ResultRow(row, c.ratio, c.isSafe, c.message)
  }

  /**
   * `out` is `frame` with the result columns appended: same header plus the
   * three new names, one output row per input row in input order, each the
   * input row unchanged with the check's ratio, verdict and message.
   */
  predicate Annotates(factor: real, frame: Frame, out: ResultFrame)
  {
    out.columns == frame.columns + ResultColumns() &&
    |out.rows| == |frame.rows| &&
    forall i :: 0 <= i < |frame.rows| ==>
      Readable(frame.rows[i]) && out.rows[i] == Annotated(factor, frame.rows[i])
  }

  /** The checker; its factor is fixed when it is built and never changes. */
  class Calculator {
    const factor: real

    constructor (factor: real := 1.2)
      ensures this.factor == factor
    {
      this.factor := factor;
    }

    /**
     * The row loop: checks each row in order and collects the results,
     * stopping with None at the first row whose capacity is missing or not
     * a number (the lookup or the arithmetic would raise).
     */
    method CheckRows(rows: seq<Row>) returns (results: Option<seq<JointCheck>>)
      ensures results.Some? <==> AllReadable(rows)
      ensures results.Some? ==> |results.value| == |rows|
      ensures results.Some? ==> forall i :: 0 <= i < |rows| ==>
                Readable(rows[i]) && results.value[i] == CheckRow(factor, rows[i])
    {
      var acc: seq<JointCheck> := [];
      var i := 0;
      while i < |rows|
        invariant 0 <= i <= |rows|
        invariant AllReadable(rows[..i])
        invariant |acc| == i
        invariant forall k :: 0 <= k < i ==> Readable(rows[k]) && acc[k] == CheckRow(factor, rows[k])
      {
        var row := rows[i];
        if !(McColumn in row && MbColumn in row) {
          // row['sum_mc'] or row['sum_mb'] raises a KeyError
          return None;
        }
        if !(row[McColumn].Num? && row[MbColumn].Num?) {
          // the factored product or the comparison raises a TypeError
          return None;
        }
        var res := CheckJoint(factor, row[McColumn].value, row[MbColumn].value);
        acc := acc + [res];
        i := i + 1;
      }
      assert rows[..i] == rows;
      return Some(acc);
    }

    /** Appends each row's ratio, verdict and message to that row. */
    static method AppendResults(frame: Frame, results: seq<JointCheck>) returns (out: ResultFrame)
      requires |results| == |frame.rows|
      ensures out.columns == frame.columns + ResultColumns()
      ensures |out.rows| == |frame.rows|
      ensures forall i :: 0 <= i < |frame.rows| ==>
                out.rows[i] == ResultRow(frame.rows[i], results[i].ratio, results[i].isSafe, results[i].message)
    {
      var rows: seq<ResultRow> := [];
      var i := 0;
      while i < |results|
        invariant 0 <= i <= |results|
        invariant |rows| == i
        invariant forall k :: 0 <= k < i ==>
                    rows[k] == ResultRow(frame.rows[k], results[k].ratio, results[k].isSafe, results[k].message)
      {
        rows := rows + [ResultRow(frame.rows[i], results[i].ratio, results[i].isSafe, results[i].message)];
        i := i + 1;
      }
      out := ResultFrame(frame.columns + ResultColumns(), rows);
    }

    /**
     * The batch step as the code does it: all or nothing. It fails when the
     * file cannot be read, when some row lacks a numeric capacity, and also
     * when the table has no data rows, because the empty result list yields
     * a result table without the three columns that are then selected.
     */
    method ProcessCsv(read: ReadResult) returns (out: Option<ResultFrame>)
      ensures out.Some? <==>
                read.Loaded? && |read.frame.rows| > 0 && AllReadable(read.frame.rows)
      ensures out.Some? ==> Annotates(factor, read.frame, out.value)
    {
      if read.ReadFailed? {
        return None;
      }
      var frame := read.frame;
      var results := CheckRows(frame.rows);
      if results.None? {
        return None;
      }
      if |results.value| == 0 {
        // selecting the result columns of an empty result table raises a KeyError
        return None;
      }
      var table := AppendResults(frame, results.value);
      return Some(table);
    }

    /**
     * The batch step with a header-only table accepted: it yields the header
     * with the result columns appended and no rows.
     */
    method ProcessCsvKeepingEmpty(read: ReadResult) returns (out: Option<ResultFrame>)
      ensures out.Some? <==> read.Loaded? && AllReadable(read.frame.rows)
      ensures out.Some? ==> Annotates(factor, read.frame, out.value)
    {
      if read.ReadFailed? {
        return None;
      }
      var frame := read.frame;
      var results := CheckRows(frame.rows);
      if results.None? {
        return None;
      }
      var table := AppendResults(frame, results.value);
      return Some(table);
    }
  }
}
