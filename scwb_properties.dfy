/** Properties of the SCWB joint check and of the batch step's output. */
module ScwbProperties {
  import opened Scwb

  /** A zero beam sum with a non-negative column sum passes: nothing is required. */
  lemma ZeroBeamIsSafe(factor: real, sumMc: real)
    requires sumMc >= 0.0
    ensures CheckJoint(factor, sumMc, 0.0).requiredMc == 0.0
    ensures CheckJoint(factor, sumMc, 0.0).ratio == Infinite
    ensures CheckJoint(factor, sumMc, 0.0).isSafe
  {
  }

  /**
   * A zero beam sum does not make every joint pass: with a negative column
   * sum the ratio is the infinity sentinel and the verdict is still unsafe.
   */
  lemma ZeroBeamNegativeColumnIsUnsafe(factor: real, sumMc: real)
    requires sumMc < 0.0
    ensures CheckJoint(factor, sumMc, 0.0).ratio == Infinite
    ensures !CheckJoint(factor, sumMc, 0.0).isSafe
  {
  }

  /** For a positive beam sum the verdict is read off the ratio: safe iff ratio >= factor. */
  lemma RatioDecidesVerdict(factor: real, sumMc: real, sumMb: real)
    requires sumMb > 0.0
    ensures CheckJoint(factor, sumMc, sumMb).ratio.Finite?
    ensures CheckJoint(factor, sumMc, sumMb).isSafe <==>
              CheckJoint(factor, sumMc, sumMb).ratio.value >= factor
  {
  }

  /**
   * For a negative beam sum (which the check does not reject) the ratio
   * reads the other way: the joint passes iff ratio <= factor.
   */
  lemma NegativeBeamReversesRatio(factor: real, sumMc: real, sumMb: real)
    requires sumMb < 0.0
    ensures CheckJoint(factor, sumMc, sumMb).ratio.Finite?
    ensures CheckJoint(factor, sumMc, sumMb).isSafe <==>
              CheckJoint(factor, sumMc, sumMb).ratio.value <= factor
  {
  }

  /** Column sum 100 against beam sum 50 with factor 1.2: requires 60, ratio 2, passes. */
  lemma StrongColumnScenario()
    ensures CheckJoint(1.2, 100.0, 50.0) ==
              JointCheck(100.0, 50.0, 60.0, Finite(2.0), true, SatisfiedMessage)
  {
  }

  /** Column sum 60 against beam sum 60 with factor 1.2: requires 72, ratio 1, fails. */
  lemma WeakColumnScenario()
    ensures CheckJoint(1.2, 60.0, 60.0) ==
              JointCheck(60.0, 60.0, 72.0, Finite(1.0), false, WarningMessage)
  {
  }

  /** Column sum 100 against a zero beam sum: infinite ratio, passes. */
  lemma ZeroBeamScenario()
    ensures CheckJoint(1.2, 100.0, 0.0) ==
              JointCheck(100.0, 0.0, 0.0, Infinite, true, SatisfiedMessage)
  {
  }

  // ---------------------------------------------------------------------
  // The batch output.

  /**
   * Each output row is its input row unchanged (the joint identifier and
   * any extra column included) with the verdict of the SCWB rule on that
   * row's capacities and the message that goes with it.
   */
  lemma AnnotatedRowVerdict(factor: real, frame: Frame, out: ResultFrame, i: nat)
    requires Annotates(factor, frame, out)
    requires i < |frame.rows|
    ensures i < |out.rows| && out.rows[i].original == frame.rows[i]
    ensures McColumn in frame.rows[i] && frame.rows[i][McColumn].Num?
    ensures MbColumn in frame.rows[i] && frame.rows[i][MbColumn].Num?
    ensures out.rows[i].isSafe <==>
              frame.rows[i][McColumn].value >= factor * frame.rows[i][MbColumn].value
    ensures out.rows[i].message == (if out.rows[i].isSafe then SatisfiedMessage else WarningMessage)
    ensures out.rows[i].ratio.Infinite? <==> frame.rows[i][MbColumn].value == 0.0
  {
  }

  /**
   * The output table is determined by the input table and the factor, so
   * running the batch step twice on the same input gives the same table.
   */
  lemma AnnotatesUnique(factor: real, frame: Frame, a: ResultFrame, b: ResultFrame)
    requires Annotates(factor, frame, a)
    requires Annotates(factor, frame, b)
    ensures a == b
  {
  }

  /** Number of rows that pass, as the summary line reports it. */
  function SafeCount(rows: seq<ResultRow>): nat
  {
    if rows == [] then 0
    else (if rows[0].isSafe then 1 else 0) + SafeCount(rows[1..])
  }

  /** At most every row passes, and every row passes iff the count is the row count. */
  lemma {:induction false} SafeCountBound(rows: seq<ResultRow>)
    ensures SafeCount(rows) <= |rows|
    ensures SafeCount(rows) == |rows| <==> forall i :: 0 <= i < |rows| ==> rows[i].isSafe
  {
    if rows != [] {
      SafeCountBound(rows[1..]);
      assert forall i :: 1 <= i < |rows| ==> rows[i] == rows[1..][i - 1];
    }
  }

  /**
   * A header-only table is well formed and has an annotated output (its
   * header with the result columns and no rows), yet the as-written batch
   * step's success condition excludes it.
   */
  lemma HeaderOnlyTableRejected(factor: real)
    ensures AllReadable(Frame(["joint_id", McColumn, MbColumn], []).rows)
    ensures Annotates(factor, Frame(["joint_id", McColumn, MbColumn], []),
                      ResultFrame(["joint_id", McColumn, MbColumn] + ResultColumns(), []))
    ensures !(|Frame(["joint_id", McColumn, MbColumn], []).rows| > 0)
  {
  }
}
