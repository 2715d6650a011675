# SCWB joint check in Dafny

A model of the Strong Column Weak Beam (SCWB) calculator of the Wilson-SCWB
tool. For every beam-column joint the seismic rule Sum(Mc) >= factor * Sum(Mb)
is checked, where Sum(Mc) is the summed nominal moment capacity of the columns
at the joint, Sum(Mb) that of the beams, and the factor is 1.2 by default (the
value the code attributes to ACI 318). The calculator checks one joint at a
time, and runs the check over a whole table of joints, appending the ratio, the
verdict and a message to every row.

- `wrappers.dfy`: the `Option` type of the batch step's all-or-nothing outcome.
- `scwb.dfy` (module `Scwb`): the result record, the ratio with its infinity
  sentinel (`Finite(value) | Infinite`), the pure joint check `CheckJoint`, the
  parsed table (`Frame`: header plus rows whose cells are looked up by column
  name), and the class `Calculator`, whose `factor` is a constant set once by
  the constructor (default 1.2) and whose methods run the row loop and the
  batch step.
- `scwb_properties.dfy` (module `ScwbProperties`): the rule's consequences
  (zero and negative beam sums, the ratio reading of the verdict), the
  concrete scenarios of the test file, and properties of the output table
  (row-by-row correspondence, determinism, the safe-row count).

Capacities and the factor are `real`, so `factor * Sum(Mb)` and
`Sum(Mc) / Sum(Mb)` are exact. Negative inputs are accepted, as in the code.

Where the code's behaviour differs from its own documentation or from what
one might expect, the model follows the code:

- A zero beam sum does not make every joint pass. The code only compares
  `sum_mc >= factor * sum_mb`, so with `sum_mb == 0` and a negative `sum_mc`
  the ratio is the infinity sentinel but the verdict is unsafe
  (`ZeroBeamNegativeColumnIsUnsafe`).
- The docstring of `process_csv` lists `joint_id` as an expected column
  (src/scwb_calculator.py:53-56), but the code looks up only `sum_mc` and
  `sum_mb`. `joint_id` and every other column are carried through unchanged,
  and a table without `joint_id` is processed.
- The same docstring promises the original data with the check results
  appended (src/scwb_calculator.py:61-62), but a header-only table yields no
  table at all (see Findings).

## Model

| member | source | states |
|---|---|---|
| `Scwb.CheckJoint` | src/scwb_calculator.py:36-46 | total for every real input; echoes both sums; required capacity is factor times the beam sum; safe iff the column sum covers the factored beam sum; the ratio is infinite iff the beam sum is zero and otherwise is the quotient (ratio times beam sum gives the column sum); the satisfied message iff safe, the warning iff not |
| `Scwb.Calculator.constructor` | src/scwb_calculator.py:16-23 | the factor is the given one, 1.2 when none is given; it is a constant afterwards |
| `Scwb.Calculator.CheckRows` | src/scwb_calculator.py:67-70 | succeeds iff every row has numeric `sum_mc` and `sum_mb`; then one result per row, in row order, each the joint check of that row's capacities |
| `Scwb.Calculator.AppendResults` | src/scwb_calculator.py:72-73 | output header is the input header followed by `ratio`, `is_safe`, `message`; one output row per input row in order, the input row unchanged plus that row's ratio, verdict and message |
| `Scwb.Calculator.ProcessCsv` | src/scwb_calculator.py:64-78 | returns a table iff the file was read, it has at least one row, and every row has numeric capacities; otherwise nothing, never a partial table; the table annotates every input row in order |
| `Scwb.Calculator.ProcessCsvKeepingEmpty` | src/scwb_calculator.py:64-78 | the corrected batch step: returns a table iff the file was read and every row has numeric capacities, a header-only table included; the table annotates every input row in order |
| `ScwbProperties.ZeroBeamIsSafe` | src/scwb_calculator.py:36-38 | a zero beam sum with a non-negative column sum requires nothing, has the infinite ratio and passes |
| `ScwbProperties.ZeroBeamNegativeColumnIsUnsafe` | src/scwb_calculator.py:36-38 | a zero beam sum with a negative column sum has the infinite ratio yet fails |
| `ScwbProperties.RatioDecidesVerdict` | src/scwb_calculator.py:36-38 | for a positive beam sum the ratio is finite and the joint passes iff the ratio is at least the factor |
| `ScwbProperties.NegativeBeamReversesRatio` | src/scwb_calculator.py:36-38 | for a negative beam sum the joint passes iff the ratio is at most the factor |
| `ScwbProperties.StrongColumnScenario` | tests/test_scwb_calculator.py:4-10 | factor 1.2, sums 100 and 50: required 60, ratio 2, safe, satisfied message |
| `ScwbProperties.WeakColumnScenario` | tests/test_scwb_calculator.py:12-18 | factor 1.2, sums 60 and 60: required 72, ratio 1, unsafe, warning message |
| `ScwbProperties.ZeroBeamScenario` | tests/test_scwb_calculator.py:20-25 | factor 1.2, sums 100 and 0: required 0, infinite ratio, safe |
| `ScwbProperties.AnnotatedRowVerdict` | src/scwb_calculator.py:67-73 | every output row keeps its input row verbatim (the joint identifier included), is safe iff that row's column sum covers the factored beam sum, carries the matching message and an infinite ratio iff the beam sum is zero |
| `ScwbProperties.AnnotatesUnique` | src/scwb_calculator.py:64-75 | the output table is determined by the input table and the factor, so processing the same input twice gives the same table |
| `ScwbProperties.SafeCountBound` | main.py:34-36 | `SafeCount`, the number of passing rows (the summary's `is_safe` sum), is at most the row count, and equals it iff every row passes |
| `ScwbProperties.HeaderOnlyTableRejected` | src/scwb_calculator.py:72-73 | a header-only table has every row readable and a correct annotated output, yet is outside the as-written batch step's success condition |

## Findings

| source | as written | input that shows it | evidently intended | confidence | as-written member | corrected member |
|---|---|---|---|---|---|---|
| src/scwb_calculator.py:72-73 | with no data rows the result list is empty, the frame built from it has no columns, and selecting `ratio`, `is_safe`, `message` from it raises, so the whole step returns nothing | a CSV file holding only the header `joint_id,sum_mc,sum_mb` | an empty output table with the three result columns appended | not executed; medium (depends on the table library's behaviour for an empty record list) | `Scwb.Calculator.ProcessCsv`, with `ScwbProperties.HeaderOnlyTableRejected` | `Scwb.Calculator.ProcessCsvKeepingEmpty` |

## Left out

- Reading and writing CSV files and the table library: the parsed file is a
  `ReadResult`, either a `Frame` or an abstract read failure (missing file,
  unparsable text).
- The printed diagnostic of a failed batch step and the exception types:
  only the outcome, no table, is modelled.
- Missing (NaN) cells and boolean cells: a `Cell` is a number or text. A text
  capacity makes the step fail, as the product, the comparison or the
  division raises; this holds for an integer factor too, so the factor is
  modelled as a real throughout.
- The shape invariant of a parsed table: every row has exactly the header's
  columns. `Frame` does not tie each row's keys to `columns`, so the model
  also admits tables no reader produces; no contract relies on that shape.
- Floating point: rounding of `factor * sum_mb` and of the quotient, NaN
  comparisons, and the float infinity, which is the `Infinite` constructor.
- A column the table library dtype-converts as a whole: when one capacity
  cell is text, the library reads the whole column as text and the first row
  fails. The model fails at the first text cell; the outcome, no table, is
  the same.
- main.py: the banner, the printing, the file-existence check, the fixed
  input and output paths and the summary line. Only its safe-row count is
  modelled, as `SafeCount`.
