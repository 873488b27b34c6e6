# Reference LSTM recurrence for hardware validation, in Dafny

This project models the floating-point reference of a single-unit LSTM that a
quantized hardware datapath is checked against, and proves properties of it.
It covers four parts of `check.py`:

- **Activation primitives** (`activations.dfy`, module `Activations`): the
  two-branch logistic sigmoid and the tanh wrapper. The library functions
  `math.exp` and `math.tanh` are not modelled. They are function-valued
  parameters (`MathLib`), and their types carry the only facts used:
  `exp(x) > 0`, `exp(0) = 1`, `tanh(0) = 0` and `-1 < tanh(x) < 1`.
- **LSTM cell** (`cell.dfy`, module `Cell`): an immutable `WeightSet` with the
  twelve scalar weights and biases, and the configured constants
  `HardwareWeights`. `LstmStep` takes `(x_t, h_prev, c_prev)` in the source's
  order and returns `State(c, h)`, the pair in the order the source returns it.
- **Fixed point** (`fixed_point.dfy`, module `FixedPoint`): the Q6.11 divisor
  2048 and dequantization.
- **Sequence runner** (`runner.dfy`, module `Runner`):
  - `Replay` is a recursive function that builds the whole trace. Row 0 is
    the reset state `(0, 0)`. Row k is the step on input row k-1 from row
    k-1, which is the one-row hardware-latency offset.
  - `Trace` applies `Replay` to every input row except the last.
  - `RunReference` is the script's own loop, with its two running scalars and
    two result lists. It is proved to compute exactly the columns of `Trace`.
- **Comparison engine** (`comparison.dfy`, module `Comparison`):
  - `Compare` builds the output table. Each row keeps the original sample and
    adds the reference `(c, h)`, the dequantized hardware values and the
    residuals (hardware minus reference).
  - A header-only table has no rows, but its reference columns still hold
    the reset row. The first column assignment gives an index-less frame the
    index of the assigned list, so the table grows to one row. That row has
    `float_c_t = float_h_t = 0.0`, and its input, hardware and residual
    columns are NaN. `Compare` returns this case as
    `ReferenceOnly([0.0], [0.0])`, which holds only the two reference
    columns. It does not require a non-empty table.

All arithmetic is over exact Dafny `real`, not IEEE doubles. Where the
floating-point program is only accurate to rounding, for example
`sigmoid(-x) = 1 - sigmoid(x)`, the model states an exact equality.

The latency offset decides which input a row uses. Take the table with
`x_t` column `[0, 2048]`. Its row 1 is the step from rest at input `0.0`,
which is the first row's sample (`Runner.TwoRowTable`). The sample 2048 on
the last row is never consumed. The pre-activations 3.25, 2.27, 0.62 and 0.40
only appear when 2048 is on row 0 (`Runner.HardwareFirstStep`).

## Model

| member | source | states |
|---|---|---|
| Activations.Sigmoid | check.py:7-13 | For every real x, the result lies strictly between 0 and 1, and sigmoid(0) = 1/2. |
| Activations.SigmoidSymmetry | check.py:7-13 | sigmoid(-x) = 1 - sigmoid(x) exactly, for every x. It uses only exp > 0 and exp(0) = 1. |
| Activations.SigmoidIsLogistic | check.py:7-13 | If exp(-x)·exp(x) = 1, both branches agree with 1/(1+e^-x): sigmoid(x)·(1+exp(-x)) = 1. |
| Activations.Tanh | check.py:15-16 | The wrapper's result lies in (-1, 1), and tanh(0) = 0. |
| FixedPoint.Dequantize | check.py:44 | Dividing by the Q6.11 divisor gives a real r with r·2048 = n. |
| FixedPoint.DequantizeMultiple | check.py:44 | Dequantizing n·2048 gives exactly n. |
| Cell.PreActivations | check.py:24-27 | With all twelve weights and biases zero, all four pre-activations are zero whatever the input and previous hidden state. |
| Cell.GateValues | check.py:29-32 | The forget, input and output gates lie in (0, 1), and the candidate lies in (-1, 1). |
| Cell.LstmStep | check.py:21-37 | The new hidden state lies in (-1, 1), and the new cell state satisfies abs(c_t) < abs(c_prev) + 1. |
| Cell.StepFromZeroCell | check.py:34 | When c_prev = 0, c_t is exactly the input gate times the candidate. |
| Cell.ZeroWeightsStayAtRest | check.py:24-37 | With zero weights and c_prev = 0, the step returns (0, 0) for any x_t and h_prev. |
| Cell.HardwarePreActivationsAtOne | check.py:46-49 | With the configured weights, input 1.0 and h_prev = 0, the pre-activations are exactly 3.25, 2.27, 0.62 and 0.40. |
| Runner.Replay | check.py:52-63 | Replaying m inputs yields m+1 states, and the first is the reset state (0, 0). |
| Runner.Trace | check.py:52-57 | For N ≥ 1 input rows the trace has N rows. For N = 0 it is the single reset row. Row 0 is always (0, 0). |
| Runner.ReplayPrefix | check.py:57-63 | The states up to row j depend only on the first j inputs (causality). |
| Runner.ReplayStep | check.py:57-63 | Row k of a replay is the step on input k-1 from row k-1. |
| Runner.TraceAlignment | check.py:56-61 | For 1 ≤ k < N, trace row k equals lstm_step(x[k-1]/2048, h[k-1], c[k-1]). |
| Runner.LastInputUnused | check.py:57-58 | Two input columns that differ only in the last row give the same trace. |
| Runner.HardwareFirstStep | check.py:44-61 | With the configured weights and first sample 2048: trace row 1 has c = i·g at pre-activations 3.25, 2.27, 0.62, 0.40, and h = o·tanh(c). |
| Runner.TwoRowTable | check.py:57-58 | For the inputs [0, 2048], the trace is [reset, step from rest at 0.0], and that step's pre-activations are the biases. |
| Runner.ReplayBounds | check.py:52-63 | Every hidden state of the trace lies in (-1, 1), and the cell state at row k has magnitude at most k. |
| Runner.ZeroWeightsReplayAtRest | check.py:52-63 | With all-zero weights, every row of the trace is (0, 0). |
| Runner.ReplayExtend | check.py:57-63 | Consuming one more input row appends exactly that step's c and h to the two result columns. |
| Runner.RunReference | check.py:52-63 | The script's loop produces exactly the cell and hidden columns of Trace, including the length-1 result for an empty column. |
| Comparison.DequantizeColumn | check.py:68-69 | The column keeps its length, and each entry times 2048 is the raw hardware sample. |
| Comparison.Residuals | check.py:72-73 | The column keeps its length, and each reference value plus its residual is the hardware value. |
| Comparison.Compare | check.py:66-73 | A header-only table yields exactly the one-row result whose only values are the reference columns [0.0] and [0.0]. Otherwise there is one row per input row, in order. Each row keeps its input unchanged, its reference equals the trace row, hw·2048 equals the raw sample, and reference + diff = hw. |
| Comparison.RoundedResidualBound | check.py:66-73 | In a non-empty table, wherever the hardware c or h sample is the trace value rounded to the nearest Q6.11 step, Compare's residual for it is at most half a step (0.5/2048). |

## Left out

- Reading the input CSV, writing the output CSV and printing to the console (check.py:43, 76-77) are file and stdout I/O. The table arrives as a sequence of `Sample` and leaves as an `Output`: a sequence of `ComparisonRow`, or the reference columns alone for a header-only table.
- The `describe()` summary of the residual columns (check.py:78) is left out. It computes count, mean, sample standard deviation, min, quartiles and max in library floating point.
- A missing column is left out. A missing `c_t` or `h_t` column always raises a KeyError (check.py:68 or 69). A missing `x_t` column raises a KeyError at check.py:58 only when the table has at least two rows. With one row or none, the loop at check.py:57 never runs, `x_t` is never read, and the script writes its output without that column.
- Non-numeric cells are left out. The model starts from parsed integer samples. The reader keeps a string cell, which turns its column into an object column. Every cell of that column, numeric-looking ones included, stays a string. A string anywhere in `x_t` raises a TypeError at check.py:58 on the first iteration when the table has two or more rows. With one row or none, `x_t` is never read. A string in `c_t` or `h_t` raises a TypeError at check.py:68-69. A blank cell is read as NaN and raises nothing. In `x_t`, except in the last row, it makes every trace row after it NaN. In `c_t` or `h_t` it makes that row's hardware value and residual NaN.
- Extra input columns are left out. The script adds its columns to the frame it read, so any columns besides `x_t`, `c_t` and `h_t` pass through to the output unchanged (check.py:66-76). `Sample` keeps only the three used columns.
- Comparison.Compare — for a header-only table it returns only the two reference columns of the grown row. The script's NaN input, hardware and residual cells in that row are represented by leaving those columns out, because reals have no NaN.
- IEEE-754 rounding is not modelled. This includes the overflow that the two sigmoid branches avoid for large |x|. Reals are exact, so tolerance-based properties become equalities.
- The internals of `math.exp` and `math.tanh` are not modelled. Only the four range facts listed above are assumed. Oddness of tanh is neither assumed nor used. The reciprocal law of exp is assumed only by `Activations.SigmoidIsLogistic`, and only as its precondition.
- The hardware fixed-point datapath is not part of this model. Only its integer outputs are consumed.
- The 64-bit width of the parsed integer columns is not modelled. Samples are unbounded `int`, and dequantization divides exactly.
