/**
 The comparison engine: dequantizes the hardware cell and hidden columns,
 attaches the reference trace to the input table row by row, and forms the
 signed residuals hardware - reference.
 */
module Comparison {
  import opened Activations
  import opened Cell
  import opened FixedPoint
  import opened Runner

  /** One row of the input table: raw Q6.11 input and hardware outputs. */
  datatype Sample = Sample(xt: int, ct: int, ht: int)

  /** One row of the output table: the input row, unchanged, followed by the
      added columns. */
  datatype ComparisonRow = ComparisonRow(
    sample: Sample,
    floatC: real, floatH: real,
    hwC: real, hwH: real,
    diffC: real, diffH: real)

  /** The output table. A table with rows gets one ComparisonRow per input
      row. A header-only table has no rows, but the first assignment of the
      one-element reference column gives it that column's index, so it grows
      to one row. Only that row's two reference columns hold values; its
      input, hardware and residual columns are missing (NaN in the script). */
  datatype Output =
    | Rows(rows: seq<ComparisonRow>)
    | ReferenceOnly(floatC: seq<real>, floatH: seq<real>)

  function InputColumn(table: seq<Sample>): seq<int> {
    seq(|table|, k requires 0 <= k < |table| => table[k].xt)
  }

  /** Element-wise dequantization of a raw column. */
  function DequantizeColumn(col: seq<int>): (r: seq<real>)
    ensures |r| == |col|
    ensures forall k :: 0 <= k < |col| ==> r[k] * Scale == col[k] as real
  {
    seq(|col|, k requires 0 <= k < |col| => Dequantize(col[k]))
  }

  /** Element-wise signed residuals hardware - reference: adding a residual
      back to its reference value recovers the hardware value. */
  function Residuals(hw: seq<real>, reference: seq<real>): (r: seq<real>)
    requires |hw| == |reference|
    ensures |r| == |hw|
    ensures forall k :: 0 <= k < |hw| ==> reference[k] + r[k] == hw[k]
  {
    seq(|hw|, k requires 0 <= k < |hw| => hw[k] - reference[k])
  }

  /** The output table: the reference trace attached to the input rows, the
      dequantized hardware columns and the residuals. A header-only table
      yields the single reset row of the reference columns. */
  function Compare(table: seq<Sample>, w: WeightSet, lib: MathLib): (r: Output)
    ensures r.ReferenceOnly? <==> |table| == 0
    ensures r.ReferenceOnly? ==> r.floatC == [0.0] && r.floatH == [0.0]
    ensures r.Rows? ==> |r.rows| == |table|
    ensures r.Rows? ==> forall k :: 0 <= k < |table| ==>
              var row := r.rows[k];
              && row.sample == table[k]
              && row.floatC == Trace(InputColumn(table), w, lib)[k].c
              && row.floatH == Trace(InputColumn(table), w, lib)[k].h
              && row.hwC * Scale == table[k].ct as real
              && row.hwH * Scale == table[k].ht as real
              && row.floatC + row.diffC == row.hwC
              && row.floatH + row.diffH == row.hwH
  {
    var trace := Trace(InputColumn(table), w, lib);
    if |table| == 0 then
      ReferenceOnly(Cells(trace), Hiddens(trace))
    else
      var floatC := Cells(trace);
      var floatH := Hiddens(trace);
      var hwC := DequantizeColumn(seq(|table|, k requires 0 <= k < |table| => table[k].ct));
      var hwH := DequantizeColumn(seq(|table|, k requires 0 <= k < |table| => table[k].ht));
      var diffC := Residuals(hwC, floatC);
      var diffH := Residuals(hwH, floatH);
      Rows(seq(|table|, k requires 0 <= k < |table| =>
        ComparisonRow(table[k], floatC[k], floatH[k], hwC[k], hwH[k], diffC[k], diffH[k])))
  }

  /** Wherever a hardware sample of a non-empty table is the reference value
      rounded to the nearest Q6.11 step, the residual Compare reports for it
      is at most half a step. */
  lemma RoundedResidualBound(table: seq<Sample>, k: nat, w: WeightSet, lib: MathLib)
    requires k < |table|
    ensures var reference := Trace(InputColumn(table), w, lib)[k];
            var out := Compare(table, w, lib);
            && out.Rows?
            && (Abs(table[k].ct as real - reference.c * Scale) <= 0.5 ==> Abs(out.rows[k].diffC) <= 0.5 / Scale)
            && (Abs(table[k].ht as real - reference.h * Scale) <= 0.5 ==> Abs(out.rows[k].diffH) <= 0.5 / Scale)
  {
  }
}
