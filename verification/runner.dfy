/**
 The sequence runner: replays the raw input column through the LSTM cell,
 carrying the state forward, and keeps every state as the reference trace.

 Row 0 of the trace is the reset state and is not produced by a step. Row k
 (k >= 1) is the step applied to input row k - 1 and trace row k - 1: the
 hardware reports at row k its response to the input presented at row k - 1,
 so the last input row is never consumed.
 */
module Runner {
  import opened Activations
  import opened Cell
  import opened FixedPoint

  const Reset := State(0.0, 0.0)

  /** The trace produced by stepping through `consumed` in order, starting
      from the reset state: one more state than inputs. */
  function Replay(consumed: seq<int>, w: WeightSet, lib: MathLib): (trace: seq<State>)
    ensures |trace| == |consumed| + 1
    ensures trace[0] == Reset
    decreases |consumed|
  {
    if |consumed| == 0 then [Reset]
    else
      var prev := Replay(consumed[..|consumed| - 1], w, lib);
      var last := prev[|prev| - 1];
      prev + [LstmStep(Dequantize(consumed[|consumed| - 1]), last.h, last.c, w, lib)]
  }

  /** The reference trace for a whole input column. Every row but the last is
      consumed; an empty column still yields the reset row. */
  function Trace(xs: seq<int>, w: WeightSet, lib: MathLib): (trace: seq<State>)
    ensures |xs| >= 1 ==> |trace| == |xs|
    ensures |xs| == 0 ==> trace == [Reset]
    ensures trace[0] == Reset
  {
    if |xs| == 0 then Replay([], w, lib) else Replay(xs[..|xs| - 1], w, lib)
  }

  /** Causality: the states up to row j depend only on the first j inputs. */
  lemma {:induction false} ReplayPrefix(consumed: seq<int>, j: nat, w: WeightSet, lib: MathLib)
    requires j <= |consumed|
    ensures Replay(consumed, w, lib)[..j + 1] == Replay(consumed[..j], w, lib)
    decreases |consumed|
  {
    if j < |consumed| {
      var shorter := consumed[..|consumed| - 1];
      ReplayPrefix(shorter, j, w, lib);
      assert shorter[..j] == consumed[..j];
      var full := Replay(consumed, w, lib);
      assert full[..|consumed|] == Replay(shorter, w, lib);
      assert full[..j + 1] == full[..|consumed|][..j + 1];
    } else {
      assert consumed[..j] == consumed;
    }
  }

  /** Row k of a replay is the step applied to input k - 1 and row k - 1. */
  lemma {:induction false} ReplayStep(consumed: seq<int>, k: nat, w: WeightSet, lib: MathLib)
    requires 1 <= k <= |consumed|
    ensures var trace := Replay(consumed, w, lib);
            trace[k] == LstmStep(Dequantize(consumed[k - 1]), trace[k - 1].h, trace[k - 1].c, w, lib)
  {
    var trace := Replay(consumed, w, lib);
    ReplayPrefix(consumed, k, w, lib);
    ReplayPrefix(consumed, k - 1, w, lib);
    var upTo := consumed[..k];
    assert upTo[..k - 1] == consumed[..k - 1];
    assert trace[k] == trace[..k + 1][k];
    assert trace[k - 1] == trace[..k][k - 1];
  }

  /** The latency alignment: for 1 <= k < N, trace row k is the cell's
      response to input row k - 1 from trace row k - 1. */
  lemma TraceAlignment(xs: seq<int>, k: nat, w: WeightSet, lib: MathLib)
    requires 1 <= k < |xs|
    ensures var trace := Trace(xs, w, lib);
            trace[k] == LstmStep(Dequantize(xs[k - 1]), trace[k - 1].h, trace[k - 1].c, w, lib)
  {
    ReplayStep(xs[..|xs| - 1], k, w, lib);
  }

  /** The last input row never influences the trace. */
  lemma LastInputUnused(xs: seq<int>, ys: seq<int>, w: WeightSet, lib: MathLib)
    requires |xs| == |ys| >= 1
    requires forall k :: 0 <= k < |xs| - 1 ==> xs[k] == ys[k]
    ensures Trace(xs, w, lib) == Trace(ys, w, lib)
  {
    assert xs[..|xs| - 1] == ys[..|ys| - 1];
  }

  /** With the configured weights, an input table whose first row is 2048
      (the real 1.0) yields at row 1 the step from rest at 1.0, with
      pre-activations 3.25, 2.27, 0.62 and 0.40; its cell state is
      input gate times candidate and its hidden state is output gate times
      the tanh of that cell state. */
  lemma HardwareFirstStep(second: int, lib: MathLib)
    ensures var trace := Trace([2048, second], HardwareWeights, lib);
            var act := GateValues(Gates(3.25, 2.27, 0.62, 0.40), lib);
            && |trace| == 2
            && trace[1].c == act.input * act.candidate
            && trace[1].h == act.output * Tanh(lib.tanh, trace[1].c)
  {
  }

  /** The two-row table [0, 2048]: row 1 is the step from rest at input 0,
      the first row; the sample 2048 on the last row is never consumed. */
  lemma TwoRowTable(lib: MathLib)
    ensures var trace := Trace([0, 2048], HardwareWeights, lib);
            && trace == [Reset, LstmStep(0.0, 0.0, 0.0, HardwareWeights, lib)]
            && PreActivations(0.0, 0.0, HardwareWeights) == Gates(1.62, 0.62, -0.32, 0.59)
  {
  }

  /** Hidden states stay in (-1, 1) and the cell state at row k has
      magnitude at most k. */
  ghost predicate WithinGrowthBounds(trace: seq<State>) {
    forall k :: 0 <= k < |trace| ==> -1.0 < trace[k].h < 1.0 && Abs(trace[k].c) <= k as real
  }

  /** Every replay keeps the growth bounds: the reset row meets them and each
      step keeps |h| < 1 and grows |c| by less than 1. */
  lemma {:induction false} ReplayBounds(consumed: seq<int>, w: WeightSet, lib: MathLib)
    ensures WithinGrowthBounds(Replay(consumed, w, lib))
    decreases |consumed|
  {
    if |consumed| > 0 {
      var n := |consumed|;
      ReplayBounds(consumed[..n - 1], w, lib);
      var prev := Replay(consumed[..n - 1], w, lib);
      var trace := Replay(consumed, w, lib);
      assert Abs(prev[n - 1].c) <= (n - 1) as real;
      assert trace == prev + [LstmStep(Dequantize(consumed[n - 1]), prev[n - 1].h, prev[n - 1].c, w, lib)];
    }
  }

  /** With all-zero weights every row of the trace is the reset state. */
  lemma {:induction false} ZeroWeightsReplayAtRest(consumed: seq<int>, lib: MathLib)
    ensures forall k :: 0 <= k < |consumed| + 1 ==> Replay(consumed, ZeroWeights, lib)[k] == Reset
    decreases |consumed|
  {
    if |consumed| > 0 {
      var prev := consumed[..|consumed| - 1];
      ZeroWeightsReplayAtRest(prev, lib);
      ZeroWeightsStayAtRest(Dequantize(consumed[|consumed| - 1]), 0.0, lib);
    }
  }

  /** The cell-state column of a trace. */
  function Cells(trace: seq<State>): seq<real> {
    seq(|trace|, k requires 0 <= k < |trace| => trace[k].c)
  }

  /** The hidden-state column of a trace. */
  function Hiddens(trace: seq<State>): seq<real> {
    seq(|trace|, k requires 0 <= k < |trace| => trace[k].h)
  }

  /** Extending the consumed inputs by one row appends exactly the next
      step's cell and hidden state to the trace columns. */
  lemma ReplayExtend(xs: seq<int>, i: nat, w: WeightSet, lib: MathLib)
    requires i < |xs|
    ensures var prev := Replay(xs[..i], w, lib);
            var next := LstmStep(Dequantize(xs[i]), prev[i].h, prev[i].c, w, lib);
            && Cells(Replay(xs[..i + 1], w, lib)) == Cells(prev) + [next.c]
            && Hiddens(Replay(xs[..i + 1], w, lib)) == Hiddens(prev) + [next.h]
  {
    assert xs[..i + 1][..i] == xs[..i];
    var prev := Replay(xs[..i], w, lib);
    var next := LstmStep(Dequantize(xs[i]), prev[i].h, prev[i].c, w, lib);
    assert Replay(xs[..i + 1], w, lib) == prev + [next];
    assert Cells(prev + [next]) == Cells(prev) + [next.c];
    assert Hiddens(prev + [next]) == Hiddens(prev) + [next.h];
  }

  /** The loop of the reference script: two running scalars and two result
      lists seeded with the reset row, one iteration per input row but the
      last. It computes exactly the columns of Trace. */
  method RunReference(xs: seq<int>, w: WeightSet, lib: MathLib) returns (floatC: seq<real>, floatH: seq<real>)
    ensures floatC == Cells(Trace(xs, w, lib))
    ensures floatH == Hiddens(Trace(xs, w, lib))
  {
    var cFloat, hFloat := 0.0, 0.0;
    floatC, floatH := [0.0], [0.0];
    var i := 0;
    while i < |xs| - 1
      invariant i <= if |xs| == 0 then 0 else |xs| - 1
      invariant floatC == Cells(Replay(xs[..i], w, lib))
      invariant floatH == Hiddens(Replay(xs[..i], w, lib))
      invariant cFloat == floatC[i] && hFloat == floatH[i]
    {
      var xVal := Dequantize(xs[i]);
      var s := LstmStep(xVal, hFloat, cFloat, w, lib);
      ReplayExtend(xs, i, w, lib);
      cFloat, hFloat := s.c, s.h;
      floatC := floatC + [cFloat];
      floatH := floatH + [hFloat];
      i := i + 1;
    }
    if |xs| == 0 {
      assert xs[..0] == [];
    }
  }
}
