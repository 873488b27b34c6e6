/**
 The single-unit LSTM cell: one state transition from the previous hidden and
 cell state and the current (already dequantized) input. Every weight is a
 scalar, because the hardware lane being validated has one hidden unit.
 */
module Cell {
  import opened Activations

  /** Per gate (forget, input, candidate, output): a weight on the current
      input, a weight on the previous hidden state, and a bias. */
  datatype WeightSet = WeightSet(
    wfx: real, wfh: real, bf: real,
    wix: real, wih: real, bi: real,
    wgx: real, wgh: real, bg: real,
    wox: real, woh: real, bo: real)

  /** Cell and hidden state, in the order the step returns them. */
  datatype State = State(c: real, h: real)

  /** One value per gate: either the affine pre-activations or the gate
      values after their nonlinearities. */
  datatype Gates = Gates(forget: real, input: real, candidate: real, output: real)

  /** The weights the reference run is configured with. */
  const HardwareWeights := WeightSet(
    1.63, 2.70, 1.62,
    1.65, 2.00, 0.62,
    0.94, 1.41, -0.32,
    -0.19, 4.38, 0.59)

  const ZeroWeights := WeightSet(
    0.0, 0.0, 0.0, 0.0, 0.0, 0.0, 0.0, 0.0, 0.0, 0.0, 0.0, 0.0)

  /** The four affine gate inputs; none depends on another. */
  function PreActivations(xt: real, hPrev: real, w: WeightSet): (pre: Gates)
    ensures w == ZeroWeights ==> pre == Gates(0.0, 0.0, 0.0, 0.0)
  {
    Gates(
      w.wfx * xt + w.wfh * hPrev + w.bf,
      w.wix * xt + w.wih * hPrev + w.bi,
      w.wgx * xt + w.wgh * hPrev + w.bg,
      w.wox * xt + w.woh * hPrev + w.bo)
  }

  /** Sigmoid on the forget, input and output gates; tanh on the candidate. */
  function GateValues(pre: Gates, lib: MathLib): (act: Gates)
    ensures 0.0 < act.forget < 1.0 && 0.0 < act.input < 1.0 && 0.0 < act.output < 1.0
    ensures -1.0 < act.candidate < 1.0
  {
    Gates(
      Sigmoid(lib.exp, pre.forget),
      Sigmoid(lib.exp, pre.input),
      Tanh(lib.tanh, pre.candidate),
      Sigmoid(lib.exp, pre.output))
  }

  /** One LSTM step. The arguments come as (input, previous hidden, previous
      cell) but the result is the pair (cell, hidden). The hidden state stays
      in (-1, 1) and the cell state grows by less than 1 in magnitude. */
  function LstmStep(xt: real, hPrev: real, cPrev: real, w: WeightSet, lib: MathLib): (s: State)
    ensures -1.0 < s.h < 1.0
    ensures Abs(s.c) < Abs(cPrev) + 1.0
  {
    var act := GateValues(PreActivations(xt, hPrev, w), lib);
    var c := act.forget * cPrev + act.input * act.candidate;
    var t := Tanh(lib.tanh, c);
    ScaledBelowOne(act.forget, cPrev);
    ScaledBelowOne(act.input, act.candidate);
    ScaledBelowOne(act.output, t);
    State(c, act.output * t)
  }

  /** Scaling by a factor in (0, 1) never increases magnitude. */
  lemma ScaledBelowOne(a: real, b: real)
    requires 0.0 < a < 1.0
    ensures Abs(a * b) <= Abs(b)
    ensures -1.0 < b < 1.0 ==> -1.0 < a * b < 1.0
  {
  }

  /** From a zero cell state, the new cell state is exactly the input gate
      times the candidate. */
  lemma StepFromZeroCell(xt: real, hPrev: real, w: WeightSet, lib: MathLib)
    ensures var act := GateValues(PreActivations(xt, hPrev, w), lib);
            LstmStep(xt, hPrev, 0.0, w, lib).c == act.input * act.candidate
  {
  }

  /** All-zero weights keep a zero cell state at zero, whatever the input and
      previous hidden state: every sigmoid gate is 1/2 and the candidate is
      tanh(0) = 0. */
  lemma ZeroWeightsStayAtRest(xt: real, hPrev: real, lib: MathLib)
    ensures LstmStep(xt, hPrev, 0.0, ZeroWeights, lib) == State(0.0, 0.0)
  {
    var act := GateValues(PreActivations(xt, hPrev, ZeroWeights), lib);
    assert act == Gates(0.5, 0.5, 0.0, 0.5);
  }

  /** With the configured weights and input 1.0 (the sample 2048), the step
      from rest sees these exact pre-activations. */
  lemma HardwarePreActivationsAtOne()
    ensures PreActivations(1.0, 0.0, HardwareWeights) == Gates(3.25, 2.27, 0.62, 0.40)
  {
  }
}
