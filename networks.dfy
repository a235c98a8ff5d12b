/** A feed-forward network: an ordered list of layers, the network input and
    target, and the results of the last prediction (outputs, residual, loss
    and loss derivative), of the last backward pass (the gradient of the
    first layer) and of training (the loss history).

    Every operation of the `Network` class is specified by a function of the
    network's fields and its layers' states before the call; the properties
    of the library are proved about those functions. */
module Networks {
  import opened Matrices
  import opened Activations
  import opened Losses
  import opened Outcomes
  import opened Layers

  /** A snapshot of the network's own fields (its layers are kept apart). */
  datatype NetState = NetState(
    inputShape: Shape,
    inputs: Matrix,
    numOutputs: int,
    outputs: Vector,
    target: Vector,
    layerInputShapes: seq<Shape>,
    loss: Option<Loss>,
    lossDeriv: Vector,
    scalarLoss: real,
    trainingLoss: seq<real>,
    resid: Vector,
    gradient: Matrix)

  /** What a network operation reports, the network's fields after it and
      the states of its layers after it. */
  datatype NetStep = NetStep(outcome: Outcome, net: NetState, layers: seq<LayerState>)

  /** The shape a network needs: at least one layer and one recorded input
      shape per layer. */
  predicate WellShaped(n: NetState, ls: seq<LayerState>) {
    |ls| >= 1 && |n.layerInputShapes| == |ls|
  }

  /** A one-column matrix as a vector; any other matrix is rejected. */
  function ToVector(m: Matrix): (r: Result<Vector>)
    ensures r.Ok? <==> m.cols == 1
    ensures r.Ok? ==> |r.value| == m.rows && forall i :: 0 <= i < m.rows ==> r.value[i] == m.data[i][0]
  {
    if m.cols != 1 then Err(DimensionMismatch) else Ok(Col(m, 0))
  }

  /** Setting the network input. Without override the input must have the
      recorded shape, rows checked first, and only the input is stored. With
      override the shape is taken from the input, the first layer adopts the
      input and, if it accepts it, the first recorded layer shape changes. */
  function SetInputsStep(n: NetState, ls: seq<LayerState>, x: Matrix, override: bool): (r: NetStep)
    requires WellShaped(n, ls)
    ensures WellShaped(r.net, r.layers)
    ensures !override ==>
      && (r.outcome == Fail(InputRowsMismatch) <==> x.rows != n.inputShape.rows)
      && (r.outcome == Fail(InputColsMismatch) <==> x.rows == n.inputShape.rows && x.cols != n.inputShape.cols)
      && r.layers == ls
      && (r.outcome.Pass? ==> r.net == n.(inputs := x))
      && (r.outcome.Fail? ==> r.net == n)
    ensures override ==>
      && r.net.inputs == x && r.net.inputShape == Shape(x.rows, x.cols)
      && r.layers == ls[0 := WithInputs(ls[0], x, true).state]
      && r.outcome == WithInputs(ls[0], x, true).outcome
      && (r.outcome.Pass? ==> r.net.layerInputShapes == n.layerInputShapes[0 := Shape(x.rows, x.cols)])
  {
    if !override then
      if x.rows != n.inputShape.rows then NetStep(Fail(InputRowsMismatch), n, ls)
      else if x.cols != n.inputShape.cols then NetStep(Fail(InputColsMismatch), n, ls)
      else NetStep(Pass, n.(inputs := x), ls)
    else
      var shape := Shape(x.rows, x.cols);
      var n1 := n.(inputs := x, inputShape := shape);
      var l := WithInputs(ls[0], x, true);
      if l.outcome.Fail? then NetStep(l.outcome, n1, ls[0 := l.state])
      else NetStep(Pass, n1.(layerInputShapes := n.layerInputShapes[0 := shape]), ls[0 := l.state])
  }

  /** Setting the target. A target of length `numOutputs` is stored and
      nothing else changes; any other length is rejected unless overridden.
      With override, `numOutputs` becomes the column count of the stored
      target vector, which is always 1; the last layer takes that output size
      and its recorded input shape again, and then the target is stored. */
  function SetTargetStep(n: NetState, ls: seq<LayerState>, t: Vector, override: bool): (r: NetStep)
    requires WellShaped(n, ls)
    ensures WellShaped(r.net, r.layers)
    ensures |t| == n.numOutputs ==> r == NetStep(Pass, n.(target := t), ls)
    ensures |t| != n.numOutputs && !override ==> r == NetStep(Fail(TargetLengthMismatch), n, ls)
    ensures |t| != n.numOutputs && override ==>
      var last := |ls| - 1;
      var w := WithInputShape(ls[last].(outputSize := 1), n.layerInputShapes[last], false, ls[last].weights);
      && r.net.numOutputs == 1
      && r.layers == ls[last := w.state]
      && r.outcome == w.outcome
      && (r.outcome.Pass? ==> r.net == n.(numOutputs := 1, target := t))
      && (r.outcome.Fail? ==> r.net == n.(numOutputs := 1))
  {
    if |t| == n.numOutputs then NetStep(Pass, n.(target := t), ls)
    else if !override then NetStep(Fail(TargetLengthMismatch), n, ls)
    else
      var last := |ls| - 1;
      var n1 := n.(numOutputs := 1);
      var w := WithInputShape(ls[last].(outputSize := 1), n.layerInputShapes[last], false, ls[last].weights);
      if w.outcome.Fail? then NetStep(w.outcome, n1, ls[last := w.state])
      else NetStep(Pass, n1.(target := t), ls[last := w.state])
  }

  /** The input layer `k` of a chain receives: the network input for the
      first layer, the outputs of layer k - 1 otherwise. */
  function LayerInput(x: Matrix, states: seq<LayerState>, k: nat): Matrix
    requires k <= |states|
  {
    if k == 0 then x else states[k - 1].outputs
  }

  /** The state of a forward sweep: what it reports, the layer states and the
      output of the last layer processed. */
  datatype Chain = Chain(outcome: Outcome, states: seq<LayerState>, out: Matrix)

  /** The forward sweep over the first `m` layers: each layer's forward pass
      is run on the previous layer's outputs, and the sweep stops at the first
      layer that fails. */
  function ForwardSweep(fs: seq<LayerState>, x: Matrix, m: nat): (r: Chain)
    requires m <= |fs|
    ensures |r.states| == |fs|
    decreases m, 2
  {
    if m == 0 then Chain(Pass, fs, x) else ForwardSweepTo(fs, x, m)
  }

  /** The forward sweep over the first `m` layers, m > 0: the sweep over the
      layers before layer m - 1, then, unless it failed, the forward pass of
      layer m - 1 on its result. */
  function ForwardSweepTo(fs: seq<LayerState>, x: Matrix, m: nat): (r: Chain)
    requires 0 < m <= |fs|
    ensures |r.states| == |fs|
    decreases m, 1
  {
    var p := ForwardSweep(fs, x, m - 1);
    if p.outcome.Fail? then p
    else
      var step := ForwardStepAt(fs, x, m);
      Chain(step.outcome, p.states[m - 1 := step.state], if step.outcome.Pass? then step.state.outputs else p.out)
  }

  /** What layer m - 1 does in the forward sweep: its forward pass on the
      result of the sweep over the layers before it. */
  function ForwardStepAt(fs: seq<LayerState>, x: Matrix, m: nat): Step
    requires 0 < m <= |fs|
    decreases m, 0
  {
    var p := ForwardSweep(fs, x, m - 1);
    Forward(p.states[m - 1], p.out)
  }

  /** After the sweep: the last layer's output becomes the network output
      (it must have one column), the residual is output minus target (they
      must be equally long), and the loss and its derivative are evaluated
      (a loss function must have been chosen). */
  function Conclude(n: NetState, ls: seq<LayerState>, out: Matrix): (r: NetStep)
    ensures r.layers == ls
    ensures r.outcome.Pass? <==> out.cols == 1 && out.rows == |n.target| && n.loss.Some?
    ensures r.net == n.(outputs := r.net.outputs, resid := r.net.resid, scalarLoss := r.net.scalarLoss,
                        lossDeriv := r.net.lossDeriv)
    ensures r.outcome.Pass? ==>
      && |r.net.outputs| == out.rows
      && (forall i :: 0 <= i < out.rows ==> r.net.outputs[i] == out.data[i][0])
      && r.net.resid == VecSub(r.net.outputs, n.target)
      && r.net.scalarLoss == VectorLoss(n.loss.value, r.net.outputs, n.target)
      && r.net.lossDeriv == VectorLossDerivative(n.loss.value, r.net.outputs, n.target)
  {
    var v := ToVector(out);
    if v.Err? then NetStep(Fail(v.error), n, ls)
    else
      var n1 := n.(outputs := v.value);
      if |v.value| != |n.target| then NetStep(Fail(DimensionMismatch), n1, ls)
      else
        var n2 := n1.(resid := VecSub(v.value, n.target));
        match n.loss
        case None => NetStep(Fail(MissingLossFunction), n2, ls)
        case Some(l) =>
          NetStep(Pass, n2.(scalarLoss := VectorLoss(l, v.value, n.target),
                            lossDeriv := VectorLossDerivative(l, v.value, n.target)), ls)
  }

  /** The preamble of a prediction: optionally a new input, then optionally
      a new target, neither with override; the layers stay as they are. */
  function PrepareStep(n: NetState, ls: seq<LayerState>, input: Option<Matrix>, t: Option<Vector>): (r: NetStep)
    requires WellShaped(n, ls)
    ensures r.layers == ls
    ensures r.outcome.Pass? <==>
      && (input.Some? ==> input.value.rows == n.inputShape.rows && input.value.cols == n.inputShape.cols)
      && (t.Some? ==> |t.value| == n.numOutputs)
    ensures r.outcome.Pass? ==>
      r.net == n.(inputs := if input.Some? then input.value else n.inputs,
                  target := if t.Some? then t.value else n.target)
  {
    var a := if input.Some? then SetInputsStep(n, ls, input.value, false) else NetStep(Pass, n, ls);
    if a.outcome.Fail? then a
    else if t.Some? then SetTargetStep(a.net, a.layers, t.value, false) else a
  }

  /** The prediction: the preamble, then the forward sweep over all layers
      from the network input, then the conclusion. */
  function PredictStep(n: NetState, ls: seq<LayerState>, input: Option<Matrix>, t: Option<Vector>): (r: NetStep)
    requires WellShaped(n, ls)
    ensures WellShaped(r.net, r.layers)
    ensures r.net.trainingLoss == n.trainingLoss && r.net.gradient == n.gradient
    ensures r.outcome.Pass? ==> r.net.scalarLoss >= 0.0
  {
    var b := PrepareStep(n, ls, input, t);
    if b.outcome.Fail? then b
    else
      var sweep := ForwardSweep(b.layers, b.net.inputs, |ls|);
      if sweep.outcome.Fail? then NetStep(sweep.outcome, b.net, sweep.states)
      else Conclude(b.net, sweep.states, sweep.out)
  }

  /** The error signal layer `k` receives during the backward pass: the loss
      derivative, as a column, for the last layer; the projection of the
      already processed downstream neighbour otherwise. */
  function Upstream(states: seq<LayerState>, lossDeriv: Vector, k: nat): Result<Matrix>
    requires k < |states|
  {
    if k == |states| - 1 then Ok(AsColumn(lossDeriv))
    else Backpropagated(states[k + 1].err, states[k + 1].weights)
  }

  /** Layer states, and what the sweep that produced them reports. */
  datatype Sweep = Sweep(outcome: Outcome, states: seq<LayerState>)

  /** The backward sweep over the last `m` layers, last to first, stopping
      at the first layer that fails. */
  function BackwardSweep(fs: seq<LayerState>, lossDeriv: Vector, m: nat): (r: Sweep)
    requires m <= |fs|
    ensures |r.states| == |fs|
    decreases m, 2
  {
    if m == 0 then Sweep(Pass, fs) else BackwardSweepTo(fs, lossDeriv, m)
  }

  /** The backward sweep over the last `m` layers, m > 0: the sweep over the
      layers after layer |fs| - m, then, unless it failed, the backward pass
      of that layer on the signal it receives. */
  function BackwardSweepTo(fs: seq<LayerState>, lossDeriv: Vector, m: nat): (r: Sweep)
    requires 0 < m <= |fs|
    ensures |r.states| == |fs|
    decreases m, 1
  {
    var p := BackwardSweep(fs, lossDeriv, m - 1);
    if p.outcome.Fail? then p
    else
      var step := BackwardStepAt(fs, lossDeriv, m);
      Sweep(step.outcome, p.states[|fs| - m := step.state])
  }

  /** What layer |fs| - m does in the backward sweep: its backward pass,
      after the sweep over the layers behind it, on the signal it receives. */
  function BackwardStepAt(fs: seq<LayerState>, lossDeriv: Vector, m: nat): Step
    requires 0 < m <= |fs|
    decreases m, 0
  {
    var p := BackwardSweep(fs, lossDeriv, m - 1);
    var k := |fs| - m;
    BackwardStep(p.states[k], Upstream(p.states, lossDeriv, k))
  }

  /** The network's backward pass: the backward sweep over all layers, after
      which the network gradient is the first layer's gradient. */
  function BackwardNet(n: NetState, ls: seq<LayerState>): (r: NetStep)
    requires WellShaped(n, ls)
    ensures WellShaped(r.net, r.layers)
    ensures r.net == n.(gradient := r.net.gradient)
    ensures r.outcome.Pass? ==> r.net.gradient == r.layers[0].gradient
  {
    var b := BackwardSweep(ls, n.lossDeriv, |ls|);
    if b.outcome.Fail? then NetStep(b.outcome, n, b.states)
    else NetStep(Pass, n.(gradient := b.states[0].gradient), b.states)
  }

  /** The update of the first `m` layers, first to last, stopping at the
      first layer that fails. */
  function UpdateSweep(fs: seq<LayerState>, m: nat): (r: Sweep)
    requires m <= |fs|
    ensures |r.states| == |fs|
    decreases m, 2
  {
    if m == 0 then Sweep(Pass, fs) else UpdateSweepTo(fs, m)
  }

  /** The update of the first `m` layers, m > 0: the update of the layers
      before layer m - 1, then, unless it failed, that layer's update. */
  function UpdateSweepTo(fs: seq<LayerState>, m: nat): (r: Sweep)
    requires 0 < m <= |fs|
    ensures |r.states| == |fs|
    decreases m, 1
  {
    var p := UpdateSweep(fs, m - 1);
    if p.outcome.Fail? then p
    else
      var step := UpdateStepAt(fs, m);
      Sweep(step.outcome, p.states[m - 1 := step.state])
  }

  /** What layer m - 1 does in the update sweep: its update, after the
      layers before it. */
  function UpdateStepAt(fs: seq<LayerState>, m: nat): Step
    requires 0 < m <= |fs|
    decreases m, 0
  {
    UpdateStep(UpdateSweep(fs, m - 1).states[m - 1])
  }

  /** Every layer state with the given learning rate and momentum. */
  function WithUpdateParams(fs: seq<LayerState>, lr: real, mom: real): (r: seq<LayerState>)
    ensures |r| == |fs|
  {
    seq(|fs|, k requires 0 <= k < |fs| => fs[k].(learningRate := lr, momentum := mom))
  }

  /** What a training round does after a successful prediction: the
      backward pass, the current loss appended to the loss history, and the
      update of every layer, stopping at the first step that fails. */
  function LearnStep(n: NetState, ls: seq<LayerState>): (r: NetStep)
    requires WellShaped(n, ls)
    ensures WellShaped(r.net, r.layers)
  {
    var b := BackwardNet(n, ls);
    if b.outcome.Fail? then b
    else
      var u := UpdateSweep(b.layers, |b.layers|);
      NetStep(u.outcome, b.net.(trainingLoss := b.net.trainingLoss + [b.net.scalarLoss]), u.states)
  }

  /** One training round: the prediction and, if it succeeds, the learning
      step. */
  function RoundStep(n: NetState, ls: seq<LayerState>, input: Option<Matrix>, t: Option<Vector>): (r: NetStep)
    requires WellShaped(n, ls)
    ensures WellShaped(r.net, r.layers)
  {
    var p := PredictStep(n, ls, input, t);
    if p.outcome.Fail? then p else LearnStep(p.net, p.layers)
  }

  /** The result of training: what it reports, the network and its layers
      afterwards, the number of completed rounds and whether the iteration
      limit warning fires. */
  datatype Training = Training(outcome: Outcome, net: NetState, layers: seq<LayerState>, rounds: nat, warned: bool)

  /** The rounds of training after the first `done`. The first round
      (`done` = 0) always runs, with the given input and target; a later
      round runs, with neither, while fewer than `maxIter` rounds have
      completed and the gradient exceeds the tolerance. A failed round ends
      training and is not counted. This level checks the iteration limit. */
  function TrainFrom(n: NetState, ls: seq<LayerState>, stopTol: real, maxIter: nat, done: nat,
                     input: Option<Matrix>, t: Option<Vector>): (r: Training)
    requires WellShaped(n, ls)
    decreases maxIter - done, 2
  {
    if done == 0 || done < maxIter then TrainChecked(n, ls, stopTol, maxIter, done, input, t)
    else Training(Pass, n, ls, done, false)
  }

  /** Training below the iteration limit: it continues while the gradient
      exceeds the tolerance. */
  function TrainChecked(n: NetState, ls: seq<LayerState>, stopTol: real, maxIter: nat, done: nat,
                        input: Option<Matrix>, t: Option<Vector>): (r: Training)
    requires WellShaped(n, ls) && (done == 0 || done < maxIter)
    decreases maxIter - done, 1
  {
    if done == 0 || AboveTolerance(n.gradient, stopTol) then TrainRound(n, ls, stopTol, maxIter, done, input, t)
    else Training(Pass, n, ls, done, false)
  }

  /** One round after `done` completed rounds, then the rest of the
      training. */
  function TrainRound(n: NetState, ls: seq<LayerState>, stopTol: real, maxIter: nat, done: nat,
                      input: Option<Matrix>, t: Option<Vector>): (r: Training)
    requires WellShaped(n, ls) && (done == 0 || done < maxIter)
    decreases maxIter - done, 0
  {
    var s := RoundStep(n, ls, input, t);
    if s.outcome.Fail? then Training(s.outcome, s.net, s.layers, done, false)
    else TrainFrom(s.net, s.layers, stopTol, maxIter, done + 1, None, None)
  }

  /** Training: the rounds from none completed; the warning fires when
      training ends by the iteration limit and printing is not suppressed. */
  function TrainStep(n: NetState, ls: seq<LayerState>, stopTol: real, maxIter: nat,
                     input: Option<Matrix>, t: Option<Vector>, noprint: bool): (r: Training)
    requires WellShaped(n, ls)
  {
    var r := TrainFrom(n, ls, stopTol, maxIter, 0, input, t);
    if r.outcome.Fail? then r
    else r.(warned := r.rounds >= maxIter && !noprint)
  }

  /** Whether the gradient's norm exceeds the tolerance, decided on squares:
      a negative tolerance is always exceeded. */
  predicate AboveTolerance(g: Matrix, tol: real) {
    tol < 0.0 || SquaredNorm(g) > tol * tol
  }

  function Max(a: int, b: int): int {
    if a >= b then a else b
  }

  // ---------------------------------------------------------------------
  // Properties of the sweeps and of the prediction

  /** A forward sweep that has failed stays failed: sweeping further
      layers changes nothing. */
  lemma {:induction false} ForwardSweepStops(fs: seq<LayerState>, x: Matrix, m: nat, m': nat)
    requires m <= m' <= |fs| && ForwardSweep(fs, x, m).outcome.Fail?
    ensures ForwardSweep(fs, x, m') == ForwardSweep(fs, x, m)
    decreases m'
  {
    if m' > m {
      ForwardSweepStops(fs, x, m, m' - 1);
    }
  }

  /** The forward sweep over the first m layers leaves the later layers
      untouched. */
  lemma {:induction false} ForwardSweepKeeps(fs: seq<LayerState>, x: Matrix, m: nat, k: nat)
    requires m <= k < |fs|
    ensures ForwardSweep(fs, x, m).states[k] == fs[k]
  {
    if m > 0 {
      ForwardSweepKeeps(fs, x, m - 1, k);
      assert ForwardSweep(fs, x, m) == ForwardSweepTo(fs, x, m);
    }
  }

  /** The backward sweep over the last m layers leaves the earlier layers
      untouched. */
  lemma {:induction false} BackwardSweepKeeps(fs: seq<LayerState>, lossDeriv: Vector, m: nat, k: nat)
    requires m <= |fs| && k < |fs| - m
    ensures BackwardSweep(fs, lossDeriv, m).states[k] == fs[k]
  {
    if m > 0 {
      BackwardSweepKeeps(fs, lossDeriv, m - 1, k);
      assert BackwardSweep(fs, lossDeriv, m) == BackwardSweepTo(fs, lossDeriv, m);
    }
  }

  /** The update sweep over the first m layers leaves the later layers
      untouched. */
  lemma {:induction false} UpdateSweepKeeps(fs: seq<LayerState>, m: nat, k: nat)
    requires m <= k < |fs|
    ensures UpdateSweep(fs, m).states[k] == fs[k]
  {
    if m > 0 {
      UpdateSweepKeeps(fs, m - 1, k);
      assert UpdateSweep(fs, m) == UpdateSweepTo(fs, m);
    }
  }

  /** One more layer of a forward sweep that has succeeded so far. */
  lemma ForwardSweepNext(fs: seq<LayerState>, x: Matrix, m: nat, states: seq<LayerState>, out: Matrix)
    requires m < |fs| && ForwardSweep(fs, x, m) == Chain(Pass, states, out)
    ensures var step := Forward(states[m], out);
      ForwardSweep(fs, x, m + 1)
        == Chain(step.outcome, states[m := step.state], if step.outcome.Pass? then step.state.outputs else out)
  {
    assert ForwardSweep(fs, x, m + 1) == ForwardSweepTo(fs, x, m + 1);
    assert ForwardStepAt(fs, x, m + 1) == Forward(states[m], out);
  }

  /** One more layer of a backward sweep that has succeeded so far, given
      the signal `up` that layer receives. */
  lemma BackwardSweepNext(fs: seq<LayerState>, lossDeriv: Vector, m: nat, states: seq<LayerState>, up: Result<Matrix>)
    requires m < |fs| && BackwardSweep(fs, lossDeriv, m) == Sweep(Pass, states)
    requires up == Upstream(states, lossDeriv, |fs| - m - 1)
    ensures var k := |fs| - m - 1;
      var step := BackwardStep(states[k], up);
      BackwardSweep(fs, lossDeriv, m + 1) == Sweep(step.outcome, states[k := step.state])
  {
    assert BackwardSweep(fs, lossDeriv, m + 1) == BackwardSweepTo(fs, lossDeriv, m + 1);
    assert BackwardStepAt(fs, lossDeriv, m + 1) == BackwardStep(states[|fs| - m - 1], up);
  }

  /** One more layer of an update sweep that has succeeded so far. */
  lemma UpdateSweepNext(fs: seq<LayerState>, m: nat, states: seq<LayerState>)
    requires m < |fs| && UpdateSweep(fs, m) == Sweep(Pass, states)
    ensures var step := UpdateStep(states[m]);
      UpdateSweep(fs, m + 1) == Sweep(step.outcome, states[m := step.state])
  {
    assert UpdateSweep(fs, m + 1) == UpdateSweepTo(fs, m + 1);
    assert UpdateStepAt(fs, m + 1) == UpdateStep(states[m]);
  }

  /** A backward sweep that has failed stays failed. */
  lemma {:induction false} BackwardSweepStops(fs: seq<LayerState>, lossDeriv: Vector, m: nat, m': nat)
    requires m <= m' <= |fs| && BackwardSweep(fs, lossDeriv, m).outcome.Fail?
    ensures BackwardSweep(fs, lossDeriv, m') == BackwardSweep(fs, lossDeriv, m)
    decreases m'
  {
    if m' > m {
      BackwardSweepStops(fs, lossDeriv, m, m' - 1);
    }
  }

  /** An update sweep that has failed stays failed. */
  lemma {:induction false} UpdateSweepStops(fs: seq<LayerState>, m: nat, m': nat)
    requires m <= m' <= |fs| && UpdateSweep(fs, m).outcome.Fail?
    ensures UpdateSweep(fs, m') == UpdateSweep(fs, m)
    decreases m'
  {
    if m' > m {
      UpdateSweepStops(fs, m, m' - 1);
    }
  }

  /** One step of a successful forward sweep: the sweep over m - 1 layers
      succeeded, layer m - 1 then ran on its output and succeeded, and the
      earlier layers are as that shorter sweep left them. */
  lemma ForwardSweepLastStep(fs: seq<LayerState>, x: Matrix, m: nat)
    requires 0 < m <= |fs| && ForwardSweep(fs, x, m).outcome.Pass?
    ensures var p := ForwardSweep(fs, x, m - 1);
      var r := ForwardSweep(fs, x, m);
      && p.outcome.Pass?
      && Forward(fs[m - 1], p.out) == Step(Pass, r.states[m - 1])
      && r.out == r.states[m - 1].outputs
      && r.states[..m - 1] == p.states[..m - 1]
  {
    ForwardSweepKeeps(fs, x, m - 1, m - 1);
    assert ForwardSweep(fs, x, m) == ForwardSweepTo(fs, x, m);
  }

  /** In a successful forward sweep over m layers, layer k < m ran on its
      chained input (the network input for layer 0, the outputs of layer
      k - 1 otherwise) and succeeded. */
  lemma {:induction false} ForwardSweepRan(fs: seq<LayerState>, x: Matrix, m: nat, k: nat)
    requires k < m <= |fs| && ForwardSweep(fs, x, m).outcome.Pass?
    ensures var r := ForwardSweep(fs, x, m);
      Forward(fs[k], LayerInput(x, r.states, k)) == Step(Pass, r.states[k])
  {
    var p := ForwardSweep(fs, x, m - 1);
    var r := ForwardSweep(fs, x, m);
    ForwardSweepLastStep(fs, x, m);
    if k < m - 1 {
      ForwardSweepRan(fs, x, m - 1, k);
      assert r.states[k] == p.states[..m - 1][k] == p.states[k];
      if k > 0 {
        assert r.states[k - 1] == p.states[..m - 1][k - 1] == p.states[k - 1];
      }
    } else if k > 0 {
      ForwardSweepOutput(fs, x, m - 1);
      assert r.states[k - 1] == p.states[..m - 1][k - 1] == p.states[k - 1];
    }
  }

  /** The result of a successful forward sweep over m layers is the input of
      a layer m would receive: the network input when m is 0, the outputs of
      layer m - 1 otherwise, with one row per input row and one column per
      output of that layer. */
  lemma {:induction false} ForwardSweepOutput(fs: seq<LayerState>, x: Matrix, m: nat)
    requires m <= |fs| && ForwardSweep(fs, x, m).outcome.Pass?
    ensures var r := ForwardSweep(fs, x, m);
      && r.out == LayerInput(x, r.states, m)
      && r.out.rows == x.rows
      && (m > 0 ==> r.out.cols == fs[m - 1].outputSize)
  {
    if m > 0 {
      ForwardSweepLastStep(fs, x, m);
      ForwardSweepOutput(fs, x, m - 1);
    }
  }

  /** One step of a successful backward sweep: the sweep over the last
      m - 1 layers succeeded, layer |fs| - m then ran on the signal it
      receives and succeeded, and the later layers are as that shorter sweep
      left them. */
  lemma BackwardSweepLastStep(fs: seq<LayerState>, lossDeriv: Vector, m: nat)
    requires 0 < m <= |fs| && BackwardSweep(fs, lossDeriv, m).outcome.Pass?
    ensures var p := BackwardSweep(fs, lossDeriv, m - 1);
      var r := BackwardSweep(fs, lossDeriv, m);
      var j := |fs| - m;
      && p.outcome.Pass?
      && BackwardStep(fs[j], Upstream(p.states, lossDeriv, j)) == Step(Pass, r.states[j])
      && r.states[j + 1..] == p.states[j + 1..]
  {
    BackwardSweepKeeps(fs, lossDeriv, m - 1, |fs| - m);
    assert BackwardSweep(fs, lossDeriv, m) == BackwardSweepTo(fs, lossDeriv, m);
  }

  /** In a successful backward sweep over the last m layers, each of them
      ran its backward pass on the signal it receives (the loss derivative
      for the last layer, the projection of its downstream neighbour's error
      otherwise) and succeeded. */
  lemma {:induction false} BackwardSweepRan(fs: seq<LayerState>, lossDeriv: Vector, m: nat, k: nat)
    requires |fs| - m <= k < |fs| && m <= |fs| && BackwardSweep(fs, lossDeriv, m).outcome.Pass?
    ensures var r := BackwardSweep(fs, lossDeriv, m);
      BackwardStep(fs[k], Upstream(r.states, lossDeriv, k)) == Step(Pass, r.states[k])
  {
    var p := BackwardSweep(fs, lossDeriv, m - 1);
    var r := BackwardSweep(fs, lossDeriv, m);
    var j := |fs| - m;
    BackwardSweepLastStep(fs, lossDeriv, m);
    if k > j {
      BackwardSweepRan(fs, lossDeriv, m - 1, k);
      assert r.states[k] == r.states[j + 1..][k - j - 1] == p.states[k];
    }
    if k + 1 < |fs| {
      assert r.states[k + 1] == r.states[j + 1..][k - j] == p.states[k + 1];
    }
    assert Upstream(r.states, lossDeriv, k) == Upstream(p.states, lossDeriv, k);
  }

  /** One step of a successful update sweep. */
  lemma UpdateSweepLastStep(fs: seq<LayerState>, m: nat)
    requires 0 < m <= |fs| && UpdateSweep(fs, m).outcome.Pass?
    ensures var p := UpdateSweep(fs, m - 1);
      var r := UpdateSweep(fs, m);
      && p.outcome.Pass?
      && UpdateStep(fs[m - 1]) == Step(Pass, r.states[m - 1])
      && r.states[..m - 1] == p.states[..m - 1]
  {
    UpdateSweepKeeps(fs, m - 1, m - 1);
    assert UpdateSweep(fs, m) == UpdateSweepTo(fs, m);
  }

  /** In a successful update sweep over the first m layers, each of them
      ran its update and succeeded. */
  lemma {:induction false} UpdateSweepRan(fs: seq<LayerState>, m: nat, k: nat)
    requires k < m <= |fs| && UpdateSweep(fs, m).outcome.Pass?
    ensures UpdateStep(fs[k]) == Step(Pass, UpdateSweep(fs, m).states[k])
  {
    var p := UpdateSweep(fs, m - 1);
    var r := UpdateSweep(fs, m);
    UpdateSweepLastStep(fs, m);
    if k < m - 1 {
      UpdateSweepRan(fs, m - 1, k);
      assert r.states[k] == r.states[..m - 1][k] == p.states[k];
    }
  }

  /** The backward sweep changes only the local errors and the gradients of
      the layers: weights, updates and everything else stay as they were,
      whether or not the sweep succeeds. */
  lemma {:induction false} BackwardSweepKeepsWeights(fs: seq<LayerState>, lossDeriv: Vector, m: nat, k: nat)
    requires m <= |fs| && k < |fs|
    ensures var st := BackwardSweep(fs, lossDeriv, m).states[k];
      st == fs[k].(err := st.err, gradient := st.gradient)
  {
    if m > 0 {
      var p := BackwardSweep(fs, lossDeriv, m - 1);
      var j := |fs| - m;
      BackwardSweepKeepsWeights(fs, lossDeriv, m - 1, k);
      assert BackwardSweep(fs, lossDeriv, m) == BackwardSweepTo(fs, lossDeriv, m);
      assert BackwardStepAt(fs, lossDeriv, m) == BackwardStep(p.states[j], Upstream(p.states, lossDeriv, j));
    }
  }

  /** What learning does with the backward pass: if it fails, the network is
      left as it was, with no loss recorded, and every layer keeps its
      weights and its update; if learning succeeds, the loss is appended to
      the history, the network gradient is the first layer's gradient, and
      every layer is the momentum update of its state after the backward
      pass, so the update consumes the gradients that pass computed. */
  lemma LearnStepUpdatesBackwardStates(n: NetState, ls: seq<LayerState>)
    requires WellShaped(n, ls)
    ensures var b := BackwardNet(n, ls);
      var r := LearnStep(n, ls);
      && (b.outcome.Fail? ==>
            && r.outcome == b.outcome && r.net == n
            && forall k :: 0 <= k < |ls| ==>
                 r.layers[k].weights == ls[k].weights && r.layers[k].weightUpdate == ls[k].weightUpdate)
      && (r.outcome.Pass? ==>
            && b.outcome.Pass?
            && r.net == n.(gradient := b.layers[0].gradient, trainingLoss := n.trainingLoss + [n.scalarLoss])
            && forall k :: 0 <= k < |ls| ==> UpdateStep(b.layers[k]) == Step(Pass, r.layers[k]))
  {
    var b := BackwardNet(n, ls);
    if b.outcome.Fail? {
      forall k | 0 <= k < |ls|
        ensures b.layers[k].weights == ls[k].weights && b.layers[k].weightUpdate == ls[k].weightUpdate
      {
        BackwardSweepKeepsWeights(ls, n.lossDeriv, |ls|, k);
      }
    } else if LearnStep(n, ls).outcome.Pass? {
      forall k | 0 <= k < |ls| ensures UpdateStep(b.layers[k]) == Step(Pass, LearnStep(n, ls).layers[k]) {
        UpdateSweepRan(b.layers, |b.layers|, k);
      }
    }
  }

  /** A successful backward pass runs every layer's backward pass on the
      signal it receives, last layer first, and leaves the first layer's
      weight gradient as the network gradient. */
  lemma BackwardNetChains(n: NetState, ls: seq<LayerState>)
    requires WellShaped(n, ls) && BackwardNet(n, ls).outcome.Pass?
    ensures var r := BackwardNet(n, ls);
      && r.net.gradient == r.layers[0].gradient
      && forall k :: 0 <= k < |ls| ==>
           BackwardStep(ls[k], Upstream(r.layers, n.lossDeriv, k)) == Step(Pass, r.layers[k])
  {
    var b := BackwardSweep(ls, n.lossDeriv, |ls|);
    forall k | 0 <= k < |ls|
      ensures BackwardStep(ls[k], Upstream(b.states, n.lossDeriv, k)) == Step(Pass, b.states[k])
    {
      BackwardSweepRan(ls, n.lossDeriv, |ls|, k);
    }
  }

  /** A successful prediction runs layer 0 on the (possibly new) network
      input and each later layer on its predecessor's outputs. */
  lemma PredictChainsLayers(n: NetState, ls: seq<LayerState>, input: Option<Matrix>, t: Option<Vector>)
    requires WellShaped(n, ls) && PredictStep(n, ls, input, t).outcome.Pass?
    ensures var r := PredictStep(n, ls, input, t);
      var x := r.net.inputs;
      && x == (if input.Some? then input.value else n.inputs)
      && r.net.target == (if t.Some? then t.value else n.target)
      && forall k :: 0 <= k < |ls| ==> Forward(ls[k], LayerInput(x, r.layers, k)) == Step(Pass, r.layers[k])
  {
    var b := PrepareStep(n, ls, input, t);
    var sweep := ForwardSweep(ls, b.net.inputs, |ls|);
    forall k | 0 <= k < |ls|
      ensures Forward(ls[k], LayerInput(b.net.inputs, sweep.states, k)) == Step(Pass, sweep.states[k])
    {
      ForwardSweepRan(ls, b.net.inputs, |ls|, k);
    }
  }

  /** After a successful prediction the network output is the last layer's
      single output column, one entry per input row; the residual is output
      minus target, the loss is the L2 loss and the loss derivative the L2
      derivative of output against target. */
  lemma PredictRecordsLoss(n: NetState, ls: seq<LayerState>, input: Option<Matrix>, t: Option<Vector>)
    requires WellShaped(n, ls) && PredictStep(n, ls, input, t).outcome.Pass?
    ensures var r := PredictStep(n, ls, input, t);
      && |r.net.outputs| == r.net.inputs.rows
      && ToVector(r.layers[|ls| - 1].outputs) == Ok(r.net.outputs)
      && |r.net.target| == |r.net.outputs|
      && r.net.resid == VecSub(r.net.outputs, r.net.target)
      && r.net.scalarLoss == VectorLoss(L2, r.net.outputs, r.net.target)
      && r.net.lossDeriv == VectorLossDerivative(L2, r.net.outputs, r.net.target)
  {
    var b := PrepareStep(n, ls, input, t);
    ForwardSweepOutput(ls, b.net.inputs, |ls|);
  }

  /** A training round appends at most one entry, a loss and so never
      negative, to the loss history and keeps the earlier entries; a
      successful round appends exactly one, the loss it computed. */
  lemma RoundRecordsLoss(n: NetState, ls: seq<LayerState>, input: Option<Matrix>, t: Option<Vector>)
    requires WellShaped(n, ls)
    ensures var r := RoundStep(n, ls, input, t);
      && |n.trainingLoss| <= |r.net.trainingLoss| <= |n.trainingLoss| + 1
      && r.net.trainingLoss[..|n.trainingLoss|] == n.trainingLoss
      && (forall k :: |n.trainingLoss| <= k < |r.net.trainingLoss| ==> r.net.trainingLoss[k] >= 0.0)
      && (r.outcome.Pass? ==> r.net.trainingLoss == n.trainingLoss + [r.net.scalarLoss])
  {
  }

  /** Whether training after `done` rounds runs another one: the first
      always, a later one below the iteration limit and above the
      tolerance. */
  predicate RunsRound(n: NetState, stopTol: real, maxIter: nat, done: nat) {
    done == 0 || (done < maxIter && AboveTolerance(n.gradient, stopTol))
  }

  /** When training runs another round, it continues from that round unless
      the round failed. */
  lemma TrainFromRound(n: NetState, ls: seq<LayerState>, stopTol: real, maxIter: nat, done: nat,
                       input: Option<Matrix>, t: Option<Vector>)
    requires WellShaped(n, ls) && RunsRound(n, stopTol, maxIter, done)
    ensures var s := RoundStep(n, ls, input, t);
      TrainFrom(n, ls, stopTol, maxIter, done, input, t)
        == if s.outcome.Fail? then Training(s.outcome, s.net, s.layers, done, false)
           else TrainFrom(s.net, s.layers, stopTol, maxIter, done + 1, None, None)
  {
    assert TrainFrom(n, ls, stopTol, maxIter, done, input, t) == TrainChecked(n, ls, stopTol, maxIter, done, input, t);
    assert TrainChecked(n, ls, stopTol, maxIter, done, input, t) == TrainRound(n, ls, stopTol, maxIter, done, input, t);
  }

  /** When training runs another round, it continues from that round,
      returned as a value with what the training properties need of it: the
      network stays well shaped and the round appends at most one
      non-negative entry to the loss history, exactly the current loss when
      it succeeds. */
  lemma TrainFromNext(n: NetState, ls: seq<LayerState>, stopTol: real, maxIter: nat, done: nat,
                      input: Option<Matrix>, t: Option<Vector>) returns (s: NetStep)
    requires WellShaped(n, ls) && RunsRound(n, stopTol, maxIter, done)
    ensures WellShaped(s.net, s.layers)
    ensures |n.trainingLoss| <= |s.net.trainingLoss| <= |n.trainingLoss| + 1
    ensures s.net.trainingLoss[..|n.trainingLoss|] == n.trainingLoss
    ensures forall k :: |n.trainingLoss| <= k < |s.net.trainingLoss| ==> s.net.trainingLoss[k] >= 0.0
    ensures s.outcome.Pass? ==> s.net.trainingLoss == n.trainingLoss + [s.net.scalarLoss]
    ensures TrainFrom(n, ls, stopTol, maxIter, done, input, t)
        == if s.outcome.Fail? then Training(s.outcome, s.net, s.layers, done, false)
           else TrainFrom(s.net, s.layers, stopTol, maxIter, done + 1, None, None)
  {
    s := RoundStep(n, ls, input, t);
    RoundRecordsLoss(n, ls, input, t);
    TrainFromRound(n, ls, stopTol, maxIter, done, input, t);
  }

  /** When training runs no further round, it stops where it is. */
  lemma TrainFromStops(n: NetState, ls: seq<LayerState>, stopTol: real, maxIter: nat, done: nat,
                       input: Option<Matrix>, t: Option<Vector>)
    requires WellShaped(n, ls) && !RunsRound(n, stopTol, maxIter, done)
    ensures TrainFrom(n, ls, stopTol, maxIter, done, input, t) == Training(Pass, n, ls, done, false)
  {
    if done < maxIter {
      assert TrainFrom(n, ls, stopTol, maxIter, done, input, t) == TrainChecked(n, ls, stopTol, maxIter, done, input, t);
    }
  }

  /** The training rounds after the first `done` never undo a completed
      round; they never run past `maxIter`, except for the first round,
      which always runs. Training that does not fail has run the first
      round, stops only at the iteration limit or within the tolerance, and
      leaves the network as it is when it runs no round. No warning is
      decided at this level. */
  lemma {:induction false} TrainFromRounds(n: NetState, ls: seq<LayerState>, stopTol: real, maxIter: nat, done: nat,
                                           input: Option<Matrix>, t: Option<Vector>)
    requires WellShaped(n, ls)
    ensures var r := TrainFrom(n, ls, stopTol, maxIter, done, input, t);
      && WellShaped(r.net, r.layers) && !r.warned
      && done <= r.rounds <= Max(maxIter, if done == 0 then 1 else done)
      && (r.outcome.Pass? ==> 1 <= r.rounds)
      && (r.outcome.Pass? ==> r.rounds >= maxIter || !AboveTolerance(r.net.gradient, stopTol))
      && (r.outcome.Pass? && r.rounds == done ==> r.net == n)
    decreases maxIter - done
  {
    if RunsRound(n, stopTol, maxIter, done) {
      var s := TrainFromNext(n, ls, stopTol, maxIter, done, input, t);
      if s.outcome.Pass? {
        TrainFromRounds(s.net, s.layers, stopTol, maxIter, done + 1, None, None);
      }
    } else {
      TrainFromStops(n, ls, stopTol, maxIter, done, input, t);
    }
  }

  /** The training rounds after the first `done` append exactly one entry
      to the loss history per completed round, and a failed round at most
      one; the earlier entries are kept and every new entry, being a loss,
      is non-negative; when training that does not fail ran a round, its
      last entry is the current loss. */
  lemma {:induction false} TrainFromLosses(n: NetState, ls: seq<LayerState>, stopTol: real, maxIter: nat, done: nat,
                                           input: Option<Matrix>, t: Option<Vector>)
    requires WellShaped(n, ls)
    ensures var r := TrainFrom(n, ls, stopTol, maxIter, done, input, t);
      var before := |n.trainingLoss|;
      && r.rounds >= done
      && (r.outcome.Pass? ==> |r.net.trainingLoss| == before + (r.rounds - done))
      && (r.outcome.Fail? ==> before + (r.rounds - done) <= |r.net.trainingLoss| <= before + (r.rounds - done) + 1)
      && r.net.trainingLoss[..before] == n.trainingLoss
      && (forall k :: before <= k < |r.net.trainingLoss| ==> r.net.trainingLoss[k] >= 0.0)
      && (r.outcome.Pass? && r.rounds > done ==> r.net.trainingLoss[|r.net.trainingLoss| - 1] == r.net.scalarLoss)
    decreases maxIter - done
  {
    if RunsRound(n, stopTol, maxIter, done) {
      var s := TrainFromNext(n, ls, stopTol, maxIter, done, input, t);
      if s.outcome.Pass? {
        TrainFromLosses(s.net, s.layers, stopTol, maxIter, done + 1, None, None);
        TrainFromRounds(s.net, s.layers, stopTol, maxIter, done + 1, None, None);
        var r := TrainFrom(s.net, s.layers, stopTol, maxIter, done + 1, None, None);
        assert r.net.trainingLoss[..|n.trainingLoss|] == r.net.trainingLoss[..|s.net.trainingLoss|][..|n.trainingLoss|];
      }
    } else {
      TrainFromStops(n, ls, stopTol, maxIter, done, input, t);
    }
  }

  /** Training: the first round always runs; a training that does not fail
      completes between 1 and max(1, maxIter) rounds (so exactly one when
      maxIter is at most 1) and stops only at the iteration limit or within
      the tolerance; the warning fires exactly when a training that did not
      fail ends at the iteration limit and printing is not suppressed. */
  lemma TrainStepRounds(n: NetState, ls: seq<LayerState>, stopTol: real, maxIter: nat,
                        input: Option<Matrix>, t: Option<Vector>, noprint: bool)
    requires WellShaped(n, ls)
    ensures var r := TrainStep(n, ls, stopTol, maxIter, input, t, noprint);
      && WellShaped(r.net, r.layers)
      && r.rounds <= Max(1, maxIter)
      && (r.outcome.Pass? ==> 1 <= r.rounds)
      && (r.outcome.Pass? && maxIter <= 1 ==> r.rounds == 1)
      && (r.outcome.Pass? ==> r.rounds >= maxIter || !AboveTolerance(r.net.gradient, stopTol))
      && (r.warned <==> r.outcome.Pass? && r.rounds >= maxIter && !noprint)
  {
    TrainFromRounds(n, ls, stopTol, maxIter, 0, input, t);
  }

  /** Training appends one loss per completed round to the loss history
      (a failed round at most one more), keeps the earlier entries, appends
      only non-negative entries and, when it does not fail, ends with the
      current loss. */
  lemma TrainStepLosses(n: NetState, ls: seq<LayerState>, stopTol: real, maxIter: nat,
                        input: Option<Matrix>, t: Option<Vector>, noprint: bool)
    requires WellShaped(n, ls)
    ensures var r := TrainStep(n, ls, stopTol, maxIter, input, t, noprint);
      var before := |n.trainingLoss|;
      && (r.outcome.Pass? ==> |r.net.trainingLoss| == before + r.rounds)
      && (r.outcome.Pass? ==> |r.net.trainingLoss| > before
                              && r.net.trainingLoss[|r.net.trainingLoss| - 1] == r.net.scalarLoss)
      && (r.outcome.Fail? ==> before + r.rounds <= |r.net.trainingLoss| <= before + r.rounds + 1)
      && r.net.trainingLoss[..before] == n.trainingLoss
      && (forall k :: before <= k < |r.net.trainingLoss| ==> r.net.trainingLoss[k] >= 0.0)
  {
    TrainFromRounds(n, ls, stopTol, maxIter, 0, input, t);
    TrainFromLosses(n, ls, stopTol, maxIter, 0, input, t);
  }

  // ---------------------------------------------------------------------
  // The network object

  class Network {
    var inputShape: Shape
    var inputs: Matrix
    var numOutputs: int
    var outputs: Vector
    var target: Vector
    var layers: seq<Layer>
    var layerInputShapes: seq<Shape>
    var loss: Option<Loss>
    var lossDeriv: Vector
    var scalarLoss: real
    var trainingLoss: seq<real>
    var resid: Vector
    var gradient: Matrix

    /** At least one layer, one recorded input shape per layer, and no layer
        held twice. */
    ghost predicate Valid()
      reads this`layers, this`layerInputShapes
    {
      && |layers| >= 1
      && |layerInputShapes| == |layers|
      && forall i, j :: 0 <= i < j < |layers| ==> layers[i] != layers[j]
    }

    ghost function Fields(): NetState
      reads this
    {
      NetState(inputShape, inputs, numOutputs, outputs, target, layerInputShapes, loss, lossDeriv,
               scalarLoss, trainingLoss, resid, gradient)
    }

    ghost function States(): (r: seq<LayerState>)
      reads this`layers, layers
      ensures |r| == |layers| && forall k :: 0 <= k < |layers| ==> r[k] == layers[k].State()
    {
      var ls := layers;
      seq(|ls|, k requires 0 <= k < |ls| reads ls => ls[k].State())
    }

    /** Copies of the given layers, in order. */
    static method CopyLayers(ls: seq<Layer>) returns (copies: seq<Layer>)
      ensures |copies| == |ls|
      ensures forall k :: 0 <= k < |ls| ==> fresh(copies[k]) && copies[k].State() == ls[k].State()
      ensures forall i, j :: 0 <= i < j < |copies| ==> copies[i] != copies[j]
    {
      copies := [];
      for i := 0 to |ls|
        invariant |copies| == i
        invariant forall k :: 0 <= k < i ==> fresh(copies[k]) && copies[k].State() == ls[k].State()
        invariant forall j, k :: 0 <= j < k < i ==> copies[j] != copies[k]
      {
        var c := new Layer.Copy(ls[i]);
        copies := copies + [c];
      }
    }

    /** A network over copies of the given layers, without a loss function:
        the recorded shapes are the layers' input shapes, the network input
        shape is the first of them and the output count is the last layer's
        output size. */
    constructor FromLayers(ls: seq<Layer>)
      requires |ls| >= 1
      ensures Valid()
      ensures |layers| == |ls| && forall k :: 0 <= k < |ls| ==> fresh(layers[k]) && layers[k].State() == old(ls[k].State())
      ensures layerInputShapes == seq(|ls|, k requires 0 <= k < |ls| reads ls => ls[k].inputShape)
      ensures inputShape == ls[0].inputShape && numOutputs == ls[|ls| - 1].outputSize
      ensures loss == None && trainingLoss == []
    {
      var copies := CopyLayers(ls);
      layers := copies;
      layerInputShapes := seq(|ls|, k requires 0 <= k < |ls| reads ls => ls[k].inputShape);
      inputShape := ls[0].inputShape;
      numOutputs := ls[|ls| - 1].outputSize;
      loss := None;
      inputs, gradient := Zero(0, 0), Zero(0, 0);
      outputs, target, lossDeriv, resid := [], [], [], [];
      scalarLoss, trainingLoss := 0.0, [];
    }

    /** A network over copies of the given layers, all switched to one
        activation, with the named loss. */
    constructor WithActivation(activation: Activation, lossName: Loss, ls: seq<Layer>)
      requires |ls| >= 1
      ensures Valid()
      ensures |layers| == |ls| && forall k :: 0 <= k < |ls| ==>
        fresh(layers[k]) && layers[k].State() == old(ls[k].State()).(activation := activation)
      ensures layerInputShapes == seq(|ls|, k requires 0 <= k < |ls| reads ls => ls[k].inputShape)
      ensures inputShape == ls[0].inputShape && numOutputs == ls[|ls| - 1].outputSize
      ensures loss == Some(lossName) && trainingLoss == []
    {
      var copies := CopyLayers(ls);
      layers := copies;
      layerInputShapes := seq(|ls|, k requires 0 <= k < |ls| reads ls => ls[k].inputShape);
      inputShape := ls[0].inputShape;
      numOutputs := ls[|ls| - 1].outputSize;
      loss := Some(lossName);
      inputs, gradient := Zero(0, 0), Zero(0, 0);
      outputs, target, lossDeriv, resid := [], [], [], [];
      scalarLoss, trainingLoss := 0.0, [];
      new;
      SetActivation(activation);
    }

    /** A network built from a list of input shapes: layer k expects
        shapes[k] and has as many outputs as that shape has rows; `inits`
        stand for the random initial weights. */
    constructor FromShapes(activation: Activation, lossName: Loss, shapes: seq<Shape>, inits: seq<Matrix>, lib: MathLib)
      requires |shapes| >= 1 && |inits| == |shapes|
      requires forall k :: 0 <= k < |shapes| ==>
        inits[k].rows == shapes[k].cols + 1 && inits[k].cols == shapes[k].rows
      ensures Valid() && layerInputShapes == shapes
      ensures |layers| == |shapes| && forall k :: 0 <= k < |shapes| ==>
        && fresh(layers[k])
        && layers[k].inputShape == shapes[k] && layers[k].outputSize == shapes[k].rows
        && layers[k].activation == activation && layers[k].weights == inits[k]
      ensures inputShape == shapes[0] && numOutputs == shapes[|shapes| - 1].rows
      ensures loss == Some(lossName) && trainingLoss == []
    {
      var built: seq<Layer> := [];
      for i := 0 to |shapes|
        invariant |built| == i
        invariant forall k :: 0 <= k < i ==>
          && fresh(built[k])
          && built[k].inputShape == shapes[k] && built[k].outputSize == shapes[k].rows
          && built[k].activation == activation && built[k].weights == inits[k]
        invariant forall j, k :: 0 <= j < k < i ==> built[j] != built[k]
      {
        var l := new Layer(shapes[i], shapes[i].rows, activation, lib, inits[i]);
        built := built + [l];
      }
      layers := built;
      layerInputShapes := shapes;
      numOutputs := built[|built| - 1].outputSize;
      inputShape := shapes[0];
      loss := Some(lossName);
      inputs, gradient := Zero(0, 0), Zero(0, 0);
      outputs, target, lossDeriv, resid := [], [], [], [];
      scalarLoss, trainingLoss := 0.0, [];
    }

    method SetInputs(x: Matrix, override: bool) returns (res: Outcome)
      requires Valid()
      modifies this, layers
      ensures Valid() && layers == old(layers)
      ensures NetStep(res, Fields(), States()) == SetInputsStep(old(Fields()), old(States()), x, override)
    {
      if !override {
        if x.rows != inputShape.rows {
          return Fail(InputRowsMismatch);
        } else if x.cols != inputShape.cols {
          return Fail(InputColsMismatch);
        }
        inputs := x;
        return Pass;
      }
      res := AdoptInputs(x);
    }

    /** Setting the network input with override: the input and its shape
        are stored, the first layer adopts the input and, if it accepts it,
        the first recorded layer shape becomes the input's shape. */
    method AdoptInputs(x: Matrix) returns (res: Outcome)
      requires Valid()
      modifies this, layers[0]
      ensures Valid() && layers == old(layers)
      ensures NetStep(res, Fields(), States()) == SetInputsStep(old(Fields()), old(States()), x, true)
    {
      ghost var goal := SetInputsStep(Fields(), States(), x, true);
      inputs := x;
      inputShape := Shape(x.rows, x.cols);
      res := FirstLayerInputs(x);
      assert res == goal.outcome && States() == goal.layers;
      if res.Fail? {
        return;
      }
      layerInputShapes := layerInputShapes[0 := inputShape];
    }

    /** The first layer adopts `x`. */
    method FirstLayerInputs(x: Matrix) returns (res: Outcome)
      requires Valid()
      modifies layers[0]
      ensures var step := WithInputs(old(States())[0], x, true);
        States() == old(States())[0 := step.state] && res == step.outcome
    {
      ghost var s := States();
      assert s[0] == layers[0].State();
      res := layers[0].SetInputs(x, true);
      assert States() == s[0 := layers[0].State()];
    }

    method SetTarget(t: Vector, override: bool) returns (res: Outcome)
      requires Valid()
      modifies this, layers
      ensures Valid() && layers == old(layers)
      ensures NetStep(res, Fields(), States()) == SetTargetStep(old(Fields()), old(States()), t, override)
    {
      if |t| != numOutputs {
        if override {
          res := AdoptTarget(t);
        } else {
          return Fail(TargetLengthMismatch);
        }
      } else {
        target := t;
        res := Pass;
      }
    }

    /** Setting a target of a new length with override: the output count
        becomes 1, the last layer takes that output size and its recorded
        input shape again, and then the target is stored. */
    method AdoptTarget(t: Vector) returns (res: Outcome)
      requires Valid() && |t| != numOutputs
      modifies this, layers[|layers| - 1]
      ensures Valid() && layers == old(layers)
      ensures NetStep(res, Fields(), States()) == SetTargetStep(old(Fields()), old(States()), t, true)
    {
      ghost var goal := SetTargetStep(Fields(), States(), t, true);
      ghost var s := States();
      var last := |layers| - 1;
      ghost var w := WithInputShape(s[last].(outputSize := 1), layerInputShapes[last], false, s[last].weights);
      assert goal.layers == s[last := w.state] && goal.outcome == w.outcome;
      numOutputs := 1;
      res := LastLayerResized(1);
      assert res == w.outcome && States() == s[last := w.state];
      if res.Fail? {
        return;
      }
      target := t;
    }

    /** The last layer takes the given output size and its recorded input
        shape again, without new weights. */
    method LastLayerResized(size: int) returns (res: Outcome)
      requires Valid()
      modifies layers[|layers| - 1]
      ensures var last := |layers| - 1;
        var step := WithInputShape(old(States())[last].(outputSize := size), layerInputShapes[last], false,
                                   old(States())[last].weights);
        States() == old(States())[last := step.state] && res == step.outcome
    {
      var last := |layers| - 1;
      ghost var s := States();
      assert s[last] == layers[last].State();
      layers[last].SetOutputSize(size);
      res := layers[last].SetInputShape(layerInputShapes[last], false, layers[last].weights);
      assert States() == s[last := layers[last].State()];
    }

    method SetWeights(ws: seq<Matrix>) returns (res: Outcome)
      requires Valid()
      modifies this, layers
      ensures Valid() && layers == old(layers) && Fields() == old(Fields())
      ensures res.Fail? <==> |ws| != |layers|
      ensures res.Fail? ==> res.error == WeightCountMismatch && States() == old(States())
      ensures res.Pass? ==> forall k :: 0 <= k < |layers| ==> layers[k].State() == old(States())[k].(weights := ws[k])
    {
      if |ws| != |layers| {
        return Fail(WeightCountMismatch);
      }
      for i := 0 to |layers|
        invariant Valid() && layers == old(layers) && Fields() == old(Fields())
        invariant forall k :: 0 <= k < i ==> layers[k].State() == old(States())[k].(weights := ws[k])
        invariant forall k :: i <= k < |layers| ==> layers[k].State() == old(States())[k]
      {
        layers[i].SetWeights(ws[i]);
      }
      res := Pass;
    }

    method SetUpdateParams(lr: real, mom: real)
      requires Valid()
      modifies this, layers
      ensures Valid() && layers == old(layers) && Fields() == old(Fields())
      ensures States() == WithUpdateParams(old(States()), lr, mom)
    {
      for i := 0 to |layers|
        invariant Valid() && layers == old(layers) && Fields() == old(Fields())
        invariant forall k :: 0 <= k < i ==>
          layers[k].State() == old(States())[k].(learningRate := lr, momentum := mom)
        invariant forall k :: i <= k < |layers| ==> layers[k].State() == old(States())[k]
      {
        layers[i].SetUpdateParams(lr, mom);
      }
    }

    /** The same activation for every layer. */
    method SetActivation(a: Activation)
      requires Valid()
      modifies this, layers
      ensures Valid() && layers == old(layers) && Fields() == old(Fields())
      ensures forall k :: 0 <= k < |layers| ==> layers[k].State() == old(States())[k].(activation := a)
    {
      for i := 0 to |layers|
        invariant Valid() && layers == old(layers) && Fields() == old(Fields())
        invariant forall k :: 0 <= k < i ==> layers[k].State() == old(States())[k].(activation := a)
        invariant forall k :: i <= k < |layers| ==> layers[k].State() == old(States())[k]
      {
        layers[i].SetActivation(a);
      }
    }

    /** One activation per layer, in order. */
    method SetActivations(acts: seq<Activation>) returns (res: Outcome)
      requires Valid()
      modifies this, layers
      ensures Valid() && layers == old(layers) && Fields() == old(Fields())
      ensures res.Fail? <==> |acts| != |layers|
      ensures res.Fail? ==> res.error == ActivationCountMismatch && States() == old(States())
      ensures res.Pass? ==> forall k :: 0 <= k < |layers| ==> layers[k].State() == old(States())[k].(activation := acts[k])
    {
      if |acts| != |layers| {
        return Fail(ActivationCountMismatch);
      }
      for i := 0 to |layers|
        invariant Valid() && layers == old(layers) && Fields() == old(Fields())
        invariant forall k :: 0 <= k < i ==> layers[k].State() == old(States())[k].(activation := acts[k])
        invariant forall k :: i <= k < |layers| ==> layers[k].State() == old(States())[k]
      {
        layers[i].SetActivation(acts[i]);
      }
      res := Pass;
    }

    method SetLossFunc(l: Loss)
      modifies this
      ensures Fields() == old(Fields()).(loss := Some(l)) && layers == old(layers)
    {
      loss := Some(l);
    }

    /** The forward pass of layer `i` on `x`, the output of the sweep over
        the layers before it: the layer adopts `x`, then runs its forward
        pass on the inputs it stored; the sweep then covers layer `i` too. */
    method ForwardLayer(i: nat, x: Matrix, ghost fs: seq<LayerState>, ghost x0: Matrix) returns (res: Outcome)
      requires Valid() && i < |layers| == |fs|
      requires ForwardSweep(fs, x0, i) == Chain(Pass, States(), x)
      modifies layers[i]
      ensures |States()| == |fs|
      ensures ForwardSweep(fs, x0, i + 1) == Chain(res, States(), if res.Pass? then layers[i].outputs else x)
    {
      ghost var s := States();
      ForwardSweepNext(fs, x0, i, s, x);
      res := layers[i].SetInputs(x, true);
      if res.Fail? {
        assert States() == s[i := layers[i].State()];
        return;
      }
      res := layers[i].ForwardPassAgain();
      assert States() == s[i := layers[i].State()];
    }

    /** The forward sweep over all layers from the network input. */
    method ForwardLayers() returns (res: Outcome, layerOut: Matrix)
      requires Valid()
      modifies layers
      ensures Valid()
      ensures Chain(res, States(), layerOut) == ForwardSweep(old(States()), inputs, |layers|)
    {
      ghost var s0 := States();
      layerOut := inputs;
      res := Pass;
      for i := 0 to |layers|
        invariant Valid() && res == Pass && |States()| == |s0|
        invariant ForwardSweep(s0, inputs, i) == Chain(Pass, States(), layerOut)
      {
        res := ForwardLayer(i, layerOut, s0, inputs);
        if res.Fail? {
          ForwardSweepStops(s0, inputs, i + 1, |layers|);
          return;
        }
        layerOut := layers[i].outputs;
      }
    }

    /** The end of a prediction: output, residual, loss and loss derivative
        from the last layer's output. */
    method Finish(layerOut: Matrix) returns (res: Outcome)
      modifies this
      ensures layers == old(layers)
      ensures NetStep(res, Fields(), States()) == Conclude(old(Fields()), States(), layerOut)
    {
      var v := ToVector(layerOut);
      if v.Err? {
        return Fail(v.error);
      }
      outputs := v.value;
      if |outputs| != |target| {
        return Fail(DimensionMismatch);
      }
      resid := VecSub(outputs, target);
      if loss.None? {
        return Fail(MissingLossFunction);
      }
      scalarLoss := VectorLoss(loss.value, outputs, target);
      lossDeriv := VectorLossDerivative(loss.value, outputs, target);
      res := Pass;
    }

    /** The preamble of a prediction: the new input, then the new target,
        if given, neither with override. */
    method Prepare(input: Option<Matrix>, t: Option<Vector>) returns (res: Outcome)
      requires Valid()
      modifies this, layers
      ensures Valid() && layers == old(layers)
      ensures NetStep(res, Fields(), States()) == PrepareStep(old(Fields()), old(States()), input, t)
    {
      res := Pass;
      if input.Some? {
        res := SetInputs(input.value, false);
        if res.Fail? {
          return;
        }
      }
      if t.Some? {
        res := SetTarget(t.value, false);
      }
    }

    method Predict(input: Option<Matrix>, t: Option<Vector>) returns (res: Outcome)
      requires Valid()
      modifies this, layers
      ensures Valid() && layers == old(layers)
      ensures NetStep(res, Fields(), States()) == PredictStep(old(Fields()), old(States()), input, t)
    {
      res := Prepare(input, t);
      if res.Fail? {
        return;
      }
      var layerOut;
      res, layerOut := ForwardLayers();
      if res.Fail? {
        return;
      }
      res := Finish(layerOut);
    }

    /** The prediction, returning the network output it stored. */
    method PredictVal(input: Option<Matrix>, t: Option<Vector>) returns (res: Outcome, out: Vector)
      requires Valid()
      modifies this, layers
      ensures Valid() && layers == old(layers)
      ensures NetStep(res, Fields(), States()) == PredictStep(old(Fields()), old(States()), input, t)
      ensures res.Pass? ==> out == outputs
    {
      res := Predict(input, t);
      out := outputs;
    }

    /** The backward pass of the last layer, the first of the network's
        backward sweep: it receives the loss derivative as a column. */
    method BackwardLastLayer(ghost fs: seq<LayerState>) returns (res: Outcome)
      requires Valid() && |layers| == |fs|
      requires BackwardSweep(fs, lossDeriv, 0) == Sweep(Pass, States())
      modifies layers[|layers| - 1]
      ensures |States()| == |fs|
      ensures BackwardSweep(fs, lossDeriv, 1) == Sweep(res, States())
    {
      ghost var s := States();
      var k := |layers| - 1;
      var column := AsColumn(lossDeriv);
      assert s[k] == layers[k].State();
      ghost var step := BackwardStep(s[k], Ok(column));
      BackwardSweepNext(fs, lossDeriv, 0, s, Ok(column));
      res := layers[k].BackwardFromLoss(column);
      assert Step(res, layers[k].State()) == step;
      assert States() == s[k := step.state];
    }

    /** The backward pass of layer `k`, not the last, within the network's
        backward sweep: it receives its downstream neighbour, whose error
        and weights it reads. */
    method BackwardInnerLayer(k: nat, ghost fs: seq<LayerState>) returns (res: Outcome)
      requires Valid() && k + 1 < |layers| == |fs|
      requires BackwardSweep(fs, lossDeriv, |layers| - 1 - k) == Sweep(Pass, States())
      modifies layers[k]
      ensures |States()| == |fs|
      ensures BackwardSweep(fs, lossDeriv, |layers| - k) == Sweep(res, States())
    {
      ghost var s := States();
      var up := Backpropagated(layers[k + 1].err, layers[k + 1].weights);
      assert s[k] == layers[k].State();
      ghost var step := BackwardStep(s[k], up);
      BackwardSweepNext(fs, lossDeriv, |layers| - 1 - k, s, up);
      res := layers[k].BackwardFromLayer(layers[k + 1]);
      assert Step(res, layers[k].State()) == step;
      assert States() == s[k := step.state];
    }

    /** Step `m` of the network's backward sweep: the backward pass of
        layer |layers| - 1 - m, the last layer first. */
    method BackwardLayer(m: nat, ghost fs: seq<LayerState>) returns (res: Outcome)
      requires Valid() && m < |layers| == |fs|
      requires BackwardSweep(fs, lossDeriv, m) == Sweep(Pass, States())
      modifies layers[|layers| - 1 - m]
      ensures |States()| == |fs|
      ensures BackwardSweep(fs, lossDeriv, m + 1) == Sweep(res, States())
    {
      if m == 0 {
        res := BackwardLastLayer(fs);
      } else {
        res := BackwardInnerLayer(|layers| - 1 - m, fs);
      }
    }

    /** The backward sweep over all layers, last to first. */
    method BackwardLayers() returns (res: Outcome)
      requires Valid()
      modifies layers
      ensures Valid()
      ensures Sweep(res, States()) == BackwardSweep(old(States()), lossDeriv, |layers|)
    {
      ghost var s0 := States();
      res := Pass;
      for m := 0 to |layers|
        invariant Valid() && res == Pass && |States()| == |s0|
        invariant BackwardSweep(s0, lossDeriv, m) == Sweep(Pass, States())
      {
        res := BackwardLayer(m, s0);
        if res.Fail? {
          BackwardSweepStops(s0, lossDeriv, m + 1, |layers|);
          return;
        }
      }
    }

    method BackwardPass() returns (res: Outcome)
      requires Valid()
      modifies this, layers
      ensures Valid() && layers == old(layers)
      ensures NetStep(res, Fields(), States()) == BackwardNet(old(Fields()), old(States()))
    {
      res := BackwardLayers();
      if res.Fail? {
        return;
      }
      gradient := layers[0].gradient;
    }

    /** The update of layer `i` within the network's update sweep. */
    method UpdateLayer(i: nat, ghost fs: seq<LayerState>) returns (res: Outcome)
      requires Valid() && i < |layers| == |fs|
      requires UpdateSweep(fs, i) == Sweep(Pass, States())
      modifies layers[i]
      ensures |States()| == |fs|
      ensures UpdateSweep(fs, i + 1) == Sweep(res, States())
    {
      ghost var s := States();
      UpdateSweepNext(fs, i, s);
      res := layers[i].UpdateWeights();
      assert States() == s[i := layers[i].State()];
    }

    method UpdateWeights() returns (res: Outcome)
      requires Valid()
      modifies this, layers
      ensures Valid() && layers == old(layers) && Fields() == old(Fields())
      ensures Sweep(res, States()) == UpdateSweep(old(States()), |layers|)
    {
      ghost var s0 := States();
      res := Pass;
      for i := 0 to |layers|
        invariant Valid() && layers == old(layers) && Fields() == old(Fields())
        invariant res == Pass && |States()| == |s0|
        invariant UpdateSweep(s0, i) == Sweep(Pass, States())
      {
        res := UpdateLayer(i, s0);
        if res.Fail? {
          UpdateSweepStops(s0, i + 1, |layers|);
          return;
        }
      }
    }

    /** Installs one learning rate and momentum in every layer, then updates. */
    method UpdateWeightsWith(lr: real, mom: real) returns (res: Outcome)
      requires Valid()
      modifies this, layers
      ensures Valid() && layers == old(layers) && Fields() == old(Fields())
      ensures Sweep(res, States()) == UpdateSweep(WithUpdateParams(old(States()), lr, mom), |layers|)
    {
      SetUpdateParams(lr, mom);
      res := UpdateWeights();
    }

    /** The backward pass, the recording of the loss and the update. */
    method Learn() returns (res: Outcome)
      requires Valid()
      modifies this, layers
      ensures Valid() && layers == old(layers)
      ensures NetStep(res, Fields(), States()) == LearnStep(old(Fields()), old(States()))
    {
      res := BackwardPass();
      if res.Fail? {
        return;
      }
      trainingLoss := trainingLoss + [scalarLoss];
      res := UpdateWeights();
    }

    /** One training round: the prediction and, if it succeeds, the backward
        pass, the recording of the loss and the update. */
    method Round(input: Option<Matrix>, t: Option<Vector>) returns (res: Outcome)
      requires Valid()
      modifies this, layers
      ensures Valid() && layers == old(layers)
      ensures NetStep(res, Fields(), States()) == RoundStep(old(Fields()), old(States()), input, t)
    {
      res := Predict(input, t);
      if res.Fail? {
        return;
      }
      res := Learn();
    }

    /** One round of training, when training after `done` rounds runs
        another: training after `done` rounds from here is the same as
        training after `done` + 1 rounds from the new state, unless the round
        failed, in which case training ends here. */
    method TrainAgain(input: Option<Matrix>, t: Option<Vector>, ghost stopTol: real, ghost maxIter: nat, ghost done: nat)
      returns (res: Outcome)
      requires Valid() && RunsRound(Fields(), stopTol, maxIter, done)
      modifies this, layers
      ensures Valid() && layers == old(layers)
      ensures res.Pass? ==> TrainFrom(Fields(), States(), stopTol, maxIter, done + 1, None, None)
                            == TrainFrom(old(Fields()), old(States()), stopTol, maxIter, done, input, t)
      ensures res.Fail? ==> Training(res, Fields(), States(), done, false)
                            == TrainFrom(old(Fields()), old(States()), stopTol, maxIter, done, input, t)
    {
      TrainFromRound(Fields(), States(), stopTol, maxIter, done, input, t);
      res := Round(input, t);
    }

    /** The further rounds of training, after `done` completed rounds (at
        least the first): another round runs while fewer than `maxIter`
        rounds have completed and the gradient exceeds the tolerance. */
    method TrainRest(stopTol: real, maxIter: nat, done: nat) returns (res: Outcome, numIter: nat)
      requires Valid() && done >= 1
      modifies this, layers
      ensures Valid() && layers == old(layers)
      ensures Training(res, Fields(), States(), numIter, false)
           == TrainFrom(old(Fields()), old(States()), stopTol, maxIter, done, None, None)
    {
      res := Pass;
      numIter := done;
      ghost var goal := TrainFrom(Fields(), States(), stopTol, maxIter, done, None, None);
      while numIter < maxIter && AboveTolerance(gradient, stopTol)
        invariant Valid() && layers == old(layers) && res == Pass && numIter >= 1
        invariant TrainFrom(Fields(), States(), stopTol, maxIter, numIter, None, None) == goal
        decreases maxIter - numIter
      {
        res := TrainAgain(None, None, stopTol, maxIter, numIter);
        if res.Fail? {
          return;
        }
        numIter := numIter + 1;
      }
      TrainFromStops(Fields(), States(), stopTol, maxIter, numIter, None, None);
    }

    /** Training: one unconditional round, with the given input and target,
        then the further rounds. Returns the number of completed rounds and
        whether the iteration limit warning fires. */
    method Train(stopTol: real, maxIter: nat, input: Option<Matrix>, t: Option<Vector>, noprint: bool)
      returns (res: Outcome, numIter: nat, warned: bool)
      requires Valid()
      modifies this, layers
      ensures Valid() && layers == old(layers)
      ensures Training(res, Fields(), States(), numIter, warned)
           == TrainStep(old(Fields()), old(States()), stopTol, maxIter, input, t, noprint)
    {
      ghost var goal := TrainFrom(Fields(), States(), stopTol, maxIter, 0, input, t);
      warned := false;
      numIter := 0;
      res := TrainAgain(input, t, stopTol, maxIter, 0);
      if res.Fail? {
        return;
      }
      res, numIter := TrainRest(stopTol, maxIter, 1);
      if res.Fail? {
        return;
      }
      warned := numIter >= maxIter && !noprint;
    }
  }
}
