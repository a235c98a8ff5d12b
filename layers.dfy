/** One fully connected layer: the input is augmented with a trailing column
    of ones (so the last row of the weights is the bias), multiplied by the
    weights and passed entrywise through the activation. The layer caches
    every intermediate matrix in its fields; the backward pass turns an
    error signal into a weight gradient, and the update rule is gradient
    descent with momentum.

    Two revisions of the layer exist side by side: the header revision
    (cached forward pass that ignores its argument, backward pass that keeps
    the bias column) and the out-of-line revision (forward pass that adopts
    its argument, backward pass that drops the bias column). The network
    uses the out-of-line revision; the header revision is kept as separate
    methods. */
module Layers {
  import opened Matrices
  import opened Activations
  import opened Outcomes
  import opened Losses

  /** (rows, cols) of the input matrix a layer expects. */
  datatype Shape = Shape(rows: int, cols: int)

  /** A snapshot of every field of a layer. */
  datatype LayerState = LayerState(
    lib: MathLib,
    inputShape: Shape,
    outputSize: int,
    activation: Activation,
    actVals: Matrix,
    weights: Matrix,
    weightUpdate: Matrix,
    gradient: Matrix,
    outputs: Matrix,
    inputs: Matrix,
    inputMat: Matrix,
    err: Matrix,
    jacobian: Matrix,
    learningRate: real,
    momentum: real)

  /** What an operation reports, and the state it leaves behind. */
  datatype Step = Step(outcome: Outcome, state: LayerState)

  /** The layer's shape invariant: (input columns + 1) x output size weights. */
  predicate WeightsFit(s: LayerState) {
    s.weights.rows == s.inputShape.cols + 1 && s.weights.cols == s.outputSize
  }

  /** The input with a column of ones appended: the constant input that
      multiplies the bias row of the weights. */
  function MakeInputMat(x: Matrix): (m: Matrix)
    ensures m.rows == x.rows && m.cols == x.cols + 1
    ensures forall i, j :: 0 <= i < x.rows && 0 <= j < x.cols ==> m.data[i][j] == x.data[i][j]
    ensures forall i :: 0 <= i < x.rows ==> m.data[i][x.cols] == 1.0
  {
    RawMatrix(x.rows, x.cols + 1, seq(x.rows, i requires 0 <= i < x.rows => x.data[i] + [1.0]))
  }

  /** Setting the input shape: rejects a non-positive dimension and changes
      nothing then; otherwise records the shape and, when asked to, replaces
      the weights by `init`, which stands for a random matrix of the fitting
      shape. */
  function WithInputShape(s: LayerState, shape: Shape, reinit: bool, init: Matrix): (r: Step)
    requires reinit && shape.rows > 0 && shape.cols > 0 ==> init.rows == shape.cols + 1 && init.cols == s.outputSize
    ensures r.outcome.Fail? <==> shape.rows <= 0 || shape.cols <= 0
    ensures r.outcome.Fail? ==> r.outcome.error == NonPositiveShape && r.state == s
    ensures r.outcome.Pass? && reinit ==> r.state == s.(inputShape := shape, weights := init) && WeightsFit(r.state)
    ensures r.outcome.Pass? && !reinit ==> r.state == s.(inputShape := shape)
  {
    if shape.rows <= 0 || shape.cols <= 0 then
      Step(Fail(NonPositiveShape), s)
    else if reinit then
      Step(Pass, s.(inputShape := shape, weights := init))
    else
      Step(Pass, s.(inputShape := shape))
  }

  /** Setting the inputs (out-of-line revision): stores `x`, rebuilds the
      augmented input only when asked to, then records the shape of `x`
      (rejecting an empty `x`) without touching the weights. */
  function WithInputs(s: LayerState, x: Matrix, useMakeInputMat: bool): (r: Step)
    ensures r.state.inputs == x
    ensures r.state.inputMat == if useMakeInputMat then MakeInputMat(x) else s.inputMat
    ensures r.outcome.Fail? <==> x.rows == 0 || x.cols == 0
    ensures r.outcome.Fail? ==> r.outcome.error == NonPositiveShape && r.state.inputShape == s.inputShape
    ensures r.outcome.Pass? ==> r.state.inputShape == Shape(x.rows, x.cols)
    ensures r.state == s.(inputs := x, inputMat := r.state.inputMat, inputShape := r.state.inputShape)
  {
    var t := s.(inputs := x, inputMat := if useMakeInputMat then MakeInputMat(x) else s.inputMat);
    WithInputShape(t, Shape(x.rows, x.cols), false, t.weights)
  }

  /** The forward pass of the out-of-line revision: adopt `x` and its shape,
      then check the stored weights against the input shape and the output
      size, in that order, and only then compute the pre-activations and the
      outputs. */
  function Forward(s: LayerState, x: Matrix): (r: Step)
    ensures r.outcome == Fail(NonPositiveShape) <==> x.rows == 0 || x.cols == 0
    ensures r.outcome == Fail(InputSizeError) <==> x.rows > 0 && x.cols > 0 && s.weights.rows != x.cols + 1
    ensures r.outcome == Fail(OutputSizeError)
        <==> x.rows > 0 && x.cols > 0 && s.weights.rows == x.cols + 1 && s.weights.cols != s.outputSize
    ensures r.state.inputs == x && r.state.inputMat == MakeInputMat(x)
    ensures r.outcome.Pass? ==> WeightsFit(r.state)
    ensures r.outcome.Pass? ==> r.state.outputs.rows == x.rows && r.state.outputs.cols == s.outputSize
    ensures r.outcome.Fail? ==> r.state.actVals == s.actVals && r.state.outputs == s.outputs
    ensures x.rows > 0 && x.cols > 0 ==> r.state.inputShape == Shape(x.rows, x.cols)
    ensures r.outcome == Fail(NonPositiveShape) ==> r.state.inputShape == s.inputShape
    ensures r.state == s.(inputs := x, inputMat := MakeInputMat(x), inputShape := r.state.inputShape,
                          actVals := r.state.actVals, outputs := r.state.outputs)
    ensures r.outcome.Pass? <==> x.rows > 0 && x.cols > 0 && s.weights.rows == x.cols + 1 && s.weights.cols == s.outputSize
  {
    var a := WithInputs(s, x, true);
    var t := a.state;
    if a.outcome.Fail? then a
    else if t.weights.rows != t.inputShape.cols + 1 then Step(Fail(InputSizeError), t)
    else if t.weights.cols != t.outputSize then Step(Fail(OutputSizeError), t)
    else
      var z := Mul(t.inputMat, t.weights);
      Step(Pass, t.(actVals := z, outputs := Activated(t.lib, t.activation, z)))
  }

  /** The forward pass of the header revision: it works on the cached
      augmented input, checks the weights against the recorded input shape
      and the output size, in that order, then the product's own dimension
      check (the cached augmented input against the weights), and on an
      error changes nothing. */
  function ForwardCached(s: LayerState): (r: Step)
    ensures r.outcome == Fail(InputSizeError) <==> s.weights.rows != s.inputShape.cols + 1
    ensures r.outcome == Fail(OutputSizeError)
        <==> s.weights.rows == s.inputShape.cols + 1 && s.weights.cols != s.outputSize
    ensures r.outcome == Fail(DimensionMismatch) <==> WeightsFit(s) && s.inputMat.cols != s.weights.rows
    ensures r.outcome.Pass? <==> WeightsFit(s) && s.inputMat.cols == s.weights.rows
    ensures r.outcome.Fail? ==> r.state == s
    ensures r.outcome.Pass? ==> r.state == s.(actVals := r.state.actVals, outputs := r.state.outputs)
    ensures r.outcome.Pass? ==> r.state.outputs.rows == s.inputMat.rows && r.state.outputs.cols == s.outputSize
    ensures r.outcome.Pass? ==> s.inputMat.cols == s.weights.rows && SameShape(r.state.actVals, r.state.outputs)
    ensures r.outcome.Pass? ==>
      forall i, j :: 0 <= i < s.inputMat.rows && 0 <= j < s.outputSize ==>
        && r.state.actVals.data[i][j] == Dot(s.inputMat.data[i], Col(s.weights, j))
        && r.state.outputs.data[i][j] == Activate(s.lib, s.activation, r.state.actVals.data[i][j])
  {
    if s.weights.rows != s.inputShape.cols + 1 then Step(Fail(InputSizeError), s)
    else if s.weights.cols != s.outputSize then Step(Fail(OutputSizeError), s)
    else if s.inputMat.cols != s.weights.rows then Step(Fail(DimensionMismatch), s)
    else
      var z := Mul(s.inputMat, s.weights);
      Step(Pass, s.(actVals := z, outputs := Activated(s.lib, s.activation, z)))
  }

  /** The activation derivatives of a layer, from its augmented input and its
      outputs. */
  function ActDerivs(s: LayerState): (d: Matrix)
    ensures s.activation in {Linear, Sigmoid, Tanh} ==> SameShape(d, s.outputs)
    ensures s.activation in {Relu, Softplus} ==> SameShape(d, s.inputMat)
  {
    Derivative(s.lib, s.activation, s.inputMat, s.outputs)
  }

  /** The Jacobian: the activation derivatives times the transposed weights. */
  function Jacobian(s: LayerState): (r: Result<Matrix>)
    ensures r.Ok? <==> ActDerivs(s).cols == s.weights.cols
    ensures r.Ok? ==> r.value.rows == ActDerivs(s).rows && r.value.cols == s.weights.rows
    ensures r.Ok? ==>
      forall i, j :: 0 <= i < r.value.rows && 0 <= j < r.value.cols ==>
        r.value.data[i][j] == Dot(ActDerivs(s).data[i], s.weights.data[j])
  {
    var d := ActDerivs(s);
    if d.cols != s.weights.cols then Err(DimensionMismatch)
    else
      var m := Mul(d, Transpose(s.weights));
      assert forall i, j :: 0 <= i < m.rows && 0 <= j < m.cols ==> m.data[i][j] == Dot(d.data[i], s.weights.data[j]) by {
        forall j | 0 <= j < m.cols ensures Col(Transpose(s.weights), j) == s.weights.data[j] {
          TransposeCol(s.weights, j);
        }
      }
      Ok(m)
  }

  /** The error a layer receives from its downstream neighbour (out-of-line
      revision): the neighbour's error times its transposed weights, with the
      last column, the one that belongs to the bias, removed. */
  function Backpropagated(nextErr: Matrix, nextWeights: Matrix): (r: Result<Matrix>)
    ensures r.Ok? <==> nextErr.cols == nextWeights.cols && nextWeights.rows >= 1
    ensures r.Ok? ==> r.value.rows == nextErr.rows && r.value.cols == nextWeights.rows - 1
    ensures r.Ok? ==>
      forall i, j :: 0 <= i < nextErr.rows && 0 <= j < nextWeights.rows - 1 ==>
        r.value.data[i][j] == Dot(nextErr.data[i], nextWeights.data[j])
  {
    if nextErr.cols != nextWeights.cols then Err(DimensionMismatch)
    else
      var g := Mul(nextErr, Transpose(nextWeights));
      if g.cols == 0 then Err(DimensionMismatch)
      else
        ProjectionEntries(nextErr, nextWeights);
        Ok(DropLastColumn(g))
  }

  /** The same projection in the header revision, which keeps the bias column. */
  function ProjectedKeepingBias(nextErr: Matrix, nextWeights: Matrix): (r: Result<Matrix>)
    ensures r.Ok? <==> nextErr.cols == nextWeights.cols
    ensures r.Ok? ==> r.value.rows == nextErr.rows && r.value.cols == nextWeights.rows
    ensures r.Ok? ==>
      forall i, j :: 0 <= i < nextErr.rows && 0 <= j < nextWeights.rows ==>
        r.value.data[i][j] == Dot(nextErr.data[i], nextWeights.data[j])
  {
    if nextErr.cols != nextWeights.cols then Err(DimensionMismatch)
    else
      ProjectionEntries(nextErr, nextWeights);
      Ok(Mul(nextErr, Transpose(nextWeights)))
  }

  /** The backward pass given the incoming error signal: the local error is
      the signal times the activation derivatives, entrywise, and the
      gradient is the transposed augmented input times the local error. */
  function BackwardStep(s: LayerState, upstream: Result<Matrix>): (r: Step)
    ensures r.outcome.Pass? <==>
      upstream.Ok? && SameShape(upstream.value, ActDerivs(s)) && s.inputMat.rows == upstream.value.rows
    ensures r.state == s.(err := r.state.err, gradient := r.state.gradient)
    ensures r.outcome.Fail? ==> r.state.gradient == s.gradient
    ensures r.outcome.Pass? ==>
      && r.state.err == Hadamard(upstream.value, ActDerivs(s))
      && r.state.gradient.rows == s.inputMat.cols && r.state.gradient.cols == upstream.value.cols
      && forall a, b :: 0 <= a < s.inputMat.cols && 0 <= b < upstream.value.cols ==>
           r.state.gradient.data[a][b] == Dot(Col(s.inputMat, a), Col(r.state.err, b))
  {
    match upstream
    case Err(e) => Step(Fail(e), s)
    case Ok(u) =>
      var d := ActDerivs(s);
      if !SameShape(u, d) then Step(Fail(DimensionMismatch), s)
      else
        var e := Hadamard(u, d);
        if s.inputMat.rows != e.rows then Step(Fail(DimensionMismatch), s.(err := e))
        else
          var g := Mul(Transpose(s.inputMat), e);
          assert forall a, b :: 0 <= a < g.rows && 0 <= b < g.cols ==> g.data[a][b] == Dot(Col(s.inputMat, a), Col(e, b)) by {
            forall a | 0 <= a < g.rows ensures Transpose(s.inputMat).data[a] == Col(s.inputMat, a) {
              TransposeRow(s.inputMat, a);
            }
          }
          Step(Pass, s.(err := e, gradient := g))
  }

  /** Entry (i, j) of an error times transposed weights is row i of the
      error against row j of the weights. */
  lemma ProjectionEntries(e: Matrix, w: Matrix)
    requires e.cols == w.cols
    ensures forall i, j :: 0 <= i < e.rows && 0 <= j < w.rows ==>
      Mul(e, Transpose(w)).data[i][j] == Dot(e.data[i], w.data[j])
  {
    forall j | 0 <= j < w.rows ensures Col(Transpose(w), j) == w.data[j] {
      TransposeCol(w, j);
    }
  }

  /** The momentum update: the new update is momentum times the previous one
      minus the learning rate times the gradient, and it is added to the
      weights. */
  function UpdateStep(s: LayerState): (r: Step)
    ensures r.outcome.Pass? <==> SameShape(s.weightUpdate, s.gradient) && SameShape(s.weights, s.gradient)
    ensures r.outcome.Pass? ==>
      && r.state == s.(weightUpdate := r.state.weightUpdate, weights := r.state.weights)
      && SameShape(r.state.weights, s.weights) && SameShape(r.state.weightUpdate, s.weights)
      && forall i, j :: 0 <= i < s.weights.rows && 0 <= j < s.weights.cols ==>
           && r.state.weightUpdate.data[i][j]
              == s.momentum * s.weightUpdate.data[i][j] - s.learningRate * s.gradient.data[i][j]
           && r.state.weights.data[i][j] == s.weights.data[i][j] + r.state.weightUpdate.data[i][j]
    ensures !SameShape(s.weightUpdate, s.gradient) ==> r.state == s
    ensures r.outcome.Fail? ==> r.state == s.(weightUpdate := r.state.weightUpdate)
  {
    if !SameShape(s.weightUpdate, s.gradient) then Step(Fail(DimensionMismatch), s)
    else
      var wu := Sub(Scale(s.momentum, s.weightUpdate), Scale(s.learningRate, s.gradient));
      if !SameShape(s.weights, wu) then Step(Fail(DimensionMismatch), s.(weightUpdate := wu))
      else Step(Pass, s.(weightUpdate := wu, weights := Add(s.weights, wu)))
  }

  /** The momentum update followed by a rescaling of the weights; the stored
      update itself is not rescaled. */
  function ScaledUpdateStep(s: LayerState, mult: real): (r: Step)
    ensures r.outcome == UpdateStep(s).outcome
    ensures r.outcome.Pass? ==>
      && r.state.weightUpdate == UpdateStep(s).state.weightUpdate
      && SameShape(r.state.weights, s.weights)
      && forall i, j :: 0 <= i < s.weights.rows && 0 <= j < s.weights.cols ==>
           r.state.weights.data[i][j] == mult * (s.weights.data[i][j] + r.state.weightUpdate.data[i][j])
    ensures r.outcome.Pass? ==> r.state == UpdateStep(s).state.(weights := r.state.weights)
    ensures r.outcome.Fail? ==> r == UpdateStep(s)
  {
    var u := UpdateStep(s);
    if u.outcome.Fail? then u else Step(Pass, u.state.(weights := Scale(mult, u.state.weights)))
  }

  // ---------------------------------------------------------------------
  // The layer object

  class Layer {
    var inputShape: Shape
    var outputSize: int
    var activation: Activation
    const lib: MathLib
    var actVals: Matrix
    var weights: Matrix
    var weightUpdate: Matrix
    var gradient: Matrix
    var outputs: Matrix
    var inputs: Matrix
    var inputMat: Matrix
    var err: Matrix
    var jacobian: Matrix
    var learningRate: real
    var momentum: real

    ghost function State(): LayerState
      reads this
    {
      LayerState(lib, inputShape, outputSize, activation, actVals, weights, weightUpdate, gradient,
                 outputs, inputs, inputMat, err, jacobian, learningRate, momentum)
    }

    /** A layer for inputs of the given shape; `init` stands for the random
        initial weights, of shape (input columns + 1) x output size. The
        update starts at zero and the learning rate and momentum at zero. */
    constructor (shape: Shape, outputSize: int, activation: Activation, lib: MathLib, init: Matrix)
      requires init.rows == shape.cols + 1 && init.cols == outputSize
      ensures inputShape == shape && this.outputSize == outputSize && this.activation == activation
      ensures this.lib == lib && weights == init && WeightsFit(State())
      ensures weightUpdate == Zero(init.rows, init.cols)
      ensures learningRate == 0.0 && momentum == 0.0
      ensures inputs == Zero(0, 0) && inputMat == Zero(0, 0) && outputs == Zero(0, 0)
      ensures actVals == Zero(0, 0) && err == Zero(0, 0) && gradient == Zero(0, 0) && jacobian == Zero(0, 0)
    {
      inputShape := shape;
      this.outputSize := outputSize;
      this.activation := activation;
      this.lib := lib;
      weights := init;
      weightUpdate := Zero(init.rows, init.cols);
      actVals, gradient, outputs, inputs := Zero(0, 0), Zero(0, 0), Zero(0, 0), Zero(0, 0);
      inputMat, err, jacobian := Zero(0, 0), Zero(0, 0), Zero(0, 0);
      learningRate, momentum := 0.0, 0.0;
    }

    /** A layer built around given inputs and weights: the input shape is
        that of the inputs and the augmented input is prepared. */
    constructor FromInputs(x: Matrix, outputSize: int, w: Matrix, activation: Activation, lib: MathLib)
      requires outputSize >= 0
      ensures inputShape == Shape(x.rows, x.cols) && this.outputSize == outputSize
      ensures this.activation == activation && this.lib == lib && weights == w
      ensures inputs == x && inputMat == MakeInputMat(x)
      ensures weightUpdate == Zero(x.cols + 1, outputSize)
      ensures learningRate == 0.0 && momentum == 0.0
      ensures actVals == Zero(0, 0) && outputs == Zero(0, 0) && err == Zero(0, 0)
      ensures gradient == Zero(0, 0) && jacobian == Zero(0, 0)
    {
      inputShape := Shape(x.rows, x.cols);
      this.outputSize := outputSize;
      this.activation := activation;
      this.lib := lib;
      weights := w;
      weightUpdate := Zero(x.cols + 1, outputSize);
      inputs := x;
      inputMat := MakeInputMat(x);
      actVals, gradient, outputs := Zero(0, 0), Zero(0, 0), Zero(0, 0);
      err, jacobian := Zero(0, 0), Zero(0, 0);
      learningRate, momentum := 0.0, 0.0;
    }

    /** A copy of another layer. */
    constructor Copy(other: Layer)
      ensures State() == other.State()
    {
      inputShape := other.inputShape;
      outputSize := other.outputSize;
      activation := other.activation;
      lib := other.lib;
      actVals := other.actVals;
      weights := other.weights;
      weightUpdate := other.weightUpdate;
      gradient := other.gradient;
      outputs := other.outputs;
      inputs := other.inputs;
      inputMat := other.inputMat;
      err := other.err;
      jacobian := other.jacobian;
      learningRate := other.learningRate;
      momentum := other.momentum;
    }

    method SetInputShape(shape: Shape, reinit: bool, init: Matrix) returns (res: Outcome)
      requires reinit && shape.rows > 0 && shape.cols > 0 ==> init.rows == shape.cols + 1 && init.cols == outputSize
      modifies this
      ensures Step(res, State()) == WithInputShape(old(State()), shape, reinit, init)
    {
      if shape.rows <= 0 || shape.cols <= 0 {
        return Fail(NonPositiveShape);
      }
      inputShape := shape;
      if reinit {
        weights := init;
      }
      res := Pass;
    }

    method SetInputs(x: Matrix, useMakeInputMat: bool) returns (res: Outcome)
      modifies this
      ensures Step(res, State()) == WithInputs(old(State()), x, useMakeInputMat)
    {
      inputs := x;
      if useMakeInputMat {
        inputMat := MakeInputMat(x);
      }
      res := SetInputShape(Shape(x.rows, x.cols), false, weights);
    }

    /** Setting the inputs in the header revision: the augmented input is
        always rebuilt and the recorded input shape is left alone. */
    method SetInputsCached(x: Matrix)
      modifies this
      ensures State() == old(State()).(inputs := x, inputMat := MakeInputMat(x))
    {
      inputs := x;
      inputMat := MakeInputMat(x);
    }

    method SetActivation(a: Activation)
      modifies this
      ensures State() == old(State()).(activation := a)
    {
      activation := a;
    }

    method SetWeights(w: Matrix)
      modifies this
      ensures State() == old(State()).(weights := w)
    {
      weights := w;
    }

    method SetUpdateParams(lr: real, mom: real)
      modifies this
      ensures State() == old(State()).(learningRate := lr, momentum := mom)
    {
      learningRate, momentum := lr, mom;
    }

    method SetOutputSize(n: int)
      modifies this
      ensures State() == old(State()).(outputSize := n)
    {
      outputSize := n;
    }

    /** The activated output for an arbitrary input, computed without
        touching any field. */
    function CalculateOutput(x: Matrix): (r: Result<Matrix>)
      reads this
      ensures r.Ok? <==> x.cols + 1 == weights.rows
      ensures r.Ok? ==> r.value.rows == x.rows && r.value.cols == weights.cols
      ensures r.Ok? && activation == Linear ==>
        forall i, j :: 0 <= i < x.rows && 0 <= j < weights.cols ==>
          r.value.data[i][j] == Dot(x.data[i], Col(weights, j)[..x.cols]) + weights.data[x.cols][j]
    {
      var m := MakeInputMat(x);
      if m.cols != weights.rows then Err(DimensionMismatch)
      else
        var y := Activated(lib, activation, Mul(m, weights));
        assert activation == Linear ==>
          forall i, j :: 0 <= i < x.rows && 0 <= j < weights.cols ==>
            y.data[i][j] == Dot(x.data[i], Col(weights, j)[..x.cols]) + weights.data[x.cols][j] by {
          if activation == Linear {
            forall i, j | 0 <= i < x.rows && 0 <= j < weights.cols
              ensures y.data[i][j] == Dot(x.data[i], Col(weights, j)[..x.cols]) + weights.data[x.cols][j]
            {
              BiasIsLastWeightRow(x, weights, i, j);
            }
          }
        }
        Ok(y)
    }

    /** The header revision's forward pass, which works on the cached
        augmented input. */
    method ForwardCachedPass() returns (res: Outcome)
      modifies this
      ensures Step(res, State()) == ForwardCached(old(State()))
    {
      if weights.rows != inputShape.cols + 1 {
        return Fail(InputSizeError);
      } else if weights.cols != outputSize {
        return Fail(OutputSizeError);
      }
      if inputMat.cols != weights.rows {
        return Fail(DimensionMismatch);
      }
      actVals := Mul(inputMat, weights);
      outputs := Activated(lib, activation, actVals);
      res := Pass;
    }

    /** The out-of-line revision's forward pass on `x`. */
    method ForwardPass(x: Matrix) returns (res: Outcome)
      modifies this
      ensures Step(res, State()) == Forward(old(State()), x)
    {
      res := SetInputs(x, true);
      if res.Fail? {
        return;
      }
      if weights.rows != inputShape.cols + 1 {
        return Fail(InputSizeError);
      } else if weights.cols != outputSize {
        return Fail(OutputSizeError);
      }
      actVals := Mul(inputMat, weights);
      outputs := Activated(lib, activation, actVals);
    }

    /** The out-of-line revision's forward pass on the stored inputs. */
    method ForwardPassAgain() returns (res: Outcome)
      modifies this
      ensures Step(res, State()) == Forward(old(State()), old(inputs))
    {
      res := ForwardPass(inputs);
    }

    method ComputeJacobian() returns (r: Result<Matrix>)
      modifies this
      ensures r == Jacobian(old(State()))
      ensures r.Ok? ==> State() == old(State()).(jacobian := r.value)
      ensures r.Err? ==> State() == old(State())
    {
      var d := Derivative(lib, activation, inputMat, outputs);
      if d.cols != weights.cols {
        return Err(DimensionMismatch);
      }
      jacobian := Mul(d, Transpose(weights));
      r := Ok(jacobian);
    }

    /** Turns an incoming error signal into the local error and the gradient. */
    method Backward(upstream: Result<Matrix>) returns (res: Outcome)
      modifies this
      ensures Step(res, State()) == BackwardStep(old(State()), upstream)
    {
      if upstream.Err? {
        return Fail(upstream.error);
      }
      var d := Derivative(lib, activation, inputMat, outputs);
      if !SameShape(upstream.value, d) {
        return Fail(DimensionMismatch);
      }
      err := Hadamard(upstream.value, d);
      if inputMat.rows != err.rows {
        return Fail(DimensionMismatch);
      }
      gradient := Mul(Transpose(inputMat), err);
      res := Pass;
    }

    /** The out-of-line revision's backward pass from the downstream layer. */
    method BackwardFromLayer(next: Layer) returns (res: Outcome)
      modifies this
      ensures Step(res, State()) == BackwardStep(old(State()), Backpropagated(old(next.err), old(next.weights)))
    {
      res := Backward(Backpropagated(next.err, next.weights));
    }

    /** The header revision's backward pass from the downstream layer. */
    method BackwardKeepingBias(next: Layer) returns (res: Outcome)
      modifies this
      ensures Step(res, State()) == BackwardStep(old(State()), ProjectedKeepingBias(old(next.err), old(next.weights)))
    {
      res := Backward(ProjectedKeepingBias(next.err, next.weights));
    }

    /** The backward pass of the last layer, from the loss gradient. */
    method BackwardFromLoss(lossGrad: Matrix) returns (res: Outcome)
      modifies this
      ensures Step(res, State()) == BackwardStep(old(State()), Ok(lossGrad))
    {
      res := Backward(Ok(lossGrad));
    }

    method UpdateWeights() returns (res: Outcome)
      modifies this
      ensures Step(res, State()) == UpdateStep(old(State()))
    {
      if !SameShape(weightUpdate, gradient) {
        return Fail(DimensionMismatch);
      }
      weightUpdate := Sub(Scale(momentum, weightUpdate), Scale(learningRate, gradient));
      if !SameShape(weights, weightUpdate) {
        return Fail(DimensionMismatch);
      }
      weights := Add(weights, weightUpdate);
      res := Pass;
    }

    /** Installs a learning rate and a momentum, then updates. */
    method UpdateWeightsWith(lr: real, mom: real) returns (res: Outcome)
      modifies this
      ensures Step(res, State()) == UpdateStep(old(State()).(learningRate := lr, momentum := mom))
    {
      SetUpdateParams(lr, mom);
      res := UpdateWeights();
    }

    method UpdateWeightsScaled(mult: real) returns (res: Outcome)
      modifies this
      ensures Step(res, State()) == ScaledUpdateStep(old(State()), mult)
    {
      res := UpdateWeights();
      if res.Pass? {
        weights := Scale(mult, weights);
      }
    }
  }

  // ---------------------------------------------------------------------
  // Properties

  /** Removing the last column of the augmented input gives the input back. */
  lemma MakeInputMatRoundTrip(x: Matrix)
    ensures DropLastColumn(MakeInputMat(x)) == x
  {
    Extensionality(DropLastColumn(MakeInputMat(x)), x);
  }

  /** A sum of products over an augmented row splits into the sum over the
      original row plus the last factor. */
  lemma DotAppendOne(u: Vector, v: Vector)
    requires |v| == |u| + 1
    ensures Dot(u + [1.0], v) == Dot(u, v[..|u|]) + v[|u|]
  {
    assert Dot(u + [1.0], v) == Dot((u + [1.0])[..|u|], v[..|u|]) + 1.0 * v[|u|];
    assert (u + [1.0])[..|u|] == u;
  }

  /** Entry (i, j) of the augmented input times the weights is row i of the
      input against the first rows of column j, plus the last row of the
      weights: that row is the bias. */
  lemma BiasIsLastWeightRow(x: Matrix, w: Matrix, i: nat, j: nat)
    requires w.rows == x.cols + 1 && i < x.rows && j < w.cols
    ensures Mul(MakeInputMat(x), w).data[i][j] == Dot(x.data[i], Col(w, j)[..x.cols]) + w.data[x.cols][j]
  {
    var m := MakeInputMat(x);
    assert m.data[i] == x.data[i] + [1.0];
    DotAppendOne(x.data[i], Col(w, j));
  }

  /** After a successful forward pass the pre-activations are the augmented
      input times the weights, and the outputs are the activation of them,
      entry by entry. */
  lemma ForwardComputesActivations(s: LayerState, x: Matrix)
    requires Forward(s, x).outcome.Pass?
    ensures var t := Forward(s, x).state;
      && t.actVals == Mul(MakeInputMat(x), s.weights)
      && forall i, j :: 0 <= i < x.rows && 0 <= j < s.outputSize ==>
           t.outputs.data[i][j] == Activate(s.lib, s.activation, t.actVals.data[i][j])
  {
  }

  /** A linear layer's outputs are its pre-activations. */
  lemma LinearForwardOutputsActVals(s: LayerState, x: Matrix)
    requires s.activation == Linear && Forward(s, x).outcome.Pass?
    ensures Forward(s, x).state.outputs == Forward(s, x).state.actVals
  {
    LinearActivationIsIdentity(s.lib, Forward(s, x).state.actVals);
  }

  /** Running the forward pass again on the inputs it stored changes
      nothing: the outputs depend only on the input and the weights. */
  lemma ForwardIdempotent(s: LayerState, x: Matrix)
    requires Forward(s, x).outcome.Pass?
    ensures var t := Forward(s, x).state; Forward(t, t.inputs) == Step(Pass, t)
  {
  }

  /** The same holds for the header revision's cached forward pass. */
  lemma ForwardCachedIdempotent(s: LayerState)
    requires ForwardCached(s).outcome.Pass?
    ensures var t := ForwardCached(s).state; ForwardCached(t) == Step(Pass, t)
  {
  }

  /** The two revisions' forward passes agree on a layer whose augmented
      input and recorded shape were made from its stored inputs. */
  lemma ForwardCachedAgreesWithForward(s: LayerState)
    requires s.inputs.rows > 0 && s.inputs.cols > 0
    requires s.inputMat == MakeInputMat(s.inputs) && s.inputShape == Shape(s.inputs.rows, s.inputs.cols)
    ensures ForwardCached(s) == Forward(s, s.inputs)
  {
  }

  /** The output computed on demand agrees with the forward pass. */
  lemma CalculateOutputAgreesWithForward(l: Layer, x: Matrix)
    requires Forward(l.State(), x).outcome.Pass?
    ensures l.CalculateOutput(x) == Ok(Forward(l.State(), x).state.outputs)
  {
  }

  /** When the incoming error has one column per output and the layer's
      weights fit its augmented input, the gradient has the weights' shape. */
  lemma GradientHasWeightsShape(s: LayerState, u: Matrix)
    requires WeightsFit(s) && s.inputMat.cols == s.inputShape.cols + 1 && u.cols == s.outputSize
    requires BackwardStep(s, Ok(u)).outcome.Pass?
    ensures SameShape(BackwardStep(s, Ok(u)).state.gradient, s.weights)
  {
  }

  /** The projected error of a downstream layer whose input width is this
      layer's output size has one column per output of this layer. */
  lemma BackpropagatedHasOutputWidth(s: LayerState, next: LayerState)
    requires WeightsFit(next) && next.inputShape.cols == s.outputSize && s.outputSize >= 0
    requires next.err.cols == next.outputSize
    ensures var u := Backpropagated(next.err, next.weights); u.Ok? && u.value.cols == s.outputSize
  {
  }

  /** The relu and softplus derivatives have the shape of the augmented
      input, so the backward pass of such a layer, fed one column per output,
      succeeds only if the output size is the input width plus one. */
  lemma AugmentedDerivativeNeedsSquareLayer(s: LayerState, u: Matrix)
    requires s.activation in {Relu, Softplus} && s.inputMat.cols == s.inputShape.cols + 1
    requires u.cols == s.outputSize
    requires BackwardStep(s, Ok(u)).outcome.Pass?
    ensures s.outputSize == s.inputShape.cols + 1
  {
  }

  /** The out-of-line revision's projection is the header revision's with
      the bias column removed. */
  lemma BackpropagatedDropsBiasColumn(nextErr: Matrix, nextWeights: Matrix)
    requires nextWeights.rows >= 1
    ensures var k := ProjectedKeepingBias(nextErr, nextWeights);
      Backpropagated(nextErr, nextWeights) == if k.Ok? then Ok(DropLastColumn(k.value)) else k
  {
  }

  /** Moving weight (a, 0) of a one-column weight matrix by h moves entry k
      of the product by h times entry (k, a) of the left factor. */
  lemma NudgedProduct(m: Matrix, w: Matrix, a: nat, h: real, k: nat)
    requires m.cols == w.rows && w.cols == 1 && a < w.rows && k < m.rows
    ensures Mul(m, Nudged(w, a, 0, h)).data[k][0] == Mul(m, w).data[k][0] + h * m.data[k][a]
  {
    assert Col(Nudged(w, a, 0, h), 0) == Col(w, 0)[a := Col(w, 0)[a] + h];
    DotShift(m.data[k], Col(w, 0), a, h);
  }

  /** A linear layer with one output column, fed a one-column signal d,
      succeeds and its gradient entry (a, 0) is column a of the augmented
      input against d. */
  lemma LinearGradientEntry(f: LayerState, d: Vector, a: nat) returns (g: real)
    requires f.activation == Linear && f.outputs.cols == 1
    requires |d| == f.outputs.rows == f.inputMat.rows && a < f.inputMat.cols
    ensures var b := BackwardStep(f, Ok(AsColumn(d)));
      b.outcome.Pass? && g == b.state.gradient.data[a][0] && g == Dot(Col(f.inputMat, a), d)
  {
    var b := BackwardStep(f, Ok(AsColumn(d)));
    forall k | 0 <= k < |d| ensures b.state.err.data[k][0] == d[k] {
      LinearDerivativeEntries(f.lib, f.inputMat, f.outputs, k, 0);
    }
    assert Col(b.state.err, 0) == d;
    g := b.state.gradient.data[a][0];
  }

  /** The gradient of a linear single-output layer fed the L2 loss
      derivative is the slope of the loss in the weights. Moving weight
      (a, 0) by h and running the forward pass again moves every output by h
      times the matching entry of column a of the augmented input, and moves
      the loss by h times g, the gradient entry (a, 0), plus half the
      squared length of the change in the outputs, which shrinks with h^2. */
  lemma LinearGradientIsLossSlope(s: LayerState, x: Matrix, t: Vector, a: nat, h: real) returns (g: real)
    requires s.activation == Linear && s.outputSize == 1 && Forward(s, x).outcome.Pass?
    requires |t| == x.rows && a < s.weights.rows
    ensures Forward(s.(weights := Nudged(s.weights, a, 0, h)), x).outcome.Pass?
    ensures var f := Forward(s, x).state;
      var y := Col(f.outputs, 0);
      var b := BackwardStep(f, Ok(AsColumn(VectorLossDerivative(L2, y, t))));
      var y' := Col(Forward(s.(weights := Nudged(s.weights, a, 0, h)), x).state.outputs, 0);
      && b.outcome.Pass?
      && g == b.state.gradient.data[a][0]
      && |y'| == |y|
      && VectorLoss(L2, y', t) == VectorLoss(L2, y, t) + h * g + 0.5 * SumSquares(VecSub(y', y))
  {
    var f, m, y, y' := LinearOutputsShift(s, x, a, h);
    g := LinearLossSlope(f, t, a, h, y');
  }

  /** The loss-slope step for a linear single-output layer state `f`, whose
      outputs move to y' when weight (a, 0) moves by h. */
  lemma LinearLossSlope(f: LayerState, t: Vector, a: nat, h: real, y': Vector) returns (g: real)
    requires f.activation == Linear && f.outputs.cols == 1
    requires a < f.inputMat.cols && f.inputMat.rows == f.outputs.rows == |y'| == |t|
    requires forall k :: 0 <= k < |y'| ==> y'[k] == Col(f.outputs, 0)[k] + h * Col(f.inputMat, a)[k]
    ensures var y := Col(f.outputs, 0);
      var b := BackwardStep(f, Ok(AsColumn(VectorLossDerivative(L2, y, t))));
      && b.outcome.Pass?
      && g == b.state.gradient.data[a][0]
      && VectorLoss(L2, y', t) == VectorLoss(L2, y, t) + h * g + 0.5 * SumSquares(VecSub(y', y))
  {
    var y := Col(f.outputs, 0);
    g := LinearGradientEntry(f, VectorLossDerivative(L2, y, t), a);
    L2AlongScaledDirection(y, y', t, Col(f.inputMat, a), h, g);
  }

  /** The forward passes of a linear single-output layer before and after
      weight (a, 0) moves by h: both succeed, giving the layer state `f`
      and the output columns `y` and `y'`, and each output moves by h times
      the matching entry of column a of the augmented input `m`. */
  lemma LinearOutputsShift(s: LayerState, x: Matrix, a: nat, h: real) returns (f: LayerState, m: Matrix, y: Vector, y': Vector)
    requires s.activation == Linear && s.outputSize == 1 && Forward(s, x).outcome.Pass? && a < s.weights.rows
    ensures Forward(s.(weights := Nudged(s.weights, a, 0, h)), x).outcome.Pass?
    ensures f == Forward(s, x).state && f.activation == Linear && f.outputs.cols == 1
    ensures m == f.inputMat && a < m.cols && m.rows == f.outputs.rows == x.rows
    ensures y == Col(f.outputs, 0) && y' == Col(Forward(s.(weights := Nudged(s.weights, a, 0, h)), x).state.outputs, 0)
    ensures |y| == |y'| == x.rows && forall k :: 0 <= k < x.rows ==> y'[k] == y[k] + h * Col(m, a)[k]
  {
    var s' := s.(weights := Nudged(s.weights, a, 0, h));
    f := Forward(s, x).state;
    m := MakeInputMat(x);
    ForwardComputesActivations(s, x);
    ForwardComputesActivations(s', x);
    LinearForwardOutputsActVals(s, x);
    LinearForwardOutputsActVals(s', x);
    y := Col(f.outputs, 0);
    y' := Col(Forward(s', x).state.outputs, 0);
    forall k | 0 <= k < x.rows ensures y'[k] == y[k] + h * Col(m, a)[k] {
      NudgedProduct(m, s.weights, a, h, k);
    }
  }

  /** In the header revision, the error projected from a fitting downstream
      layer keeps the bias column, so it is one column wider than the
      derivatives of a linear, sigmoid or tanh layer: its backward pass
      always fails. */
  lemma KeepingBiasRejectsChainedLayer(s: LayerState, next: LayerState)
    requires s.activation in {Linear, Sigmoid, Tanh} && s.outputs.cols == s.outputSize
    requires WeightsFit(next) && next.inputShape.cols == s.outputSize
    requires next.err.cols == next.outputSize
    ensures BackwardStep(s, ProjectedKeepingBias(next.err, next.weights)) == Step(Fail(DimensionMismatch), s)
  {
  }

  /** Dropping the bias column repairs this: with matching row counts the
      backward pass from a fitting downstream layer succeeds. */
  lemma DroppingBiasAcceptsChainedLayer(s: LayerState, next: LayerState)
    requires s.activation in {Linear, Sigmoid, Tanh} && s.outputs.cols == s.outputSize && s.outputSize >= 0
    requires WeightsFit(next) && next.inputShape.cols == s.outputSize
    requires next.err.cols == next.outputSize
    requires next.err.rows == s.outputs.rows && s.inputMat.rows == s.outputs.rows
    ensures BackwardStep(s, Backpropagated(next.err, next.weights)).outcome == Pass
  {
  }

  /** With no previous update and a zero gradient, the first update changes
      nothing at all. */
  lemma ZeroGradientFirstUpdate(s: LayerState)
    requires s.weightUpdate == Zero(s.weights.rows, s.weights.cols)
    requires s.gradient == Zero(s.weights.rows, s.weights.cols)
    ensures UpdateStep(s) == Step(Pass, s)
  {
    var r := UpdateStep(s);
    Extensionality(r.state.weightUpdate, s.weightUpdate);
    Extensionality(r.state.weights, s.weights);
  }

  /** Without momentum the update is plain gradient descent. */
  lemma NoMomentumIsGradientDescent(s: LayerState)
    requires s.momentum == 0.0 && UpdateStep(s).outcome.Pass?
    ensures UpdateStep(s).state.weights == Sub(s.weights, Scale(s.learningRate, s.gradient))
  {
    Extensionality(UpdateStep(s).state.weights, Sub(s.weights, Scale(s.learningRate, s.gradient)));
  }
}
