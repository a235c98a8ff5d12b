/** The activation functions a layer may use and the table of their
    derivatives, as the layer's backward pass consumes them. */
module Activations {
  import opened Matrices

  /** A real function that is positive everywhere. */
  type PositiveFunction = f: real -> real | forall x: real :: f(x) > 0.0 witness (x: real) => 1.0

  /** The transcendental functions of the C math library. The model does not
      define them; they are supplied as values, and the only fact assumed of
      them is that the exponential is positive. */
  datatype MathLib = MathLib(exp: PositiveFunction, tanh: real -> real, log: real -> real)

  /** The activations the layer library names: "linear", "sigmoid", "tanh",
      "relu" and "softplus". */
  datatype Activation = Linear | Sigmoid | Tanh | Relu | Softplus

  /** The logistic function 1 / (1 + e^-x). */
  function Logistic(lib: MathLib, x: real): (r: real)
    ensures 0.0 < r < 1.0
  {
    var e := lib.exp(-x);
    assert e > 0.0;
    1.0 / (1.0 + e)
  }

  /** The scalar function an activation applies to every pre-activation value. */
  function Activate(lib: MathLib, a: Activation, x: real): (y: real)
    ensures a == Linear ==> y == x
    ensures a == Sigmoid ==> 0.0 < y < 1.0
    ensures a == Relu ==> y >= 0.0 && (x > 0.0 ==> y == x) && (x <= 0.0 ==> y == 0.0)
  {
    match a
    case Linear => x
    case Sigmoid => Logistic(lib, x)
    case Tanh => lib.tanh(x)
    case Relu => if x > 0.0 then x else 0.0
    case Softplus => lib.log(lib.exp(x) + 1.0)
  }

  /** The activation applied entrywise to a matrix of pre-activation values. */
  function Activated(lib: MathLib, a: Activation, z: Matrix): (m: Matrix)
    ensures SameShape(m, z)
    ensures forall i, j :: 0 <= i < z.rows && 0 <= j < z.cols ==> m.data[i][j] == Activate(lib, a, z.data[i][j])
  {
    Map(x => Activate(lib, a, x), z)
  }

  /** The derivative table. Its argument is the pair (augmented input,
      outputs): linear, sigmoid and tanh are expressed through the outputs and
      have the outputs' shape, while relu and softplus are evaluated on the
      bias-augmented input and have its shape. */
  function Derivative(lib: MathLib, a: Activation, input: Matrix, output: Matrix): (d: Matrix)
    ensures a in {Linear, Sigmoid, Tanh} ==> SameShape(d, output)
    ensures a in {Relu, Softplus} ==> SameShape(d, input)
  {
    match a
    case Linear => Ones(output.rows, output.cols)
    case Sigmoid => Hadamard(output, Sub(Ones(output.rows, output.cols), output))
    case Tanh => Sub(Ones(output.rows, output.cols), Hadamard(output, output))
    case Relu => Map(y => if y > 0.0 then 1.0 else 0.0, input)
    case Softplus => Map(y => Logistic(lib, y), input)
  }

  // ---------------------------------------------------------------------
  // Properties

  /** o(1 - o) never exceeds one quarter. */
  lemma LogisticSlopeBound(o: real)
    ensures o * (1.0 - o) <= 0.25
  {
    assert 0.25 - o * (1.0 - o) == (o - 0.5) * (o - 0.5);
    var h := o - 0.5;
    if h >= 0.0 {
      assert h * h >= 0.0;
    } else {
      assert (-h) * (-h) >= 0.0;
    }
  }

  /** o(1 - o) is positive for o strictly between 0 and 1. */
  lemma LogisticSlopePositive(o: real)
    requires 0.0 < o < 1.0
    ensures o * (1.0 - o) > 0.0
  {
  }

  /** The sigmoid's slope o(1 - o), for o strictly between 0 and 1, lies
      in (0, 1/4]. */
  lemma LogisticSlopeRange(d: real, o: real)
    requires 0.0 < o < 1.0 && d == o * (1.0 - o)
    ensures 0.0 < d <= 0.25
  {
    LogisticSlopeBound(o);
    LogisticSlopePositive(o);
  }

  /** 1 - o*o never exceeds one. */
  lemma TanhSlopeBound(o: real)
    ensures 1.0 - o * o <= 1.0
  {
    if o >= 0.0 {
      assert o * o >= 0.0;
    } else {
      assert (-o) * (-o) >= 0.0;
    }
  }

  /** The linear derivative is all ones, in the outputs' shape. */
  lemma LinearDerivativeEntries(lib: MathLib, input: Matrix, output: Matrix, i: nat, j: nat)
    requires i < output.rows && j < output.cols
    ensures Derivative(lib, Linear, input, output).data[i][j] == 1.0
  {
  }

  /** The sigmoid derivative is o(1 - o), at most one quarter, entry by
      entry of the outputs. */
  lemma SigmoidDerivativeEntries(lib: MathLib, input: Matrix, output: Matrix, i: nat, j: nat)
    requires i < output.rows && j < output.cols
    ensures var d := Derivative(lib, Sigmoid, input, output).data[i][j];
      d == output.data[i][j] * (1.0 - output.data[i][j]) && d <= 0.25
  {
    LogisticSlopeBound(output.data[i][j]);
  }

  /** The tanh derivative is 1 - o*o, at most one, entry by entry of the
      outputs. */
  lemma TanhDerivativeEntries(lib: MathLib, input: Matrix, output: Matrix, i: nat, j: nat)
    requires i < output.rows && j < output.cols
    ensures var d := Derivative(lib, Tanh, input, output).data[i][j];
      d == 1.0 - output.data[i][j] * output.data[i][j] && d <= 1.0
  {
    TanhSlopeBound(output.data[i][j]);
  }

  /** The relu derivative, on the bias-augmented input, is 1 where that
      input is positive and 0 elsewhere. */
  lemma ReluDerivativeEntries(lib: MathLib, input: Matrix, output: Matrix, i: nat, j: nat)
    requires i < input.rows && j < input.cols
    ensures var d := Derivative(lib, Relu, input, output).data[i][j];
      (d == 1.0 || d == 0.0) && (d == 1.0 <==> input.data[i][j] > 0.0)
  {
  }

  /** The softplus derivative, on the bias-augmented input, is the logistic
      function of that input, strictly between 0 and 1. */
  lemma SoftplusDerivativeEntries(lib: MathLib, input: Matrix, output: Matrix, i: nat, j: nat)
    requires i < input.rows && j < input.cols
    ensures var d := Derivative(lib, Softplus, input, output).data[i][j];
      d == Logistic(lib, input.data[i][j]) && 0.0 < d < 1.0
  {
  }

  /** On the outputs of a sigmoid layer the sigmoid derivative is positive
      and at most one quarter. */
  lemma SigmoidDerivativeOnSigmoidOutputs(lib: MathLib, input: Matrix, z: Matrix, i: nat, j: nat)
    requires i < z.rows && j < z.cols
    ensures var d := Derivative(lib, Sigmoid, input, Activated(lib, Sigmoid, z)).data[i][j];
      0.0 < d <= 0.25
  {
    var o := Activated(lib, Sigmoid, z);
    SigmoidDerivativeEntries(lib, input, o, i, j);
    LogisticSlopeRange(Derivative(lib, Sigmoid, input, o).data[i][j], o.data[i][j]);
  }

  /** The linear activation leaves a matrix unchanged. */
  lemma LinearActivationIsIdentity(lib: MathLib, z: Matrix)
    ensures Activated(lib, Linear, z) == z
  {
    Extensionality(Activated(lib, Linear, z), z);
  }
}
