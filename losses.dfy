/** The vector loss functions a network may be built with, and their
    derivatives with respect to the prediction. */
module Losses {
  import opened Matrices

  /** The loss names the network library knows: only "L2". */
  datatype Loss = L2

  /** The loss of a prediction against an observation of the same length:
      for L2, half the squared length of the residual. */
  function VectorLoss(loss: Loss, pred: Vector, obs: Vector): (r: real)
    requires |pred| == |obs|
    ensures r >= 0.0
  {
    var resid := VecSub(pred, obs);
    DotSelf(resid);
    SumSquaresNonNegative(resid);
    0.5 * Dot(resid, resid)
  }

  /** The derivative of the loss with respect to the prediction: for L2, the
      residual. */
  function VectorLossDerivative(loss: Loss, pred: Vector, obs: Vector): (d: Vector)
    requires |pred| == |obs|
    ensures |d| == |pred|
  {
    VecSub(pred, obs)
  }

  // ---------------------------------------------------------------------
  // Properties

  /** The L2 loss vanishes exactly when the prediction equals the observation. */
  lemma L2ZeroIff(pred: Vector, obs: Vector)
    requires |pred| == |obs|
    ensures VectorLoss(L2, pred, obs) == 0.0 <==> pred == obs
  {
    var resid := VecSub(pred, obs);
    DotSelf(resid);
    SumSquaresZeroIff(resid);
    if pred == obs {
      assert forall i :: 0 <= i < |resid| ==> resid[i] == 0.0;
    }
    if VectorLoss(L2, pred, obs) == 0.0 {
      assert forall i :: 0 <= i < |pred| ==> pred[i] == obs[i] by {
        forall i | 0 <= i < |pred| ensures pred[i] == obs[i] {
          assert resid[i] == 0.0;
        }
      }
    }
  }

  /** (a + h)^2 expands as a^2 + 2ha + h^2. */
  lemma SquareOfSum(a: real, h: real)
    ensures (a + h) * (a + h) == a * a + 2.0 * h * a + h * h
  {
  }

  /** Moving one entry of a vector by h changes its sum of squares by
      2h times that entry plus h^2. */
  lemma {:induction false} SumSquaresShift(r: Vector, k: nat, h: real)
    requires k < |r|
    ensures SumSquares(r[k := r[k] + h]) == SumSquares(r) + 2.0 * h * r[k] + h * h
  {
    var s := r[k := r[k] + h];
    var n := |r| - 1;
    if k == n {
      assert s[..n] == r[..n];
      SquareOfSum(r[n], h);
    } else {
      assert s[..n] == r[..n][k := r[k] + h];
      SumSquaresShift(r[..n], k, h);
    }
  }

  /** Moving the prediction by a vector d changes the L2 loss by d against
      the L2 derivative, plus half the squared length of d. */
  lemma L2AlongDirection(pred: Vector, pred': Vector, obs: Vector, d: Vector)
    requires |pred| == |pred'| == |obs| == |d|
    requires forall k :: 0 <= k < |pred| ==> pred'[k] == pred[k] + d[k]
    ensures VectorLoss(L2, pred', obs)
         == VectorLoss(L2, pred, obs) + Dot(d, VectorLossDerivative(L2, pred, obs)) + 0.5 * SumSquares(d)
  {
    var r := VecSub(pred, obs);
    var r' := VecSub(pred', obs);
    forall k | 0 <= k < |r| ensures r'[k] == r[k] + d[k] {
      assert r'[k] == pred'[k] - obs[k];
    }
    DotOfSum(r, d, r');
    DotSelf(d);
  }

  /** Moving the prediction along c by h, when g is c against the L2
      derivative, changes the L2 loss by hg plus half the squared length of
      the move. */
  lemma L2AlongScaledDirection(pred: Vector, pred': Vector, obs: Vector, c: Vector, h: real, g: real)
    requires |pred| == |pred'| == |obs| == |c|
    requires forall k :: 0 <= k < |pred| ==> pred'[k] == pred[k] + h * c[k]
    requires g == Dot(c, VectorLossDerivative(L2, pred, obs))
    ensures VectorLoss(L2, pred', obs) == VectorLoss(L2, pred, obs) + h * g + 0.5 * SumSquares(VecSub(pred', pred))
  {
    var d := VecSub(pred', pred);
    L2AlongDirection(pred, pred', obs, d);
    DotScale(d, c, VectorLossDerivative(L2, pred, obs), h, g);
  }

  /** The L2 derivative is the exact gradient of the L2 loss: moving
      prediction entry k by h changes the loss by h times entry k of the
      derivative, plus h^2 / 2 and nothing else. */
  lemma L2DerivativeIsGradient(pred: Vector, obs: Vector, k: nat, h: real)
    requires |pred| == |obs| && k < |pred|
    ensures VectorLoss(L2, pred[k := pred[k] + h], obs)
         == VectorLoss(L2, pred, obs) + h * VectorLossDerivative(L2, pred, obs)[k] + 0.5 * (h * h)
  {
    var r := VecSub(pred, obs);
    var r' := VecSub(pred[k := pred[k] + h], obs);
    assert r' == r[k := r[k] + h];
    DotSelf(r);
    DotSelf(r');
    SumSquaresShift(r, k, h);
  }
}
