/** The fully-connected layer `fc` (main.py:121-135) and its adjoint
    `get_derivative_fcout` (main.py:300-315). */
module Dense {
  import opened Tensors

  /** Column k of a matrix, `w[:, k]`. */
  function Column(w: Matrix, k: nat): (col: Vector)
    requires forall i :: 0 <= i < |w| ==> k < |w[i]|
    ensures |col| == |w| && forall i :: 0 <= i < |w| ==> col[i] == w[i][k]
  {
    seq(|w|, i requires 0 <= i < |w| => w[i][k])
  }

  /** `np.matmul(v, w)` of a vector and a (|v|, n) matrix. */
  function VecMat(v: Vector, w: Matrix, n: nat): (y: Vector)
    requires IsMatrix(w, |v|, n)
    ensures |y| == n
  {
    seq(n, k requires 0 <= k < n => Dot(v, Column(w, k)))
  }

  /** `np.matmul(w, g[:, None])` of an (m, |g|) matrix and a column, as a vector. */
  function MatVec(w: Matrix, g: Vector): (y: Vector)
    requires IsMatrix(w, |w|, |g|)
    ensures |y| == |w|
  {
    seq(|w|, i requires 0 <= i < |w| => Dot(w[i], g))
  }

  /** `np.matmul(x[:, None], g[:, None].transpose())`. */
  function Outer(x: Vector, g: Vector): (m: Matrix)
    ensures IsMatrix(m, |x|, |g|)
  {
    seq(|x|, i requires 0 <= i < |x| => Scale(x[i], g))
  }

  /** `fc(data_in, weights, bias)`: flatten, then check the weights' rows against
      the flattened length and their columns against the bias (main.py:127-128). */
  function Fc(data: NdArray, w: Matrix, b: Vector): (r: Result<Vector>)
    requires WellFormed2(w)
    ensures r.Ok? <==> |Flatten(data)| == |w| && Cols(w) == |b|
    ensures r.Err? ==> r.error == ShapeMismatch
    ensures r.Ok? ==> |r.value| == |b|
    ensures r.Ok? ==> forall k :: 0 <= k < |b| ==> r.value[k] == Dot(Flatten(data), Column(w, k)) + b[k]
  {
    var x := Flatten(data);
    if |x| != |w| || Cols(w) != |b| then Err(ShapeMismatch)
    else Ok(Add(VecMat(x, w, Cols(w)), b))
  }

  /** The three gradients of `y = x W + b`: weights, bias (as a column) and input. */
  datatype DenseGrad = DenseGrad(dw: Matrix, db: Vector, dx: Vector)

  /** `get_derivative_fcout(input_vec, fc_weights, fc_bias, bp_gradient)`: dw must
      have the weights' shape (main.py:309) and db the bias's (main.py:312). */
  function FcoutDerivative(x: Vector, w: Matrix, b: Vector, g: Vector): (r: Result<DenseGrad>)
    requires WellFormed2(w)
    ensures r.Ok? <==> |x| == |w| && |g| == Cols(w) && |g| == |b|
    ensures r.Err? ==> r.error == ShapeMismatch
    ensures r.Ok? ==> IsMatrix(r.value.dw, |w|, Cols(w)) && r.value.db == g && |r.value.dx| == |w|
    ensures r.Ok? ==> forall i, k :: 0 <= i < |x| && 0 <= k < |g| ==> r.value.dw[i][k] == x[i] * g[k]
    ensures r.Ok? ==> forall i :: 0 <= i < |w| ==> r.value.dx[i] == Dot(w[i], g)
  {
    if |x| != |w| || |g| != Cols(w) || |g| != |b| then Err(ShapeMismatch)
    else Ok(DenseGrad(Outer(x, g), g, MatVec(w, g)))
  }

  /** Peeling the first row off a vector-matrix product. */
  lemma VecMatCons(v: Vector, w: Matrix, n: nat)
    requires IsMatrix(w, |v|, n) && |v| > 0
    ensures VecMat(v, w, n) == Add(Scale(v[0], w[0]), VecMat(v[1..], w[1..], n))
  {
    forall k | 0 <= k < n ensures VecMat(v, w, n)[k] == Add(Scale(v[0], w[0]), VecMat(v[1..], w[1..], n))[k] {
      assert Column(w, k)[1..] == Column(w[1..], k);
    }
  }

  /** The transpose identity <v W, g> = <v, W g>. */
  lemma {:induction false} VecMatAdjoint(v: Vector, w: Matrix, n: nat, g: Vector)
    requires IsMatrix(w, |v|, n) && |g| == n
    ensures Dot(VecMat(v, w, n), g) == Dot(v, MatVec(w, g))
  {
    if |v| == 0 {
      assert VecMat(v, w, n) == Zeros(n);
      DotZeros(g);
    } else {
      var u, rest := MatVec(w, g), VecMat(v[1..], w[1..], n);
      VecMatCons(v, w, n);
      DotAdd(Scale(v[0], w[0]), rest, g);
      DotScale(v[0], w[0], g);
      VecMatAdjoint(v[1..], w[1..], n, g);
      assert u[1..] == MatVec(w[1..], g);
      assert Dot(VecMat(v, w, n), g) == v[0] * Dot(w[0], g) + Dot(rest, g);
      assert Dot(v, u) == v[0] * Dot(w[0], g) + Dot(v[1..], u[1..]);
    }
  }

  /** <x g^T, V> = <x, V g>. */
  lemma {:induction false} OuterFrob(x: Vector, g: Vector, v: Matrix)
    requires IsMatrix(v, |x|, |g|)
    ensures SameShape2(Outer(x, g), v)
    ensures Frob2(Outer(x, g), v) == Dot(x, MatVec(v, g))
  {
    if |x| > 0 {
      var o, u := Outer(x, g), MatVec(v, g);
      assert o[1..] == Outer(x[1..], g);
      OuterFrob(x[1..], g, v[1..]);
      DotScale(x[0], g, v[0]);
      DotComm(g, v[0]);
      assert u[1..] == MatVec(v[1..], g);
      assert Frob2(o, v) == Dot(o[0], v[0]) + Frob2(o[1..], v[1..]);
      assert Dot(x, u) == x[0] * Dot(v[0], g) + Dot(x[1..], u[1..]);
    }
  }

  /** dx is the adjoint of the layer in its input: pairing the output for any
      input v with g gives <v, dx> plus the bias's share <b, g>. */
  lemma FcInputGradientIsAdjoint(x: Vector, w: Matrix, b: Vector, g: Vector, v: Vector)
    requires WellFormed2(w) && FcoutDerivative(x, w, b, g).Ok? && |v| == |w|
    ensures Fc(Vec(v), w, b).Ok?
    ensures Dot(Fc(Vec(v), w, b).value, g) == Dot(v, FcoutDerivative(x, w, b, g).value.dx) + Dot(b, g)
  {
    DotAdd(VecMat(v, w, Cols(w)), b, g);
    VecMatAdjoint(v, w, Cols(w), g);
  }

  /** dw is the adjoint of the layer in its weights: for the input x and any
      weights V of W's shape, pairing the output with g gives <dw, V> plus <b, g>. */
  lemma FcWeightGradientIsAdjoint(x: Vector, w: Matrix, b: Vector, g: Vector, v: Matrix)
    requires WellFormed2(w) && FcoutDerivative(x, w, b, g).Ok? && IsMatrix(v, |w|, Cols(w))
    ensures WellFormed2(v) && Fc(Vec(x), v, b).Ok?
    ensures SameShape2(FcoutDerivative(x, w, b, g).value.dw, v)
    ensures Dot(Fc(Vec(x), v, b).value, g) == Frob2(FcoutDerivative(x, w, b, g).value.dw, v) + Dot(b, g)
  {
    DotAdd(VecMat(x, v, Cols(v)), b, g);
    VecMatAdjoint(x, v, Cols(v), g);
    OuterFrob(x, g, v);
  }

  /** db is the adjoint of the layer in its bias: shifting the bias by d moves
      the output's pairing with g by <d, db>. */
  lemma FcBiasGradientIsAdjoint(x: Vector, w: Matrix, b: Vector, g: Vector, d: Vector)
    requires WellFormed2(w) && FcoutDerivative(x, w, b, g).Ok? && |d| == |b|
    ensures Fc(Vec(x), w, Add(b, d)).Ok? && Fc(Vec(x), w, b).Ok?
    ensures Dot(Fc(Vec(x), w, Add(b, d)).value, g)
      == Dot(Fc(Vec(x), w, b).value, g) + Dot(d, FcoutDerivative(x, w, b, g).value.db)
  {
    var y := VecMat(x, w, Cols(w));
    assert Add(y, Add(b, d)) == Add(Add(y, b), d);
    DotAdd(Add(y, b), d, g);
    DotComm(d, g);
  }
}
