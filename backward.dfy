/** The routing adjoints inside `train`: `get_derivative_mfm` (main.py:427-436),
    `get_derivate_mfm_fc1` (main.py:317-328) and `get_derivative_pool`
    (main.py:413-424). Each spreads the upstream gradient back over the
    forward input's shape and keeps it only where the forward location mask is
    true. */
module Backward {
  import opened Tensors
  import opened MaxFeatureMap
  import opened Pooling

  // ---------------------------------------------------------------- mfm

  /** Channel c of a doubled vector of h channels comes from channel c mod h. */
  lemma ModHalf(c: nat, h: nat)
    requires 0 < h && c < 2 * h
    ensures c % h == if c < h then c else c - h
  {
    if c >= h {
      var q, r := c / h, c % h;
      assert c == q * h + r && 0 <= r < h;
    }
  }

  /** `np.concatenate((g, g), axis=-1)`: every pixel's channels written twice. */
  function Doubled3(g: Tensor3): (d: Tensor3)
    requires WellFormed3(g)
    ensures IsTensor3(d, |g|, Width(g), 2 * Height(g))
    ensures forall i, j, c :: 0 <= i < |g| && 0 <= j < Width(g) && 0 <= c < 2 * Height(g) ==>
      d[i][j][c] == g[i][j][if c < Height(g) then c else c - Height(g)]
  {
    seq(|g|, i requires 0 <= i < |g| => seq(Width(g), j requires 0 <= j < Width(g) => g[i][j] + g[i][j]))
  }

  /** `get_derivative_mfm(location, bp_gradient)`: the mask must have the doubled
      gradient's shape for the product `tmp * location.astype(int)`. */
  function MfmDerivative(location: Mask3, g: Tensor3): (r: Result<Tensor3>)
    requires WellFormed3(g)
    ensures r.Ok? <==> IsMask3(location, |g|, Width(g), 2 * Height(g))
    ensures r.Err? ==> r.error == ShapeMismatch
    ensures r.Ok? ==> IsTensor3(r.value, |g|, Width(g), 2 * Height(g))
  {
    if !IsMask3(location, |g|, Width(g), 2 * Height(g)) then Err(ShapeMismatch)
    else Ok(Masked3(Doubled3(g), location, |g|, Width(g), 2 * Height(g)))
  }

  /** Entry (i, j, c) is g[i][j][c mod h] where the mask is true and 0 where it is false. */
  lemma MfmDerivativeAt(location: Mask3, g: Tensor3, i: nat, j: nat, c: nat)
    requires WellFormed3(g) && MfmDerivative(location, g).Ok?
    requires i < |g| && j < Width(g) && c < 2 * Height(g)
    ensures MfmDerivative(location, g).value[i][j][c] == if location[i][j][c] then g[i][j][c % Height(g)] else 0.0
  {
    ModHalf(c, Height(g));
  }

  /** Routed through the mask of `mfm(x)`, the gradient of output channel c
      reaches the two inputs of its pair twice on a tie and once otherwise. */
  lemma MfmDerivativeRoutesPair(x: Tensor3, g: Tensor3, i: nat, j: nat, c: nat)
    requires WellFormed3(x) && Mfm(x).Ok? && WellFormed3(g) && IsTensor3(g, |x|, Width(x), Height(x) / 2)
    requires i < |x| && j < Width(x) && c < Height(x) / 2
    ensures MfmDerivative(Mfm(x).value.location, g).Ok?
    ensures var d := MfmDerivative(Mfm(x).value.location, g).value;
      d[i][j][c] + d[i][j][c + Height(x) / 2]
        == (if x[i][j][c] == x[i][j][c + Height(x) / 2] then 2.0 else 1.0) * g[i][j][c]
  {
    var h := Height(x) / 2;
    MfmTie(x, i, j, c);
    MfmCoversPair(x, i, j, c);
    MfmDerivativeAt(Mfm(x).value.location, g, i, j, c);
    MfmDerivativeAt(Mfm(x).value.location, g, i, j, c + h);
    ModHalf(c, h);
    ModHalf(c + h, h);
  }

  /** With a unit upstream gradient, a tied pair receives a total of 2. */
  lemma MfmUnitGradientTie(x: Tensor3, i: nat, j: nat, c: nat)
    requires WellFormed3(x) && Mfm(x).Ok?
    requires i < |x| && j < Width(x) && c < Height(x) / 2 && x[i][j][c] == x[i][j][c + Height(x) / 2]
    ensures MfmDerivative(Mfm(x).value.location, Ones3(|x|, Width(x), Height(x) / 2)).Ok?
    ensures var d := MfmDerivative(Mfm(x).value.location, Ones3(|x|, Width(x), Height(x) / 2)).value;
      d[i][j][c] + d[i][j][c + Height(x) / 2] == 2.0
  {
    MfmDerivativeRoutesPair(x, Ones3(|x|, Width(x), Height(x) / 2), i, j, c);
  }

  // ------------------------------------------------------------ mfm_fc1

  /** The width of the first fully-connected layer the adjoint is written for (main.py:324). */
  const Fc1Width: nat := 512

  /** `get_derivate_mfm_fc1(location, bp_gradient)`: the stacked gradient must
      have 512 rows (main.py:324) and the mask as many. */
  function MfmFc1Derivative(location: Mask, g: Vector): (r: Result<Vector>)
    ensures r.Ok? <==> 2 * |g| == Fc1Width && |location| == Fc1Width
    ensures r.Err? ==> r.error == ShapeMismatch
    ensures r.Ok? ==> |r.value| == Fc1Width
    ensures r.Ok? ==> forall c :: 0 <= c < Fc1Width ==>
      r.value[c] == if location[c] then g[c % (Fc1Width / 2)] else 0.0
  {
    var tmp := g + g;
    if |tmp| != Fc1Width || |location| != Fc1Width then Err(ShapeMismatch)
    else Ok(seq(Fc1Width, c requires 0 <= c < Fc1Width => if location[c] then tmp[c] else 0.0))
  }

  /** Through the mask of `mfm_fc(v)`, the pair (c, c + 256) receives g[c] twice on a tie, once otherwise. */
  lemma MfmFc1DerivativeRoutesPair(v: Vector, g: Vector, c: nat)
    requires |v| == Fc1Width && 2 * |g| == Fc1Width && c < Fc1Width / 2
    ensures MfmFc(v).Ok? && MfmFc1Derivative(MfmFc(v).value.location, g).Ok?
    ensures var d := MfmFc1Derivative(MfmFc(v).value.location, g).value;
      d[c] + d[c + Fc1Width / 2] == (if v[c] == v[c + Fc1Width / 2] then 2.0 else 1.0) * g[c]
  {
    LocatedTie(v, c);
    LocatedCoversPair(v, c);
  }

  // --------------------------------------------------------------- pool

  /** `bp_gradient.repeat(2, axis=0).repeat(2, axis=1)`: nearest-neighbour 2x upsampling. */
  function Upsampled(t: Tensor3, l: nat, w: nat, h: nat): (u: Tensor3)
    requires IsTensor3(t, l, w, h)
    ensures IsTensor3(u, 2 * l, 2 * w, h)
    ensures forall i, j, c :: 0 <= i < 2 * l && 0 <= j < 2 * w && 0 <= c < h ==> u[i][j][c] == t[i / 2][j / 2][c]
  {
    seq(2 * l, i requires 0 <= i < 2 * l => seq(2 * w, j requires 0 <= j < 2 * w => t[i / 2][j / 2]))
  }

  /** `get_derivative_pool(location, bp_gradient, pool_output)`: the gradient, of
      any rank, is reshaped to the pooled shape (main.py:418), upsampled
      (main.py:419) and multiplied by a mask of the upsampled shape (main.py:421). */
  function PoolDerivative(location: Mask3, g: NdArray, poolOut: Tensor3): (r: Result<Tensor3>)
    requires WellFormed3(poolOut)
    ensures r.Ok? <==>
      |Flatten(g)| == |poolOut| * (Width(poolOut) * Height(poolOut))
      && IsMask3(location, 2 * |poolOut|, 2 * Width(poolOut), Height(poolOut))
    ensures r.Err? ==> r.error == ShapeMismatch
    ensures r.Ok? ==> IsTensor3(r.value, 2 * |poolOut|, 2 * Width(poolOut), Height(poolOut))
  {
    var l, w, h := |poolOut|, Width(poolOut), Height(poolOut);
    var flat := Flatten(g);
    if |flat| != l * (w * h) then Err(ShapeMismatch)
    else if !IsMask3(location, 2 * l, 2 * w, h) then Err(ShapeMismatch)
    else Ok(Masked3(Upsampled(Unflatten3(flat, l, w, h), l, w, h), location, 2 * l, 2 * w, h))
  }

  /** For a flat (column) gradient: cell (i, j, c) takes element
      (i/2)*w*h + (j/2)*h + c of it where the mask is true, 0 elsewhere. */
  lemma PoolDerivativeAtFlat(location: Mask3, g: NdArray, poolOut: Tensor3, i: nat, j: nat, c: nat)
    requires WellFormed3(poolOut) && |Flatten(g)| == |poolOut| * (Width(poolOut) * Height(poolOut))
    requires IsMask3(location, 2 * |poolOut|, 2 * Width(poolOut), Height(poolOut))
    requires i < 2 * |poolOut| && j < 2 * Width(poolOut) && c < Height(poolOut)
    ensures PoolDerivative(location, g, poolOut).Ok?
    ensures FlatIndex3(Width(poolOut), Height(poolOut), i / 2, j / 2, c) < |Flatten(g)|
    ensures PoolDerivative(location, g, poolOut).value[i][j][c]
      == if location[i][j][c] then Flatten(g)[FlatIndex3(Width(poolOut), Height(poolOut), i / 2, j / 2, c)] else 0.0
  {
    Unflatten3At(Flatten(g), |poolOut|, Width(poolOut), Height(poolOut), i / 2, j / 2, c);
  }

  /** For a gradient already of the pooled shape: out[i][j][c] = g[i/2][j/2][c]
      where the mask is true, 0 elsewhere. */
  lemma PoolDerivativeAt(location: Mask3, g: Tensor3, poolOut: Tensor3, i: nat, j: nat, c: nat)
    requires WellFormed3(poolOut) && IsTensor3(g, |poolOut|, Width(poolOut), Height(poolOut))
    requires IsMask3(location, 2 * |poolOut|, 2 * Width(poolOut), Height(poolOut))
    requires i < 2 * |poolOut| && j < 2 * Width(poolOut) && c < Height(poolOut)
    ensures PoolDerivative(location, Vol(g), poolOut).Ok?
    ensures PoolDerivative(location, Vol(g), poolOut).value[i][j][c]
      == if location[i][j][c] then g[i / 2][j / 2][c] else 0.0
  {
    Unflatten3OfFlatten3(g, |poolOut|, Width(poolOut), Height(poolOut));
  }

  /** Routed through the mask of `pool(x)`, the gradient of every pooled cell
      reaches at least one cell of its 2x2 block. */
  lemma PoolGradientReachesBlock(x: Tensor3, g: Tensor3, i: nat, j: nat, c: nat)
    requires WellFormed3(x) && Pool(x).Ok?
    requires IsTensor3(g, |x| / 2, Width(x) / 2, Height(x))
    requires i < |x| / 2 && j < Width(x) / 2 && c < Height(x)
    ensures PoolDerivative(Pool(x).value.location, Vol(g), Pool(x).value.output).Ok?
    ensures exists p, q ::
      0 <= p < |x| && 0 <= q < Width(x) && InBlock(i, j, p, q) &&
      PoolDerivative(Pool(x).value.location, Vol(g), Pool(x).value.output).value[p][q][c] == g[i][j][c]
  {
    var y := Pool(x).value;
    PoolCoversBlock(x, i, j, c);
    var p, q :| 0 <= p < |x| && 0 <= q < Width(x) && InBlock(i, j, p, q) && y.location[p][q][c];
    PoolDerivativeAt(y.location, g, y.output, p, q, c);
  }

  /** The routed gradient when the upstream gradient of `pool(x)` is 1 everywhere. */
  function UnitPoolGradient(x: Tensor3): (d: Tensor3)
    requires WellFormed3(x) && Pool(x).Ok?
    ensures IsTensor3(d, |x|, Width(x), Height(x))
  {
    var y := Pool(x).value;
    var ones := Ones3(|x| / 2, Width(x) / 2, Height(x));
    PoolDerivativeAt(y.location, ones, y.output, 0, 0, 0);
    PoolDerivative(y.location, Vol(ones), y.output).value
  }

  /** With a unit upstream gradient, a cell receives 1 exactly when it equals
      the pooled maximum of its block, and 0 otherwise. */
  lemma UnitPoolGradientAt(x: Tensor3, p: nat, q: nat, c: nat)
    requires WellFormed3(x) && Pool(x).Ok?
    requires p < |x| && q < Width(x) && c < Height(x)
    ensures UnitPoolGradient(x)[p][q][c] == if x[p][q][c] == Pool(x).value.output[p / 2][q / 2][c] then 1.0 else 0.0
  {
    var y := Pool(x).value;
    PoolDerivativeAt(y.location, Ones3(|x| / 2, Width(x) / 2, Height(x)), y.output, p, q, c);
  }

  /** With a unit upstream gradient, a cell receives 1 exactly when no cell of
      its block exceeds it, and 0 otherwise. */
  lemma PoolUnitGradientAtMax(x: Tensor3, p: nat, q: nat, c: nat)
    requires WellFormed3(x) && Pool(x).Ok?
    requires p < |x| && q < Width(x) && c < Height(x)
    ensures UnitPoolGradient(x)[p][q][c]
      == if forall p', q' :: 0 <= p' < |x| && 0 <= q' < Width(x) && InBlock(p / 2, q / 2, p', q') ==> x[p][q][c] >= x[p'][q'][c]
         then 1.0 else 0.0
  {
    PoolLocationIffBlockMax(x, p, q, c);
    UnitPoolGradientAt(x, p, q, c);
  }

  /** With a unit upstream gradient, the four cells of block (i, j) receive in
      total the number of cells that equal the block's maximum: 1 without a
      tie, up to 4 when all are equal. */
  lemma PoolUnitGradientBlockSum(x: Tensor3, i: nat, j: nat, c: nat)
    requires WellFormed3(x) && Pool(x).Ok?
    requires i < |x| / 2 && j < Width(x) / 2 && c < Height(x)
    ensures var d, m := UnitPoolGradient(x), Pool(x).value.output[i][j][c];
      d[2 * i][2 * j][c] + d[2 * i][2 * j + 1][c] + d[2 * i + 1][2 * j][c] + d[2 * i + 1][2 * j + 1][c]
        == (if x[2 * i][2 * j][c] == m then 1.0 else 0.0) + (if x[2 * i][2 * j + 1][c] == m then 1.0 else 0.0)
         + (if x[2 * i + 1][2 * j][c] == m then 1.0 else 0.0) + (if x[2 * i + 1][2 * j + 1][c] == m then 1.0 else 0.0)
  {
    assert 2 * i + 1 < |x| && 2 * j + 1 < Width(x);
    assert (2 * i) / 2 == i == (2 * i + 1) / 2 && (2 * j) / 2 == j == (2 * j + 1) / 2;
    var d, m := UnitPoolGradient(x), Pool(x).value.output[i][j][c];
    UnitPoolGradientAt(x, 2 * i, 2 * j, c);
    UnitPoolGradientAt(x, 2 * i, 2 * j + 1, c);
    UnitPoolGradientAt(x, 2 * i + 1, 2 * j, c);
    UnitPoolGradientAt(x, 2 * i + 1, 2 * j + 1, c);
    IndicatorSum(d[2 * i][2 * j][c], d[2 * i][2 * j + 1][c], d[2 * i + 1][2 * j][c], d[2 * i + 1][2 * j + 1][c],
      x[2 * i][2 * j][c] == m, x[2 * i][2 * j + 1][c] == m, x[2 * i + 1][2 * j][c] == m, x[2 * i + 1][2 * j + 1][c] == m);
  }

  /** Four 0/1 indicators add up cell by cell. */
  lemma IndicatorSum(a: real, b: real, e: real, f: real, pa: bool, pb: bool, pe: bool, pf: bool)
    requires a == (if pa then 1.0 else 0.0) && b == (if pb then 1.0 else 0.0)
    requires e == (if pe then 1.0 else 0.0) && f == (if pf then 1.0 else 0.0)
    ensures a + b + e + f == (if pa then 1.0 else 0.0) + (if pb then 1.0 else 0.0) + (if pe then 1.0 else 0.0) + (if pf then 1.0 else 0.0)
  {
  }
}
