/** The convolution adjoint pieces inside `train`: `rot180` (main.py:348-356),
    the weight gradient loop of `get_derivative_conv` (main.py:366-372) and of
    `get_derivative_conv1` (main.py:397-403), and their bias gradient, the
    per-channel sum of the upstream gradient (main.py:387, main.py:409). */
module ConvGradient {
  import opened Tensors
  import opened Padding
  import opened Convolution

  // ------------------------------------------------------------- rot180

  /** Every (fl, fw) slice of the filter bank turned by 180 degrees,
      `np.flipud(np.fliplr(...))`; the shape is unchanged. */
  function Rotated180(f: Tensor4): (r: Tensor4)
    requires WellFormed4(f)
    ensures WellFormed4(r) && IsTensor4(r, |f|, FilterWidth(f), FilterHeight(f), FilterNum(f))
  {
    var fl, fw, h, n := |f|, FilterWidth(f), FilterHeight(f), FilterNum(f);
    seq(fl, a requires 0 <= a < fl =>
      seq(fw, b requires 0 <= b < fw =>
        seq(h, c requires 0 <= c < h =>
          seq(n, k requires 0 <= k < n => f[fl - 1 - a][fw - 1 - b][c][k]))))
  }

  /** Turning twice gives the filters back. */
  lemma Rot180Involution(f: Tensor4)
    requires WellFormed4(f)
    ensures Rotated180(Rotated180(f)) == f
  {
    var fl, fw, h, n := |f|, FilterWidth(f), FilterHeight(f), FilterNum(f);
    var r := Rotated180(f);
    var rr := Rotated180(r);
    forall a, b, c, k | 0 <= a < fl && 0 <= b < fw && 0 <= c < h && 0 <= k < n
      ensures rr[a][b][c][k] == f[a][b][c][k]
    {
      assert rr[a][b][c][k] == r[fl - 1 - a][fw - 1 - b][c][k];
    }
    Ext4(rr, f, fl, fw, h, n);
  }

  /** `rot180(conv_filters)` as the source runs it: one slice per filter and
      input channel (main.py:353-355), written into a zero array. */
  method Rot180(f: Tensor4) returns (r: Tensor4)
    requires WellFormed4(f)
    ensures r == Rotated180(f)
  {
    var fl, fw, h, n := |f|, FilterWidth(f), FilterHeight(f), FilterNum(f);
    var rot := new real[fl, fw, h, n]((a, b, c, k) => 0.0);
    for k := 0 to n
      invariant forall a, b, c, k' :: 0 <= a < fl && 0 <= b < fw && 0 <= c < h && 0 <= k' < k ==>
        rot[a, b, c, k'] == f[fl - 1 - a][fw - 1 - b][c][k']
    {
      for c := 0 to h
        invariant forall a, b, c', k' ::
          0 <= a < fl && 0 <= b < fw && 0 <= c' < h && 0 <= k' < n && (k' < k || (k' == k && c' < c)) ==>
            rot[a, b, c', k'] == f[fl - 1 - a][fw - 1 - b][c'][k']
      {
        RotateSlice(rot, f, c, k);
      }
    }
    r := Contents4(rot);
    Rotated180FromEntries(r, f);
  }

  /** A tensor of f's shape holding f's entries turned by 180 degrees is the turned tensor. */
  lemma Rotated180FromEntries(r: Tensor4, f: Tensor4)
    requires WellFormed4(f) && IsTensor4(r, |f|, FilterWidth(f), FilterHeight(f), FilterNum(f))
    requires forall a, b, c, k :: 0 <= a < |f| && 0 <= b < FilterWidth(f) && 0 <= c < FilterHeight(f) && 0 <= k < FilterNum(f) ==>
      r[a][b][c][k] == f[|f| - 1 - a][FilterWidth(f) - 1 - b][c][k]
    ensures r == Rotated180(f)
  {
    Ext4(r, Rotated180(f), |f|, FilterWidth(f), FilterHeight(f), FilterNum(f));
  }

  /** main.py:355: slice (c, k) of the filters turned by 180 degrees. */
  method RotateSlice(rot: array4<real>, f: Tensor4, c: nat, k: nat)
    requires WellFormed4(f) && IsTensor4(f, rot.Length0, rot.Length1, rot.Length2, rot.Length3)
    requires c < rot.Length2 && k < rot.Length3
    modifies rot
    ensures forall a, b :: 0 <= a < rot.Length0 && 0 <= b < rot.Length1 ==>
      rot[a, b, c, k] == f[|f| - 1 - a][rot.Length1 - 1 - b][c][k]
    ensures forall a, b, c', k' ::
      0 <= a < rot.Length0 && 0 <= b < rot.Length1 && 0 <= c' < rot.Length2 && 0 <= k' < rot.Length3 && (c' != c || k' != k) ==>
        rot[a, b, c', k'] == old(rot[a, b, c', k'])
  {
    forall a, b | 0 <= a < rot.Length0 && 0 <= b < rot.Length1 {
      rot[a, b, c, k] := f[|f| - 1 - a][rot.Length1 - 1 - b][c][k];
    }
  }

  // ----------------------------------------------------- weight gradient

  /** `input_img[:,:,j][:,:,None]`: channel j as a single-channel map. */
  function Channel(x: Tensor3, j: nat): (m: Tensor3)
    requires WellFormed3(x) && j < Height(x)
    ensures WellFormed3(m) && IsTensor3(m, |x|, Width(x), 1)
    ensures forall p, q :: 0 <= p < |x| && 0 <= q < Width(x) ==> m[p][q][0] == x[p][q][j]
  {
    seq(|x|, p requires 0 <= p < |x| => seq(Width(x), q requires 0 <= q < Width(x) => [x[p][q][j]]))
  }

  /** `bp_gradient[:,:,i][:,:,None,None]`: gradient channel i as one filter with
      one input and one output channel. */
  function Kernel(g: Tensor3, i: nat): (k: Tensor4)
    requires WellFormed3(g) && i < Height(g)
    ensures WellFormed4(k) && IsTensor4(k, |g|, Width(g), 1, 1)
    ensures forall u, v :: 0 <= u < |g| && 0 <= v < Width(g) ==> k[u][v][0][0] == g[u][v][i]
  {
    seq(|g|, u requires 0 <= u < |g| => seq(Width(g), v requires 0 <= v < Width(g) => [[g[u][v][i]]]))
  }

  /** numpy accepts assigning a (p, q) array to an (fl, fw) slot when each size
      matches or is 1, the size-1 axes being repeated. */
  predicate Broadcastable(p: nat, q: nat, fl: nat, fw: nat) {
    (p == fl || p == 1) && (q == fw || q == 1)
  }

  /** The loop nest at main.py:366-372 runs to the end: every gradient channel
      and input channel it indexes exists, the correlation is defined, and its
      result fits the filter slot. */
  predicate WeightGradientAccepts(x: Tensor3, f: Tensor4, g: Tensor3)
    requires WellFormed3(x) && WellFormed4(f) && WellFormed3(g)
  {
    && FilterNum(f) <= Height(g) && FilterHeight(f) <= Height(x)
    && |g| <= |x| && Width(g) <= Width(x)
    && Broadcastable(|x| - |g| + 1, Width(x) - Width(g) + 1, |f|, FilterWidth(f))
  }

  /** `conv(input_img[:,:,c][:,:,None], tmp_filter, tmp_bias)[:,:,0]` read at
      slot cell (a, b) after broadcasting. */
  function SlotValue(x: Tensor3, g: Tensor3, c: nat, k: nat, a: nat, b: nat): real
    requires WellFormed3(x) && WellFormed3(g) && c < Height(x) && k < Height(g)
    requires |g| <= |x| && Width(g) <= Width(x)
    requires |x| - |g| + 1 == 1 || a < |x| - |g| + 1
    requires Width(x) - Width(g) + 1 == 1 || b < Width(x) - Width(g) + 1
  {
    var s := Convolved(Channel(x, c), Kernel(g, k), [0.0]).value;
    s[if |s| == 1 then 0 else a][if Width(s) == 1 then 0 else b][0]
  }

  /** `dw` of `get_derivative_conv`: slot (:, :, c, k) is input channel c
      correlated with gradient channel k, broadcast to the filter's size. */
  function WeightGradientOf(x: Tensor3, f: Tensor4, g: Tensor3): (r: Result<Tensor4>)
    requires WellFormed3(x) && WellFormed4(f) && WellFormed3(g)
    ensures r.Ok? <==> WeightGradientAccepts(x, f, g)
    ensures r.Err? ==> r.error == ShapeMismatch
    ensures r.Ok? ==> IsTensor4(r.value, |f|, FilterWidth(f), FilterHeight(f), FilterNum(f))
  {
    if !WeightGradientAccepts(x, f, g) then Err(ShapeMismatch)
    else
      var fl, fw, h, n := |f|, FilterWidth(f), FilterHeight(f), FilterNum(f);
      Ok(seq(fl, a requires 0 <= a < fl =>
        seq(fw, b requires 0 <= b < fw =>
          seq(h, c requires 0 <= c < h =>
            seq(n, k requires 0 <= k < n => SlotValue(x, g, c, k, a, b))))))
  }

  /** When the correlation has the filter's size, dw[a][b][c][k] is the sum over
      (u, v) of x[a+u][b+v][c] * g[u][v][k]. */
  lemma WeightGradientAt(x: Tensor3, f: Tensor4, g: Tensor3, a: nat, b: nat, c: nat, k: nat)
    requires WellFormed3(x) && WellFormed4(f) && WellFormed3(g) && WeightGradientOf(x, f, g).Ok?
    requires |x| - |g| + 1 == |f| && Width(x) - Width(g) + 1 == FilterWidth(f)
    requires a < |f| && b < FilterWidth(f) && c < FilterHeight(f) && k < FilterNum(f)
    ensures WeightGradientOf(x, f, g).value[a][b][c][k]
      == Frob3(Patch(Channel(x, c), a, b, |g|, Width(g)), FilterSlice(Kernel(g, k), 0))
  {
    ConvolvedAt(Channel(x, c), Kernel(g, k), [0.0], a, b, 0);
  }

  /** When the correlation is a single value (the gradient as large as the
      input), numpy repeats it over the whole slot. */
  lemma WeightGradientBroadcastsScalar(x: Tensor3, f: Tensor4, g: Tensor3, a: nat, b: nat, c: nat, k: nat)
    requires WellFormed3(x) && WellFormed4(f) && WellFormed3(g) && WeightGradientOf(x, f, g).Ok?
    requires |g| == |x| && Width(g) == Width(x)
    requires a < |f| && b < FilterWidth(f) && c < FilterHeight(f) && k < FilterNum(f)
    ensures WeightGradientOf(x, f, g).value[a][b][c][k]
      == Frob3(Channel(x, c), FilterSlice(Kernel(g, k), 0))
  {
    ConvolvedAt(Channel(x, c), Kernel(g, k), [0.0], 0, 0, 0);
    Ext3(Patch(Channel(x, c), 0, 0, |g|, Width(g)), Channel(x, c), |x|, Width(x), 1);
  }

  /** The weight gradient as the source runs it: a zero array filled slot by
      slot, each slot from one call of the im2col convolution. */
  method WeightGradient(x: Tensor3, f: Tensor4, g: Tensor3) returns (r: Result<Tensor4>)
    requires WellFormed3(x) && WellFormed4(f) && WellFormed3(g)
    ensures r == WeightGradientOf(x, f, g)
  {
    if !WeightGradientAccepts(x, f, g) {
      return Err(ShapeMismatch);
    }
    var fl, fw, h, n := |f|, FilterWidth(f), FilterHeight(f), FilterNum(f);
    var dw := new real[fl, fw, h, n]((a, b, c, k) => 0.0);
    for i := 0 to n
      invariant forall a, b, c, k :: 0 <= a < fl && 0 <= b < fw && 0 <= c < h && 0 <= k < i ==>
        dw[a, b, c, k] == SlotValue(x, g, c, k, a, b)
    {
      for j := 0 to h
        invariant forall a, b, c, k ::
          0 <= a < fl && 0 <= b < fw && 0 <= c < h && 0 <= k < n && (k < i || (k == i && c < j)) ==>
            dw[a, b, c, k] == SlotValue(x, g, c, k, a, b)
      {
        var s := Conv(Channel(x, j), Kernel(g, i), [0.0]);
        FillSlot(dw, s.value, x, g, j, i);
      }
    }
    var out := Contents4(dw);
    WeightGradientFromEntries(out, x, f, g);
    r := Ok(out);
  }

  /** A tensor of the filters' shape holding every slot value is the weight gradient. */
  lemma WeightGradientFromEntries(out: Tensor4, x: Tensor3, f: Tensor4, g: Tensor3)
    requires WellFormed3(x) && WellFormed4(f) && WellFormed3(g) && WeightGradientAccepts(x, f, g)
    requires IsTensor4(out, |f|, FilterWidth(f), FilterHeight(f), FilterNum(f))
    requires forall a, b, c, k :: 0 <= a < |f| && 0 <= b < FilterWidth(f) && 0 <= c < FilterHeight(f) && 0 <= k < FilterNum(f) ==>
      out[a][b][c][k] == SlotValue(x, g, c, k, a, b)
    ensures WeightGradientOf(x, f, g) == Ok(out)
  {
    Ext4(out, WeightGradientOf(x, f, g).value, |f|, FilterWidth(f), FilterHeight(f), FilterNum(f));
  }

  /** main.py:372: `dw[:,:,j,i] = s[:,:,0]`, with numpy's broadcast of a size-1 axis. */
  method FillSlot(dw: array4<real>, s: Tensor3, x: Tensor3, g: Tensor3, j: nat, i: nat)
    requires WellFormed3(x) && WellFormed3(g) && j < Height(x) && i < Height(g)
    requires |g| <= |x| && Width(g) <= Width(x)
    requires s == Convolved(Channel(x, j), Kernel(g, i), [0.0]).value
    requires Broadcastable(|x| - |g| + 1, Width(x) - Width(g) + 1, dw.Length0, dw.Length1)
    requires j < dw.Length2 && i < dw.Length3
    modifies dw
    ensures forall a, b, c, k :: 0 <= a < dw.Length0 && 0 <= b < dw.Length1 && 0 <= c < dw.Length2 && 0 <= k < dw.Length3 ==>
      dw[a, b, c, k] == if c == j && k == i then SlotValue(x, g, c, k, a, b) else old(dw[a, b, c, k])
  {
    forall a, b | 0 <= a < dw.Length0 && 0 <= b < dw.Length1 {
      dw[a, b, j, i] := s[if |s| == 1 then 0 else a][if |s[0]| == 1 then 0 else b][0];
    }
  }

  // ------------------------------------------------------- bias gradient

  /** numpy `sum(axis=0)` of a list of vectors of length h. */
  function VecSum(vs: seq<Vector>, h: nat): (s: Vector)
    requires forall i :: 0 <= i < |vs| ==> |vs[i]| == h
    ensures |s| == h
  {
    if |vs| == 0 then Zeros(h) else Add(vs[0], VecSum(vs[1..], h))
  }

  /** `np.sum(bp_gradient, axis=1)`: each row summed over its columns. */
  function RowSums(g: Tensor3, h: nat): (m: Matrix)
    requires IsTensor3(g, |g|, if |g| == 0 then 0 else |g[0]|, h)
    ensures IsMatrix(m, |g|, h)
  {
    seq(|g|, i requires 0 <= i < |g| => VecSum(g[i], h))
  }

  /** `np.sum(np.sum(bp_gradient, axis=1), axis=0)`: per channel, the sum of the
      gradient over all pixels. */
  function SpatialSum(g: Tensor3): (s: Vector)
    requires WellFormed3(g)
    ensures |s| == Height(g)
  {
    VecSum(RowSums(g, Height(g)), Height(g))
  }

  /** `db` of `get_derivative_conv` and `get_derivative_conv1`: the sum must have
      the bias's shape (main.py:388, main.py:410). */
  function BiasGradient(g: Tensor3, bias: Vector): (r: Result<Vector>)
    requires WellFormed3(g)
    ensures r.Ok? <==> Height(g) == |bias|
    ensures r.Err? ==> r.error == ShapeMismatch
    ensures r.Ok? ==> |r.value| == |bias|
  {
    if Height(g) != |bias| then Err(ShapeMismatch) else Ok(SpatialSum(g))
  }

  /** The bias vector v as seen by every pixel of an l x w map. */
  function Broadcast(v: Vector, l: nat, w: nat): (t: Tensor3)
    ensures IsTensor3(t, l, w, |v|)
    ensures forall i, j, k :: 0 <= i < l && 0 <= j < w && 0 <= k < |v| ==> t[i][j][k] == v[k]
  {
    seq(l, _ => seq(w, _ => v))
  }

  lemma {:induction false} VecSumDot(vs: seq<Vector>, h: nat, v: Vector)
    requires forall i :: 0 <= i < |vs| ==> |vs[i]| == h
    requires |v| == h
    ensures IsMatrix(seq(|vs|, _ => v), |vs|, h)
    ensures Dot(VecSum(vs, h), v) == Frob2(vs, seq(|vs|, _ => v))
  {
    if |vs| == 0 {
      DotZeros(v);
    } else {
      DotAdd(vs[0], VecSum(vs[1..], h), v);
      VecSumDot(vs[1..], h, v);
      assert seq(|vs|, _ => v)[1..] == seq(|vs| - 1, _ => v);
    }
  }

  lemma {:induction false} RowSumsDot(g: Tensor3, l: nat, w: nat, h: nat, v: Vector)
    requires IsTensor3(g, l, w, h) && |v| == h && l > 0
    ensures Frob2(RowSums(g, h), seq(l, _ => v)) == Frob3(g, Broadcast(v, l, w))
    decreases l
  {
    VecSumDot(g[0], h, v);
    assert seq(l, _ => v)[1..] == seq(l - 1, _ => v);
    assert Broadcast(v, l, w)[1..] == Broadcast(v, l - 1, w);
    assert Broadcast(v, l, w)[0] == seq(|g[0]|, _ => v);
    if l > 1 {
      assert RowSums(g, h)[1..] == RowSums(g[1..], h);
      RowSumsDot(g[1..], l - 1, w, h, v);
    } else {
      assert RowSums(g, h)[1..] == [];
    }
  }

  /** Pairing the spatial sum with v equals pairing the gradient with v repeated
      at every pixel. */
  lemma SpatialSumDot(g: Tensor3, v: Vector)
    requires WellFormed3(g) && |v| == Height(g)
    ensures Dot(SpatialSum(g), v) == Frob3(g, Broadcast(v, |g|, Width(g)))
  {
    VecSumDot(RowSums(g, Height(g)), Height(g), v);
    RowSumsDot(g, |g|, Width(g), Height(g), v);
  }

  /** db is the adjoint of the convolution in its bias: shifting the bias by d
      moves the output's pairing with the upstream gradient g by <db, d>. */
  lemma BiasGradientIsAdjoint(x: Tensor3, f: Tensor4, bias: Vector, d: Vector, g: Tensor3)
    requires WellFormed3(x) && WellFormed4(f) && ConvAccepts(x, f, bias) && |d| == |bias|
    requires WellFormed3(g) && IsTensor3(g, |x| - |f| + 1, Width(x) - FilterWidth(f) + 1, FilterNum(f))
    ensures Convolved(x, f, Add(bias, d)).Ok? && BiasGradient(g, bias).Ok?
    ensures Frob3(g, Convolved(x, f, Add(bias, d)).value)
      == Frob3(g, Convolved(x, f, bias).value) + Dot(BiasGradient(g, bias).value, d)
  {
    var l, w, n := |x| - |f| + 1, Width(x) - FilterWidth(f) + 1, FilterNum(f);
    var y := Convolved(x, f, bias).value;
    var y' := Convolved(x, f, Add(bias, d)).value;
    var b := Broadcast(d, l, w);
    forall i, j, k | 0 <= i < l && 0 <= j < w && 0 <= k < n ensures y'[i][j][k] == y[i][j][k] + b[i][j][k] {
      ConvolvedAt(x, f, bias, i, j, k);
      ConvolvedAt(x, f, Add(bias, d), i, j, k);
    }
    Frob3Sum(g, y, b, y', l, w, n);
    SpatialSumDot(g, d);
  }

  // ------------------------------------------------------ the two helpers

  datatype ConvGrad = ConvGrad(dw: Tensor4, db: Vector)

  /** dw and db of `get_derivative_conv`, the weight gradient checked first. */
  function ConvDerivativeOf(x: Tensor3, f: Tensor4, bias: Vector, g: Tensor3): (r: Result<ConvGrad>)
    requires WellFormed3(x) && WellFormed4(f) && WellFormed3(g)
    ensures r.Ok? <==> WeightGradientAccepts(x, f, g) && Height(g) == |bias|
    ensures r.Err? ==> r.error == ShapeMismatch
    ensures r.Ok? ==> r.value.dw == WeightGradientOf(x, f, g).value && r.value.db == SpatialSum(g)
  {
    var dw :- WeightGradientOf(x, f, g);
    var db :- BiasGradient(g, bias);
    Ok(ConvGrad(dw, db))
  }

  /** `get_derivative_conv(input_img, filter, filter_bias, bp_gradient, conv_output)`
      without its input gradient: the dw loop, then the bias sum. */
  method DerivativeConv(x: Tensor3, f: Tensor4, bias: Vector, g: Tensor3) returns (r: Result<ConvGrad>)
    requires WellFormed3(x) && WellFormed4(f) && WellFormed3(g)
    ensures r == ConvDerivativeOf(x, f, bias, g)
  {
    var dw := WeightGradient(x, f, g);
    if dw.Err? {
      return Err(dw.error);
    }
    var db := BiasGradient(g, bias);
    if db.Err? {
      return Err(db.error);
    }
    r := Ok(ConvGrad(dw.value, db.value));
  }

  /** `get_derivative_conv1(input_img, filter, filter_bias, bp_gradient, conv_output)`:
      the same dw loop and bias sum on a one-channel image (main.py:393-411). */
  method DerivativeConv1(img: Matrix, f: Tensor4, bias: Vector, g: Tensor3) returns (r: Result<ConvGrad>)
    requires WellFormed2(img) && WellFormed4(f) && WellFormed3(g)
    ensures r == ConvDerivativeOf(AsVolume(img), f, bias, g)
  {
    r := DerivativeConv(AsVolume(img), f, bias, g);
  }

  // ------------------------------------------ the conv1 call of backprob

  /** `backprob` hands `get_derivative_conv1` the unpadded 128x128 image
      (main.py:560) while `forward` convolved the image padded by 2
      (main.py:441-445). Against the 128x128 upstream gradient the correlation
      is then a single value, which numpy repeats over the whole 5x5 slot:
      every cell of a slot holds the same number. */
  lemma Conv1GradientAsWrittenIsFlat(data: Matrix, f: Tensor4, g: Tensor3, a: nat, b: nat, k: nat)
    requires IsMatrix(data, 128, 128) && IsTensor4(f, 5, 5, 1, 96) && IsTensor3(g, 128, 128, 96)
    requires a < 5 && b < 5 && k < 96
    ensures WellFormed2(data) && WellFormed4(f) && WellFormed3(g)
    ensures WeightGradientOf(AsVolume(data), f, g).Ok?
    ensures WeightGradientOf(AsVolume(data), f, g).value[a][b][0][k]
      == WeightGradientOf(AsVolume(data), f, g).value[0][0][0][k]
      == Frob3(AsVolume(data), FilterSlice(Kernel(g, k), 0))
  {
    var x := AsVolume(data);
    WeightGradientBroadcastsScalar(x, f, g, a, b, 0, k);
    WeightGradientBroadcastsScalar(x, f, g, 0, 0, 0, k);
    Ext3(Channel(x, 0), x, 128, 128, 1);
  }

  /** On the padded image the forward pass used, the correlation has the
      filter's 5x5 size and cell (a, b) of slot k pairs gradient channel k with
      the padded image shifted by (a, b): the weight gradient of conv1. */
  lemma Conv1GradientOnPaddedInput(data: Matrix, f: Tensor4, g: Tensor3, a: nat, b: nat, k: nat)
    requires IsMatrix(data, 128, 128) && IsTensor4(f, 5, 5, 1, 96) && IsTensor3(g, 128, 128, 96)
    requires a < 5 && b < 5 && k < 96
    ensures WellFormed3(AsVolume(PadMatrix(data, 2))) && WellFormed4(f) && WellFormed3(g)
    ensures WeightGradientOf(AsVolume(PadMatrix(data, 2)), f, g).Ok?
    ensures WeightGradientOf(AsVolume(PadMatrix(data, 2)), f, g).value[a][b][0][k]
      == Frob3(Patch(AsVolume(PadMatrix(data, 2)), a, b, 128, 128), FilterSlice(Kernel(g, k), 0))
  {
    var x := AsVolume(PadMatrix(data, 2));
    assert IsTensor3(x, 132, 132, 1);
    WeightGradientAt(x, f, g, a, b, 0, k);
    Ext3(Patch(Channel(x, 0), a, b, 128, 128), Patch(x, a, b, 128, 128), 128, 128, 1);
  }
}
