/** `conv` (main.py:35-61): valid convolution with stride 1, computed as an
    im2col patch matrix times each flattened filter, plus the filter's bias. */
module Convolution {
  import opened Tensors

  /** The fl-by-fw window of x whose top-left corner is (i, j), all channels:
      `data_in[i:i+fl, j:j+fw, :]`. */
  function Patch(x: Tensor3, i: nat, j: nat, fl: nat, fw: nat): (p: Tensor3)
    requires WellFormed3(x) && i + fl <= |x| && j + fw <= Width(x)
    ensures IsTensor3(p, fl, fw, Height(x))
    ensures forall a, b, c :: 0 <= a < fl && 0 <= b < fw && 0 <= c < Height(x) ==>
      p[a][b][c] == x[i + a][j + b][c]
  {
    seq(fl, a requires 0 <= a < fl => x[i + a][j .. j + fw])
  }

  /** One filter of the bank, `filter[:, :, :, k]`. */
  function FilterSlice(f: Tensor4, k: nat): (s: Tensor3)
    requires WellFormed4(f) && k < FilterNum(f)
    ensures IsTensor3(s, |f|, FilterWidth(f), FilterHeight(f))
    ensures forall a, b, c :: 0 <= a < |f| && 0 <= b < FilterWidth(f) && 0 <= c < FilterHeight(f) ==>
      s[a][b][c] == f[a][b][c][k]
  {
    seq(|f|, a requires 0 <= a < |f| =>
      seq(FilterWidth(f), b requires 0 <= b < FilterWidth(f) =>
        seq(FilterHeight(f), c requires 0 <= c < FilterHeight(f) => f[a][b][c][k])))
  }

  /** The assertions of main.py:41-42, and numpy's refusal (a ValueError from
      `np.zeros`) of an output with a negative size. */
  predicate ConvAccepts(x: Tensor3, f: Tensor4, bias: Vector)
    requires WellFormed3(x) && WellFormed4(f)
  {
    && Height(x) == FilterHeight(f)
    && FilterNum(f) == |bias|
    && |f| <= |x| && FilterWidth(f) <= Width(x)
  }

  /** The output in the direct form of main.py:56-60: cell (i, j, k) is the sum of
      the window at (i, j) times filter k, element by element, plus bias k. */
  function Correlate(x: Tensor3, f: Tensor4, bias: Vector): (y: Tensor3)
    requires WellFormed3(x) && WellFormed4(f) && ConvAccepts(x, f, bias)
    ensures WellFormed3(y)
    ensures IsTensor3(y, |x| - |f| + 1, Width(x) - FilterWidth(f) + 1, FilterNum(f))
  {
    var fl, fw := |f|, FilterWidth(f);
    seq(|x| - fl + 1, i requires 0 <= i < |x| - fl + 1 =>
      seq(Width(x) - fw + 1, j requires 0 <= j < Width(x) - fw + 1 =>
        seq(FilterNum(f), k requires 0 <= k < FilterNum(f) =>
          Frob3(Patch(x, i, j, fl, fw), FilterSlice(f, k)) + bias[k])))
  }

  /** `conv(data_in, filter, filter_bias)`: (l, w, h), (fl, fw, h, n), (n) ->
      (l-fl+1, w-fw+1, n), or the failed guard. */
  function Convolved(x: Tensor3, f: Tensor4, bias: Vector): (r: Result<Tensor3>)
    requires WellFormed3(x) && WellFormed4(f)
    ensures r.Ok? <==> ConvAccepts(x, f, bias)
    ensures r.Err? ==> r.error == ShapeMismatch
    ensures r.Ok? ==>
      WellFormed3(r.value) && IsTensor3(r.value, |x| - |f| + 1, Width(x) - FilterWidth(f) + 1, FilterNum(f))
  {
    if ConvAccepts(x, f, bias) then Ok(Correlate(x, f, bias)) else Err(ShapeMismatch)
  }

  /** Cell (i, j, k) of the output is the sum over (a, b, c) of
      x[i+a][j+b][c] * f[a][b][c][k], plus bias[k] (the Patch and FilterSlice
      postconditions give the two factors). */
  lemma ConvolvedAt(x: Tensor3, f: Tensor4, bias: Vector, i: nat, j: nat, k: nat)
    requires WellFormed3(x) && WellFormed4(f) && ConvAccepts(x, f, bias)
    requires i <= |x| - |f| && j <= Width(x) - FilterWidth(f) && k < FilterNum(f)
    ensures Convolved(x, f, bias).value[i][j][k]
      == Frob3(Patch(x, i, j, |f|, FilterWidth(f)), FilterSlice(f, k)) + bias[k]
  {
  }

  lemma {:induction false} Frob2OfZero(a: Matrix, b: Matrix)
    requires SameShape2(a, b)
    requires forall i, j :: 0 <= i < |b| && 0 <= j < |b[i]| ==> b[i][j] == 0.0
    ensures Frob2(a, b) == 0.0
  {
    if |a| > 0 {
      assert b[0] == Zeros(|a[0]|);
      DotComm(a[0], b[0]);
      DotZeros(a[0]);
      Frob2OfZero(a[1..], b[1..]);
    }
  }

  lemma {:induction false} Frob3OfZero(a: Tensor3, b: Tensor3)
    requires SameShape3(a, b)
    requires forall i, j, k :: 0 <= i < |b| && 0 <= j < |b[i]| && 0 <= k < |b[i][j]| ==> b[i][j][k] == 0.0
    ensures Frob3(a, b) == 0.0
  {
    if |a| > 0 {
      Frob2OfZero(a[0], b[0]);
      Frob3OfZero(a[1..], b[1..]);
    }
  }

  /** With an all-zero filter bank every output cell is its channel's bias. */
  lemma ZeroFilterGivesBias(x: Tensor3, f: Tensor4, bias: Vector)
    requires WellFormed3(x) && WellFormed4(f) && ConvAccepts(x, f, bias)
    requires forall a, b, c, k ::
      0 <= a < |f| && 0 <= b < FilterWidth(f) && 0 <= c < FilterHeight(f) && 0 <= k < FilterNum(f) ==>
        f[a][b][c][k] == 0.0
    ensures forall i, j, k ::
      0 <= i <= |x| - |f| && 0 <= j <= Width(x) - FilterWidth(f) && 0 <= k < FilterNum(f) ==>
        Convolved(x, f, bias).value[i][j][k] == bias[k]
  {
    forall i, j, k | 0 <= i <= |x| - |f| && 0 <= j <= Width(x) - FilterWidth(f) && 0 <= k < FilterNum(f)
      ensures Convolved(x, f, bias).value[i][j][k] == bias[k]
    {
      Frob3OfZero(Patch(x, i, j, |f|, FilterWidth(f)), FilterSlice(f, k));
    }
  }

  /** A 5x5 single-channel input under a zero 5x5 filter bank with zero bias
      collapses to an all-zero 1x1 map. */
  lemma FullyCollapsedZeroOutput(x: Tensor3, f: Tensor4, n: nat)
    requires IsTensor3(x, 5, 5, 1) && IsTensor4(f, 5, 5, 1, n) && n > 0
    requires forall a, b, k :: 0 <= a < 5 && 0 <= b < 5 && 0 <= k < n ==> f[a][b][0][k] == 0.0
    ensures Convolved(x, f, Zeros(n)).Ok?
    ensures IsTensor3(Convolved(x, f, Zeros(n)).value, 1, 1, n)
    ensures forall k :: 0 <= k < n ==> Convolved(x, f, Zeros(n)).value[0][0][k] == 0.0
  {
    ZeroFilterGivesBias(x, f, Zeros(n));
  }

  // ------------------------------------------------------ im2col, in place

  /** The im2col row of output cell (i, j): its window flattened row-major
      (main.py:52, with the window as wide as the filter). */
  function PatchRow(x: Tensor3, i: nat, j: nat, fl: nat, fw: nat): (v: Vector)
    requires WellFormed3(x) && i + fl <= |x| && j + fw <= Width(x)
    ensures |v| == fl * (fw * Height(x))
  {
    Flatten3Length(Patch(x, i, j, fl, fw), fl, fw, Height(x));
    Flatten3(Patch(x, i, j, fl, fw))
  }

  /** `a[i, j, :]` of a rank-3 array, as a value. */
  function Row(a: array3<real>, i: nat, j: nat): (v: Vector)
    reads a
    requires i < a.Length0 && j < a.Length1
    ensures |v| == a.Length2 && forall p :: 0 <= p < a.Length2 ==> v[p] == a[i, j, p]
  {
    seq(a.Length2, p requires 0 <= p < a.Length2 reads a => a[i, j, p])
  }

  /** `conv` as the source computes it: fill the img2col array (main.py:48-52),
      then multiply it by each flattened filter and add the bias
      (main.py:53-55). It computes the direct form. */
  method Conv(x: Tensor3, f: Tensor4, bias: Vector) returns (r: Result<Tensor3>)
    requires WellFormed3(x) && WellFormed4(f)
    ensures r == Convolved(x, f, bias)
  {
    if !ConvAccepts(x, f, bias) {
      return Err(ShapeMismatch);
    }
    var img2col := Img2col(x, |f|, |f[0]|);
    var y := ApplyFilters(img2col, x, f, bias);
    r := Ok(y);
  }

  /** main.py:48-52: row (i, j) of the result is the flattened window at (i, j). */
  method Img2col(x: Tensor3, fl: nat, fw: nat) returns (img2col: array3<real>)
    requires WellFormed3(x) && fl <= |x| && fw <= Width(x)
    ensures fresh(img2col)
    ensures img2col.Length0 == |x| - fl + 1 && img2col.Length1 == Width(x) - fw + 1
    ensures img2col.Length2 == fl * (fw * Height(x))
    ensures forall i, j, p :: 0 <= i < img2col.Length0 && 0 <= j < img2col.Length1 && 0 <= p < img2col.Length2 ==>
      img2col[i, j, p] == PatchRow(x, i, j, fl, fw)[p]
  {
    var L, W, K := |x| - fl + 1, |x[0]| - fw + 1, fl * (fw * |x[0][0]|);
    img2col := new real[L, W, K]((i, j, p) => 0.0);
    for i := 0 to L
      invariant forall i', j', p :: 0 <= i' < i && 0 <= j' < W && 0 <= p < K ==>
        img2col[i', j', p] == PatchRow(x, i', j', fl, fw)[p]
    {
      for j := 0 to W
        invariant forall i', j', p :: 0 <= i' < L && 0 <= j' < W && (i' < i || (i' == i && j' < j)) && 0 <= p < K ==>
          img2col[i', j', p] == PatchRow(x, i', j', fl, fw)[p]
      {
        var row := PatchRow(x, i, j, fl, fw);
        forall p | 0 <= p < K {
          img2col[i, j, p] := row[p];
        }
      }
    }
  }

  /** main.py:53-55: output channel k is the img2col array times filter k
      flattened, plus bias k. */
  method ApplyFilters(img2col: array3<real>, x: Tensor3, f: Tensor4, bias: Vector) returns (y: Tensor3)
    requires WellFormed3(x) && WellFormed4(f) && ConvAccepts(x, f, bias)
    requires img2col.Length0 == |x| - |f| + 1 && img2col.Length1 == Width(x) - FilterWidth(f) + 1
    requires img2col.Length2 == |f| * (FilterWidth(f) * Height(x))
    requires forall i, j, p :: 0 <= i < img2col.Length0 && 0 <= j < img2col.Length1 && 0 <= p < img2col.Length2 ==>
      img2col[i, j, p] == PatchRow(x, i, j, |f|, FilterWidth(f))[p]
    ensures y == Correlate(x, f, bias)
  {
    var fn := FilterNum(f);
    var L, W := img2col.Length0, img2col.Length1;
    var output := new real[L, W, fn]((i, j, k) => 0.0);
    ghost var z := Correlate(x, f, bias);
    for k := 0 to fn
      invariant forall i, j, k' :: 0 <= i < L && 0 <= j < W && 0 <= k' < k ==> output[i, j, k'] == z[i][j][k']
    {
      FillChannel(output, img2col, x, f, bias, k);
    }
    y := Contents3(output);
    Ext3(y, z, L, W, fn);
  }

  /** One pass of main.py:53-55: channel k of every output pixel. */
  method FillChannel(output: array3<real>, img2col: array3<real>, x: Tensor3, f: Tensor4, bias: Vector, k: nat)
    requires WellFormed3(x) && WellFormed4(f) && ConvAccepts(x, f, bias) && k < FilterNum(f)
    requires img2col.Length0 == |x| - |f| + 1 && img2col.Length1 == Width(x) - FilterWidth(f) + 1
    requires img2col.Length2 == |f| * (FilterWidth(f) * Height(x))
    requires forall i, j, p :: 0 <= i < img2col.Length0 && 0 <= j < img2col.Length1 && 0 <= p < img2col.Length2 ==>
      img2col[i, j, p] == PatchRow(x, i, j, |f|, FilterWidth(f))[p]
    requires output != img2col
    requires output.Length0 == img2col.Length0 && output.Length1 == img2col.Length1 && output.Length2 == FilterNum(f)
    modifies output
    ensures forall i, j :: 0 <= i < output.Length0 && 0 <= j < output.Length1 ==>
      output[i, j, k] == Correlate(x, f, bias)[i][j][k]
    ensures forall i, j, k' :: 0 <= i < output.Length0 && 0 <= j < output.Length1 && 0 <= k' < output.Length2 && k' != k ==>
      output[i, j, k'] == old(output[i, j, k'])
  {
    var fl, fw := |f|, FilterWidth(f);
    var filt := Flatten3(FilterSlice(f, k));
    Flatten3Length(FilterSlice(f, k), fl, fw, Height(x));
    ghost var z := Correlate(x, f, bias);
    forall i, j | 0 <= i < output.Length0 && 0 <= j < output.Length1
      ensures Dot(Row(img2col, i, j), filt) + bias[k] == z[i][j][k]
    {
      assert Row(img2col, i, j) == PatchRow(x, i, j, fl, fw);
      FlattenDot3(Patch(x, i, j, fl, fw), FilterSlice(f, k));
    }
    forall i, j | 0 <= i < output.Length0 && 0 <= j < output.Length1 {
      output[i, j, k] := Dot(Row(img2col, i, j), filt) + bias[k];
    }
  }

  // ------------------------------------------- line 52 exactly as written

  /** The window main.py:52 takes as written: columns `j:j+filter_len`, which
      numpy clips at the input's right edge. */
  function WindowAsWritten(x: Tensor3, i: nat, j: nat, fl: nat): (w: Tensor3)
    requires WellFormed3(x) && i + fl <= |x| && j <= Width(x)
    ensures IsTensor3(w, fl, if j + fl <= Width(x) then fl else Width(x) - j, Height(x))
  {
    var cols := if j + fl <= Width(x) then fl else Width(x) - j;
    seq(fl, a requires 0 <= a < fl => x[i + a][j .. j + cols])
  }

  /** main.py:52 as written: the flattened window is assigned to an img2col row
      of fl*fw*h cells. The assignment succeeds when the sizes agree, broadcasts
      a single value, and raises otherwise. */
  function PatchRowAsWritten(x: Tensor3, i: nat, j: nat, fl: nat, fw: nat): (r: Result<Vector>)
    requires WellFormed3(x) && i + fl <= |x| && j + fw <= Width(x)
    ensures r.Ok? ==> |r.value| == fl * (fw * Height(x))
  {
    var v := Flatten3(WindowAsWritten(x, i, j, fl));
    var size := fl * (fw * Height(x));
    if |v| == size then Ok(v)
    else if |v| == 1 then Ok(seq(size, _ => v[0]))
    else Err(ShapeMismatch)
  }

  /** For square filters, the line as written fills exactly the rows the model uses. */
  lemma SquarePatchRowAgrees(x: Tensor3, i: nat, j: nat, fl: nat, fw: nat)
    requires WellFormed3(x) && i + fl <= |x| && j + fw <= Width(x) && fl == fw
    ensures PatchRowAsWritten(x, i, j, fl, fw) == Ok(PatchRow(x, i, j, fl, fw))
  {
    assert WindowAsWritten(x, i, j, fl) == Patch(x, i, j, fl, fw);
  }

  /** A 3x3 single-channel input and a 2x1 filter: the valid convolution exists
      (a 2x3 map), but line 52 takes 2x2 windows, 4 values for img2col rows of 2,
      and numpy raises. */
  lemma NonSquareFilterRejected()
    ensures var x := [[[1.0], [2.0], [3.0]], [[4.0], [5.0], [6.0]], [[7.0], [8.0], [9.0]]];
            var f := [[[[1.0]]], [[[1.0]]]];
            && Convolved(x, f, [0.0]).Ok?
            && IsTensor3(Convolved(x, f, [0.0]).value, 2, 3, 1)
            && PatchRowAsWritten(x, 0, 0, 2, 1) == Err(ShapeMismatch)
  {
    var x := [[[1.0], [2.0], [3.0]], [[4.0], [5.0], [6.0]], [[7.0], [8.0], [9.0]]];
    var f := [[[[1.0]]], [[[1.0]]]];
    assert WellFormed3(x) && WellFormed4(f);
    Flatten3Length(WindowAsWritten(x, 0, 0, 2), 2, 2, 1);
  }
}
