/** `padding` (main.py:106-119): a zero border of width n around the first two
    dimensions of a rank-2 or rank-3 array, and the border crop `x[n:-n, n:-n]`
    that undoes it (used at main.py:384). */
module Padding {
  import opened Tensors

  /** The rank-2 branch (main.py:113-115). */
  function PadMatrix(m: Matrix, n: nat): (p: Matrix)
    requires WellFormed2(m)
    ensures IsMatrix(p, |m| + 2 * n, Cols(m) + 2 * n)
  {
    seq(|m| + 2 * n, i requires 0 <= i < |m| + 2 * n =>
      seq(Cols(m) + 2 * n, j requires 0 <= j < Cols(m) + 2 * n =>
        if n <= i < n + |m| && n <= j < n + Cols(m) then m[i - n][j - n] else 0.0))
  }

  /** The rank-3 branch (main.py:116-118); channels are not padded. */
  function PadVolume(t: Tensor3, n: nat): (p: Tensor3)
    requires WellFormed3(t)
    ensures IsTensor3(p, |t| + 2 * n, Width(t) + 2 * n, Height(t))
  {
    seq(|t| + 2 * n, i requires 0 <= i < |t| + 2 * n =>
      seq(Width(t) + 2 * n, j requires 0 <= j < Width(t) + 2 * n =>
        seq(Height(t), k requires 0 <= k < Height(t) =>
          if n <= i < n + |t| && n <= j < n + Width(t) then t[i - n][j - n][k] else 0.0)))
  }

  /** `padding(data_in, pad_size)`: the rank and the pad size are checked first. */
  function Padded(a: NdArray, n: int): (r: Result<NdArray>)
    requires WellFormed(a)
    ensures r.Ok? <==> (a.Mat? || a.Vol?) && n > 0
    ensures r.Err? ==> r.error == InvalidArgument
    ensures r.Ok? ==> WellFormed(r.value) && (r.value.Mat? <==> a.Mat?) && (r.value.Vol? <==> a.Vol?)
    ensures r.Ok? && a.Mat? ==> IsMatrix(r.value.m, |a.m| + 2 * n, Cols(a.m) + 2 * n)
    ensures r.Ok? && a.Vol? ==>
      IsTensor3(r.value.t, |a.t| + 2 * n, Width(a.t) + 2 * n, Height(a.t))
  {
    if !(a.Mat? || a.Vol?) || n <= 0 then Err(InvalidArgument)
    else if a.Mat? then Ok(Mat(PadMatrix(a.m, n)))
    else Ok(Vol(PadVolume(a.t, n)))
  }

  /** numpy's `s[n:-n]` (empty when nothing is left between the two borders). */
  function CropSeq<T>(s: seq<T>, n: nat): (c: seq<T>)
    requires n > 0
    ensures |s| > 2 * n ==> c == s[n..|s| - n]
    ensures |s| <= 2 * n ==> c == []
  {
    if |s| <= 2 * n then [] else s[n..|s| - n]
  }

  /** `x[n:-n, n:-n]` of a matrix. */
  function CropMatrix(p: Matrix, n: nat): Matrix
    requires n > 0
  {
    var rows := CropSeq(p, n);
    seq(|rows|, i requires 0 <= i < |rows| => CropSeq(rows[i], n))
  }

  /** `x[n:-n, n:-n, :]` of a rank-3 tensor. */
  function CropVolume(t: Tensor3, n: nat): Tensor3
    requires n > 0
  {
    var rows := CropSeq(t, n);
    seq(|rows|, i requires 0 <= i < |rows| => CropSeq(rows[i], n))
  }

  /** The input sits unchanged at offset (n, n) of the padded array. */
  lemma PaddedInterior(a: NdArray, n: int, i: nat, j: nat)
    requires WellFormed(a) && Padded(a, n).Ok?
    requires a.Mat? ==> i < |a.m| && j < Cols(a.m)
    requires a.Vol? ==> i < |a.t| && j < Width(a.t)
    ensures a.Mat? ==> Padded(a, n).value.m[i + n][j + n] == a.m[i][j]
    ensures a.Vol? ==> Padded(a, n).value.t[i + n][j + n] == a.t[i][j]
  {
  }

  /** Every cell outside the centred copy of the input is zero. */
  lemma PaddedBorderIsZero(a: NdArray, n: int, i: nat, j: nat)
    requires WellFormed(a) && Padded(a, n).Ok?
    requires a.Mat? ==> i < |a.m| + 2 * n && j < Cols(a.m) + 2 * n
    requires a.Vol? ==> i < |a.t| + 2 * n && j < Width(a.t) + 2 * n
    requires a.Mat? ==> !(n <= i < n + |a.m| && n <= j < n + Cols(a.m))
    requires a.Vol? ==> !(n <= i < n + |a.t| && n <= j < n + Width(a.t))
    ensures a.Mat? ==> Padded(a, n).value.m[i][j] == 0.0
    ensures a.Vol? ==> forall k :: 0 <= k < Height(a.t) ==> Padded(a, n).value.t[i][j][k] == 0.0
  {
  }

  lemma CropPadMatrix(m: Matrix, n: nat)
    requires WellFormed2(m) && n > 0
    ensures CropMatrix(PadMatrix(m, n), n) == m
  {
    var p := PadMatrix(m, n);
    var c := CropMatrix(p, n);
    assert |c| == |m|;
    forall i | 0 <= i < |m| ensures c[i] == m[i] {
      assert CropSeq(p, n)[i] == p[i + n];
      assert |c[i]| == |m[i]|;
      forall j | 0 <= j < |m[i]| ensures c[i][j] == m[i][j] {
        assert c[i][j] == p[i + n][j + n];
      }
    }
  }

  lemma CropPadVolume(t: Tensor3, n: nat)
    requires WellFormed3(t) && n > 0
    ensures CropVolume(PadVolume(t, n), n) == t
  {
    var p := PadVolume(t, n);
    var c := CropVolume(p, n);
    assert |c| == |t|;
    forall i | 0 <= i < |t| ensures c[i] == t[i] {
      assert CropSeq(p, n)[i] == p[i + n];
      assert |c[i]| == |t[i]|;
      forall j | 0 <= j < |t[i]| ensures c[i][j] == t[i][j] {
        assert c[i][j] == p[i + n][j + n];
      }
    }
  }

  /** Cropping n from each side of the first two dimensions recovers the input. */
  lemma CropUndoesPadding(a: NdArray, n: int)
    requires WellFormed(a) && Padded(a, n).Ok?
    ensures a.Mat? ==> CropMatrix(Padded(a, n).value.m, n) == a.m
    ensures a.Vol? ==> CropVolume(Padded(a, n).value.t, n) == a.t
  {
    if a.Mat? { CropPadMatrix(a.m, n); } else { CropPadVolume(a.t, n); }
  }

  /** `padding` as the source runs it: check the rank and the pad size, then
      fill a zero array of the padded shape. */
  method Padding(a: NdArray, n: int) returns (r: Result<NdArray>)
    requires WellFormed(a)
    ensures r == Padded(a, n)
  {
    if !(a.Mat? || a.Vol?) || n <= 0 {
      return Err(InvalidArgument);
    }
    if a.Mat? {
      var p := FillPaddedMatrix(a.m, n);
      r := Ok(Mat(p));
    } else {
      var p := FillPaddedVolume(a.t, n);
      r := Ok(Vol(p));
    }
  }

  /** main.py:114-115: allocate the zero array, assign the input to its centre slice. */
  method FillPaddedMatrix(m: Matrix, n: nat) returns (p: Matrix)
    requires WellFormed2(m)
    ensures p == PadMatrix(m, n)
  {
    var l, w := |m|, Cols(m);
    var output := new real[l + 2 * n, w + 2 * n]((i, j) => 0.0);
    forall i, j | n <= i < n + l && n <= j < n + w {
      output[i, j] := m[i - n][j - n];
    }
    assert forall i, j :: 0 <= i < l + 2 * n && 0 <= j < w + 2 * n ==>
      output[i, j] == if n <= i < n + l && n <= j < n + w then m[i - n][j - n] else 0.0;
    p := Contents2(output);
    PadMatrixFromEntries(p, m, n);
  }

  /** main.py:117-118: the same for a rank-3 array, every channel copied. */
  method FillPaddedVolume(t: Tensor3, n: nat) returns (p: Tensor3)
    requires WellFormed3(t)
    ensures p == PadVolume(t, n)
  {
    var l, w, h := |t|, Width(t), Height(t);
    var output := new real[l + 2 * n, w + 2 * n, h]((i, j, k) => 0.0);
    forall i, j, k | n <= i < n + l && n <= j < n + w && 0 <= k < h {
      output[i, j, k] := t[i - n][j - n][k];
    }
    assert forall i, j, k :: 0 <= i < l + 2 * n && 0 <= j < w + 2 * n && 0 <= k < h ==>
      output[i, j, k] == if n <= i < n + l && n <= j < n + w then t[i - n][j - n][k] else 0.0;
    p := Contents3(output);
    PadVolumeFromEntries(p, t, n);
  }

  /** A tensor of the padded shape whose every entry is the interior value or 0 is the padded tensor. */
  lemma PadVolumeFromEntries(p: Tensor3, t: Tensor3, n: nat)
    requires WellFormed3(t) && IsTensor3(p, |t| + 2 * n, Width(t) + 2 * n, Height(t))
    requires forall i, j, k :: 0 <= i < |t| + 2 * n && 0 <= j < Width(t) + 2 * n && 0 <= k < Height(t) ==>
      p[i][j][k] == if n <= i < n + |t| && n <= j < n + Width(t) then t[i - n][j - n][k] else 0.0
    ensures p == PadVolume(t, n)
  {
    Ext3(p, PadVolume(t, n), |t| + 2 * n, Width(t) + 2 * n, Height(t));
  }

  /** A matrix of the padded shape whose every entry is the interior value or 0 is the padded matrix. */
  lemma PadMatrixFromEntries(p: Matrix, m: Matrix, n: nat)
    requires WellFormed2(m) && IsMatrix(p, |m| + 2 * n, Cols(m) + 2 * n)
    requires forall i, j :: 0 <= i < |m| + 2 * n && 0 <= j < Cols(m) + 2 * n ==>
      p[i][j] == if n <= i < n + |m| && n <= j < n + Cols(m) then m[i - n][j - n] else 0.0
    ensures p == PadMatrix(m, n)
  {
    Ext2(p, PadMatrix(m, n), |m| + 2 * n, Cols(m) + 2 * n);
  }
}
