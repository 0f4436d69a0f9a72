/** Dense tensors over exact reals, the error taxonomy of the operator layer, and
    the reductions the operators are built from: dot product, element-wise
    product sum, row-major flattening and its inverse (numpy's `reshape`). */
module Tensors {

  type Vector = seq<real>
  type Matrix = seq<seq<real>>
  /** Indexed [row][col][channel], the (l, w, h) layout of the network. */
  type Tensor3 = seq<seq<seq<real>>>
  /** Indexed [row][col][in-channel][out-channel], the (fl, fw, h, n) filter layout. */
  type Tensor4 = seq<seq<seq<seq<real>>>>
  type Mask = seq<bool>
  type Mask3 = seq<seq<seq<bool>>>

  /** Every operator failure in the source is an `assert` or a numpy ValueError
      that aborts the sample; the two kinds name which guard failed. */
  datatype Error = ShapeMismatch | InvalidArgument

  datatype Result<T> = Ok(value: T) | Err(error: Error) {
    predicate IsFailure() { Err? }
    function PropagateFailure<U>(): Result<U> requires Err? { Err(error) }
    function Extract(): T requires Ok? { value }
  }

  /** A numpy array whose rank is known only at run time. */
  datatype NdArray = Vec(v: Vector) | Mat(m: Matrix) | Vol(t: Tensor3) | Hyper(f: Tensor4)

  // ---------------------------------------------------------------- shapes

  predicate IsMatrix(m: Matrix, r: nat, c: nat) {
    |m| == r && forall i :: 0 <= i < r ==> |m[i]| == c
  }

  predicate IsTensor3(t: Tensor3, l: nat, w: nat, h: nat) {
    |t| == l && forall i :: 0 <= i < l ==> IsMatrix(t[i], w, h)
  }

  predicate IsTensor4(f: Tensor4, a: nat, b: nat, c: nat, d: nat) {
    |f| == a && forall i :: 0 <= i < a ==> IsTensor3(f[i], b, c, d)
  }

  predicate IsMask3(m: Mask3, l: nat, w: nat, h: nat) {
    |m| == l && forall i :: 0 <= i < l ==> |m[i]| == w && forall j :: 0 <= j < w ==> |m[i][j]| == h
  }

  /** Rectangular with every dimension positive. */
  predicate WellFormed2(m: Matrix) {
    |m| > 0 && |m[0]| > 0 && IsMatrix(m, |m|, |m[0]|)
  }

  predicate WellFormed3(t: Tensor3) {
    |t| > 0 && |t[0]| > 0 && |t[0][0]| > 0 && IsTensor3(t, |t|, |t[0]|, |t[0][0]|)
  }

  predicate WellFormed4(f: Tensor4) {
    |f| > 0 && |f[0]| > 0 && |f[0][0]| > 0 && |f[0][0][0]| > 0
    && IsTensor4(f, |f|, |f[0]|, |f[0][0]|, |f[0][0][0]|)
  }

  predicate WellFormed(a: NdArray) {
    match a
    case Vec(_) => true
    case Mat(m) => WellFormed2(m)
    case Vol(t) => WellFormed3(t)
    case Hyper(f) => WellFormed4(f)
  }

  function Cols(m: Matrix): nat requires |m| > 0 { |m[0]| }
  function Width(t: Tensor3): nat requires |t| > 0 { |t[0]| }
  function Height(t: Tensor3): nat requires |t| > 0 && |t[0]| > 0 { |t[0][0]| }
  function FilterWidth(f: Tensor4): nat requires |f| > 0 { |f[0]| }
  function FilterHeight(f: Tensor4): nat requires |f| > 0 && |f[0]| > 0 { |f[0][0]| }
  function FilterNum(f: Tensor4): nat requires |f| > 0 && |f[0]| > 0 && |f[0][0]| > 0 { |f[0][0][0]| }

  // ------------------------------------------------------- element helpers

  function Max(a: real, b: real): real { if a >= b then a else b }

  function Zeros(n: nat): (z: Vector)
    ensures |z| == n && forall k :: 0 <= k < n ==> z[k] == 0.0
  {
    seq(n, _ => 0.0)
  }

  function Ones3(l: nat, w: nat, h: nat): (t: Tensor3)
    ensures IsTensor3(t, l, w, h)
    ensures forall i, j, k :: 0 <= i < l && 0 <= j < w && 0 <= k < h ==> t[i][j][k] == 1.0
  {
    seq(l, _ => seq(w, _ => seq(h, _ => 1.0)))
  }

  function Add(u: Vector, v: Vector): (s: Vector)
    requires |u| == |v|
    ensures |s| == |u| && forall k :: 0 <= k < |u| ==> s[k] == u[k] + v[k]
  {
    seq(|u|, k requires 0 <= k < |u| => u[k] + v[k])
  }

  function Scale(c: real, u: Vector): (s: Vector)
    ensures |s| == |u| && forall k :: 0 <= k < |u| ==> s[k] == c * u[k]
  {
    seq(|u|, k requires 0 <= k < |u| => c * u[k])
  }

  /** `t * mask` with the boolean mask read as 0 and 1 (numpy's `astype(int)`). */
  function Masked3(t: Tensor3, m: Mask3, l: nat, w: nat, h: nat): (r: Tensor3)
    requires IsTensor3(t, l, w, h) && IsMask3(m, l, w, h)
    ensures IsTensor3(r, l, w, h)
    ensures forall i, j, k :: 0 <= i < l && 0 <= j < w && 0 <= k < h ==>
      r[i][j][k] == if m[i][j][k] then t[i][j][k] else 0.0
  {
    seq(l, i requires 0 <= i < l => seq(w, j requires 0 <= j < w =>
      seq(h, k requires 0 <= k < h => if m[i][j][k] then t[i][j][k] else 0.0)))
  }

  /** A single-channel image as a rank-3 map, `img[:, :, None]`. */
  function AsVolume(img: Matrix): (t: Tensor3)
    requires WellFormed2(img)
    ensures WellFormed3(t) && IsTensor3(t, |img|, Cols(img), 1)
    ensures forall i, j :: 0 <= i < |img| && 0 <= j < Cols(img) ==> t[i][j][0] == img[i][j]
  {
    seq(|img|, i requires 0 <= i < |img| => seq(Cols(img), j requires 0 <= j < Cols(img) => [img[i][j]]))
  }

  // ---------------------------------------------------------------- sums

  function Dot(u: Vector, v: Vector): real
    requires |u| == |v|
  {
    if |u| == 0 then 0.0 else u[0] * v[0] + Dot(u[1..], v[1..])
  }

  predicate SameShape2(a: Matrix, b: Matrix) {
    |a| == |b| && forall i :: 0 <= i < |a| ==> |a[i]| == |b[i]|
  }

  predicate SameShape3(a: Tensor3, b: Tensor3) {
    |a| == |b| && forall i :: 0 <= i < |a| ==> SameShape2(a[i], b[i])
  }

  /** `(a * b).sum()` for two matrices of one shape. */
  function Frob2(a: Matrix, b: Matrix): real
    requires SameShape2(a, b)
  {
    if |a| == 0 then 0.0 else Dot(a[0], b[0]) + Frob2(a[1..], b[1..])
  }

  /** `(a * b).sum()` for two rank-3 tensors of one shape. */
  function Frob3(a: Tensor3, b: Tensor3): real
    requires SameShape3(a, b)
  {
    if |a| == 0 then 0.0 else Frob2(a[0], b[0]) + Frob3(a[1..], b[1..])
  }

  lemma {:induction false} DotAppend(u1: Vector, u2: Vector, v1: Vector, v2: Vector)
    requires |u1| == |v1| && |u2| == |v2|
    ensures Dot(u1 + u2, v1 + v2) == Dot(u1, v1) + Dot(u2, v2)
  {
    if |u1| == 0 {
      assert u1 + u2 == u2 && v1 + v2 == v2;
    } else {
      assert (u1 + u2)[1..] == u1[1..] + u2;
      assert (v1 + v2)[1..] == v1[1..] + v2;
      DotAppend(u1[1..], u2, v1[1..], v2);
    }
  }

  lemma {:induction false} DotAdd(u: Vector, w: Vector, v: Vector)
    requires |u| == |w| == |v|
    ensures Dot(Add(u, w), v) == Dot(u, v) + Dot(w, v)
  {
    if |u| > 0 {
      assert Add(u, w)[1..] == Add(u[1..], w[1..]);
      DotAdd(u[1..], w[1..], v[1..]);
    }
  }

  lemma {:induction false} DotScale(c: real, u: Vector, v: Vector)
    requires |u| == |v|
    ensures Dot(Scale(c, u), v) == c * Dot(u, v)
  {
    if |u| > 0 {
      forall k | 0 <= k < |u| - 1 ensures Scale(c, u)[1..][k] == Scale(c, u[1..])[k] {
        assert u[1..][k] == u[k + 1];
      }
      assert Scale(c, u)[1..] == Scale(c, u[1..]);
      DotScale(c, u[1..], v[1..]);
    }
  }

  lemma {:induction false} DotComm(u: Vector, v: Vector)
    requires |u| == |v|
    ensures Dot(u, v) == Dot(v, u)
  {
    if |u| > 0 { DotComm(u[1..], v[1..]); }
  }

  lemma {:induction false} DotZeros(u: Vector)
    ensures Dot(Zeros(|u|), u) == 0.0
  {
    if |u| > 0 {
      assert Zeros(|u|)[1..] == Zeros(|u| - 1);
      DotZeros(u[1..]);
    }
  }

  /** Pairing with g is additive: if s = a + b cell by cell, <g, s> = <g, a> + <g, b>. */
  lemma {:induction false} DotSum(g: Vector, a: Vector, b: Vector, s: Vector)
    requires |g| == |a| == |b| == |s|
    requires forall k :: 0 <= k < |s| ==> s[k] == a[k] + b[k]
    ensures Dot(g, s) == Dot(g, a) + Dot(g, b)
  {
    if |g| > 0 { DotSum(g[1..], a[1..], b[1..], s[1..]); }
  }

  lemma {:induction false} Frob2Sum(g: Matrix, a: Matrix, b: Matrix, s: Matrix, r: nat, c: nat)
    requires IsMatrix(g, r, c) && IsMatrix(a, r, c) && IsMatrix(b, r, c) && IsMatrix(s, r, c)
    requires forall i, j :: 0 <= i < r && 0 <= j < c ==> s[i][j] == a[i][j] + b[i][j]
    ensures Frob2(g, s) == Frob2(g, a) + Frob2(g, b)
  {
    if r > 0 {
      DotSum(g[0], a[0], b[0], s[0]);
      Frob2Sum(g[1..], a[1..], b[1..], s[1..], r - 1, c);
    }
  }

  lemma {:induction false} Frob3Sum(g: Tensor3, a: Tensor3, b: Tensor3, s: Tensor3, l: nat, w: nat, h: nat)
    requires IsTensor3(g, l, w, h) && IsTensor3(a, l, w, h) && IsTensor3(b, l, w, h) && IsTensor3(s, l, w, h)
    requires forall i, j, k :: 0 <= i < l && 0 <= j < w && 0 <= k < h ==> s[i][j][k] == a[i][j][k] + b[i][j][k]
    ensures Frob3(g, s) == Frob3(g, a) + Frob3(g, b)
  {
    if l > 0 {
      Frob2Sum(g[0], a[0], b[0], s[0], w, h);
      Frob3Sum(g[1..], a[1..], b[1..], s[1..], l - 1, w, h);
    }
  }

  // ---------------------------------------------------------- flattening

  /** Row-major `flatten()` of a matrix. */
  function Flatten2(m: Matrix): Vector {
    if |m| == 0 then [] else m[0] + Flatten2(m[1..])
  }

  /** Row-major `flatten()` of a rank-3 tensor. */
  function Flatten3(t: Tensor3): Vector {
    if |t| == 0 then [] else Flatten2(t[0]) + Flatten3(t[1..])
  }

  function Flatten4(f: Tensor4): Vector {
    if |f| == 0 then [] else Flatten3(f[0]) + Flatten4(f[1..])
  }

  /** numpy `flatten()` of an array of any rank. */
  function Flatten(a: NdArray): Vector {
    match a
    case Vec(v) => v
    case Mat(m) => Flatten2(m)
    case Vol(t) => Flatten3(t)
    case Hyper(f) => Flatten4(f)
  }

  lemma MulStep(n: nat, k: nat)
    requires n > 0
    ensures n * k == (n - 1) * k + k && k <= n * k
  {
  }

  lemma {:induction false} Flatten2Length(m: Matrix, r: nat, c: nat)
    requires IsMatrix(m, r, c)
    ensures |Flatten2(m)| == r * c
  {
    if r > 0 {
      Flatten2Length(m[1..], r - 1, c);
      MulStep(r, c);
    }
  }

  lemma {:induction false} Flatten3Length(t: Tensor3, l: nat, w: nat, h: nat)
    requires IsTensor3(t, l, w, h)
    ensures |Flatten3(t)| == l * (w * h)
  {
    if l > 0 {
      Flatten2Length(t[0], w, h);
      Flatten3Length(t[1..], l - 1, w, h);
      MulStep(l, w * h);
    }
  }

  lemma {:induction false} Flatten2SameLength(a: Matrix, b: Matrix)
    requires SameShape2(a, b)
    ensures |Flatten2(a)| == |Flatten2(b)|
  {
    if |a| > 0 { Flatten2SameLength(a[1..], b[1..]); }
  }

  /** Dot product of flattened matrices is their element-wise product sum. */
  lemma {:induction false} FlattenDot2(a: Matrix, b: Matrix)
    requires SameShape2(a, b)
    ensures |Flatten2(a)| == |Flatten2(b)|
    ensures Dot(Flatten2(a), Flatten2(b)) == Frob2(a, b)
  {
    Flatten2SameLength(a, b);
    if |a| > 0 {
      Flatten2SameLength(a[1..], b[1..]);
      DotAppend(a[0], Flatten2(a[1..]), b[0], Flatten2(b[1..]));
      FlattenDot2(a[1..], b[1..]);
    }
  }

  /** The im2col identity: the dot product of two flattened rank-3 tensors of one
      shape is the sum of their element-wise product. */
  lemma {:induction false} FlattenDot3(a: Tensor3, b: Tensor3)
    requires SameShape3(a, b)
    ensures |Flatten3(a)| == |Flatten3(b)|
    ensures Dot(Flatten3(a), Flatten3(b)) == Frob3(a, b)
  {
    if |a| > 0 {
      FlattenDot2(a[0], b[0]);
      FlattenDot3(a[1..], b[1..]);
      DotAppend(Flatten2(a[0]), Flatten3(a[1..]), Flatten2(b[0]), Flatten3(b[1..]));
    }
  }

  /** numpy `reshape((w, h))` of a flat vector. */
  function Unflatten2(v: Vector, w: nat, h: nat): (m: Matrix)
    requires |v| == w * h
    ensures IsMatrix(m, w, h)
    decreases w
  {
    if w == 0 then []
    else
      MulStep(w, h);
      [v[..h]] + Unflatten2(v[h..], w - 1, h)
  }

  /** numpy `reshape((l, w, h))` of a flat vector. */
  function Unflatten3(v: Vector, l: nat, w: nat, h: nat): (t: Tensor3)
    requires |v| == l * (w * h)
    ensures IsTensor3(t, l, w, h)
    decreases l
  {
    if l == 0 then []
    else
      MulStep(l, w * h);
      [Unflatten2(v[..w * h], w, h)] + Unflatten3(v[w * h..], l - 1, w, h)
  }

  lemma {:induction false} Unflatten2OfFlatten2(m: Matrix, w: nat, h: nat)
    requires IsMatrix(m, w, h)
    ensures |Flatten2(m)| == w * h && Unflatten2(Flatten2(m), w, h) == m
  {
    Flatten2Length(m, w, h);
    if w > 0 {
      Flatten2Length(m[1..], w - 1, h);
      var v := Flatten2(m);
      assert v[..h] == m[0];
      assert v[h..] == Flatten2(m[1..]);
      Unflatten2OfFlatten2(m[1..], w - 1, h);
    }
  }

  lemma {:induction false} Flatten2OfUnflatten2(v: Vector, w: nat, h: nat)
    requires |v| == w * h
    ensures Flatten2(Unflatten2(v, w, h)) == v
    decreases w
  {
    if w > 0 {
      MulStep(w, h);
      Flatten2OfUnflatten2(v[h..], w - 1, h);
      assert v[..h] + v[h..] == v;
    }
  }

  /** Reshaping a flattened tensor to its own shape gives it back. */
  lemma {:induction false} Unflatten3OfFlatten3(t: Tensor3, l: nat, w: nat, h: nat)
    requires IsTensor3(t, l, w, h)
    ensures |Flatten3(t)| == l * (w * h) && Unflatten3(Flatten3(t), l, w, h) == t
  {
    Flatten3Length(t, l, w, h);
    if l > 0 {
      Flatten2Length(t[0], w, h);
      var v := Flatten3(t);
      assert v[..w * h] == Flatten2(t[0]);
      assert v[w * h..] == Flatten3(t[1..]);
      Unflatten2OfFlatten2(t[0], w, h);
      Unflatten3OfFlatten3(t[1..], l - 1, w, h);
    }
  }

  /** Flattening a reshaped vector gives it back. */
  lemma {:induction false} Flatten3OfUnflatten3(v: Vector, l: nat, w: nat, h: nat)
    requires |v| == l * (w * h)
    ensures Flatten3(Unflatten3(v, l, w, h)) == v
    decreases l
  {
    if l > 0 {
      MulStep(l, w * h);
      Flatten2OfUnflatten2(v[..w * h], w, h);
      Flatten3OfUnflatten3(v[w * h..], l - 1, w, h);
      assert v[..w * h] + v[w * h..] == v;
    }
  }

  /** Cell (j, k) of `reshape((w, h))` is element j*h + k of the flat vector. */
  lemma {:induction false} Unflatten2At(v: Vector, w: nat, h: nat, j: nat, k: nat)
    requires |v| == w * h && j < w && k < h
    ensures j * h + k < |v| && Unflatten2(v, w, h)[j][k] == v[j * h + k]
    decreases w
  {
    MulStep(w, h);
    if j > 0 {
      Unflatten2At(v[h..], w - 1, h, j - 1, k);
      MulStep(j, h);
    }
  }

  /** The row-major position of cell (i, j, k) in a (_, w, h) array. */
  function FlatIndex3(w: nat, h: nat, i: nat, j: nat, k: nat): nat {
    i * (w * h) + (j * h + k)
  }

  /** Cell (i, j, k) of `reshape((l, w, h))` is element i*w*h + j*h + k of the flat vector. */
  lemma {:induction false} Unflatten3At(v: Vector, l: nat, w: nat, h: nat, i: nat, j: nat, k: nat)
    requires |v| == l * (w * h) && i < l && j < w && k < h
    ensures FlatIndex3(w, h, i, j, k) < |v|
    ensures Unflatten3(v, l, w, h)[i][j][k] == v[FlatIndex3(w, h, i, j, k)]
    decreases l
  {
    MulStep(l, w * h);
    if i == 0 {
      Unflatten2At(v[..w * h], w, h, j, k);
    } else {
      Unflatten3At(v[w * h..], l - 1, w, h, i - 1, j, k);
      MulStep(i, w * h);
    }
  }

  // ------------------------------------------- arrays and extensionality

  function Contents2(a: array2<real>): (m: Matrix)
    reads a
    ensures IsMatrix(m, a.Length0, a.Length1)
    ensures forall i, j :: 0 <= i < a.Length0 && 0 <= j < a.Length1 ==> m[i][j] == a[i, j]
  {
    seq(a.Length0, i requires 0 <= i < a.Length0 reads a =>
      seq(a.Length1, j requires 0 <= j < a.Length1 reads a => a[i, j]))
  }

  function Contents3(a: array3<real>): (t: Tensor3)
    reads a
    ensures IsTensor3(t, a.Length0, a.Length1, a.Length2)
    ensures forall i, j, k :: 0 <= i < a.Length0 && 0 <= j < a.Length1 && 0 <= k < a.Length2 ==>
      t[i][j][k] == a[i, j, k]
  {
    seq(a.Length0, i requires 0 <= i < a.Length0 reads a =>
      seq(a.Length1, j requires 0 <= j < a.Length1 reads a =>
        seq(a.Length2, k requires 0 <= k < a.Length2 reads a => a[i, j, k])))
  }

  function Contents4(a: array4<real>): (f: Tensor4)
    reads a
    ensures IsTensor4(f, a.Length0, a.Length1, a.Length2, a.Length3)
    ensures forall i, j, k, n :: 0 <= i < a.Length0 && 0 <= j < a.Length1 && 0 <= k < a.Length2 && 0 <= n < a.Length3 ==>
      f[i][j][k][n] == a[i, j, k, n]
  {
    seq(a.Length0, i requires 0 <= i < a.Length0 reads a =>
      seq(a.Length1, j requires 0 <= j < a.Length1 reads a =>
        seq(a.Length2, k requires 0 <= k < a.Length2 reads a =>
          seq(a.Length3, n requires 0 <= n < a.Length3 reads a => a[i, j, k, n]))))
  }

  lemma Ext2(a: Matrix, b: Matrix, r: nat, c: nat)
    requires IsMatrix(a, r, c) && IsMatrix(b, r, c)
    requires forall i, j :: 0 <= i < r && 0 <= j < c ==> a[i][j] == b[i][j]
    ensures a == b
  {
    forall i | 0 <= i < r ensures a[i] == b[i] {
      assert forall j :: 0 <= j < c ==> a[i][j] == b[i][j];
    }
  }

  lemma Ext3(a: Tensor3, b: Tensor3, l: nat, w: nat, h: nat)
    requires IsTensor3(a, l, w, h) && IsTensor3(b, l, w, h)
    requires forall i, j, k :: 0 <= i < l && 0 <= j < w && 0 <= k < h ==> a[i][j][k] == b[i][j][k]
    ensures a == b
  {
    forall i | 0 <= i < l ensures a[i] == b[i] {
      forall j | 0 <= j < w ensures a[i][j] == b[i][j] {
        assert forall k :: 0 <= k < h ==> a[i][j][k] == b[i][j][k];
      }
    }
  }

  lemma Ext4(a: Tensor4, b: Tensor4, p: nat, q: nat, r: nat, s: nat)
    requires IsTensor4(a, p, q, r, s) && IsTensor4(b, p, q, r, s)
    requires forall i, j, k, n :: 0 <= i < p && 0 <= j < q && 0 <= k < r && 0 <= n < s ==>
      a[i][j][k][n] == b[i][j][k][n]
    ensures a == b
  {
    forall i | 0 <= i < p ensures a[i] == b[i] {
      Ext3(a[i], b[i], q, r, s);
    }
  }
}
