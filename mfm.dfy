/** Max-feature-map 2/1: `mfm` (main.py:63-80) on the channels of a feature map
    and `mfm_fc` (main.py:137-154) on a vector. The input is split into two
    halves, the output is their element-wise maximum, and the location mask is
    the output repeated over both halves compared with the input. */
module MaxFeatureMap {
  import opened Tensors

  datatype MaxOut1 = MaxOut1(output: Vector, location: Mask)
  datatype MaxOut3 = MaxOut3(output: Tensor3, location: Mask3)

  /** `np.amax(split, axis=0)` of one vector of even length (main.py:71-74,
      main.py:145-148). */
  function Halved(v: Vector): (y: Vector)
    requires |v| % 2 == 0
    ensures |y| == |v| / 2
  {
    var half := |v| / 2;
    seq(half, c requires 0 <= c < half => Max(v[c], v[c + half]))
  }

  /** `repmax == data_in`, where repmax holds y in both halves (main.py:75-77,
      main.py:149-151). */
  function Located(v: Vector, y: Vector): (m: Mask)
    requires |v| == 2 * |y|
    ensures |m| == |v|
  {
    seq(|v|, c requires 0 <= c < |v| => (if c < |y| then y[c] else y[c - |y|]) == v[c])
  }

  /** The other member of c's pair: c + half in the first half, c - half in the second. */
  function Partner(c: nat, half: nat): nat
    requires c < 2 * half
  {
    if c < half then c + half else c - half
  }

  /** `mfm_fc(data_in)`: the length must be even (main.py:143). */
  function MfmFc(v: Vector): (r: Result<MaxOut1>)
    ensures r.Ok? <==> |v| % 2 == 0
    ensures r.Err? ==> r.error == InvalidArgument
    ensures r.Ok? ==> |r.value.output| == |v| / 2 && |r.value.location| == |v|
  {
    if |v| % 2 != 0 then Err(InvalidArgument)
    else Ok(MaxOut1(Halved(v), Located(v, Halved(v))))
  }

  /** Output c is the larger of inputs c and c + half: it bounds both and is one of them. */
  lemma HalvedIsPairMax(v: Vector, c: nat)
    requires |v| % 2 == 0 && c < |v| / 2
    ensures Halved(v)[c] >= v[c] && Halved(v)[c] >= v[c + |v| / 2]
    ensures Halved(v)[c] == v[c] || Halved(v)[c] == v[c + |v| / 2]
  {
  }

  /** An input is marked exactly when it is at least its partner, that is,
      when it is the maximum of its pair. */
  lemma LocatedIffPairMax(v: Vector, c: nat)
    requires |v| % 2 == 0 && c < |v|
    ensures Located(v, Halved(v))[c] <==> v[c] >= v[Partner(c, |v| / 2)]
  {
  }

  /** At least one member of every pair is marked. */
  lemma LocatedCoversPair(v: Vector, c: nat)
    requires |v| % 2 == 0 && c < |v| / 2
    ensures Located(v, Halved(v))[c] || Located(v, Halved(v))[c + |v| / 2]
  {
    LocatedIffPairMax(v, c);
    LocatedIffPairMax(v, c + |v| / 2);
  }

  /** Both members of a pair are marked exactly on a tie. */
  lemma LocatedTie(v: Vector, c: nat)
    requires |v| % 2 == 0 && c < |v| / 2
    ensures Located(v, Halved(v))[c] && Located(v, Halved(v))[c + |v| / 2] <==> v[c] == v[c + |v| / 2]
  {
    LocatedIffPairMax(v, c);
    LocatedIffPairMax(v, c + |v| / 2);
  }

  /** main.py:137-154 on [1, ..., 8]: the second half wins every pair. */
  lemma MfmFcExample()
    ensures MfmFc([1.0, 2.0, 3.0, 4.0, 5.0, 6.0, 7.0, 8.0])
      == Ok(MaxOut1([5.0, 6.0, 7.0, 8.0], [false, false, false, false, true, true, true, true]))
  {
    var v := [1.0, 2.0, 3.0, 4.0, 5.0, 6.0, 7.0, 8.0];
    assert Halved(v) == [5.0, 6.0, 7.0, 8.0];
    assert Located(v, Halved(v)) == [false, false, false, false, true, true, true, true];
  }

  // ------------------------------------------------------ rank 3, per pixel

  /** `mfm(data_in)`: (l, w, h) -> (l, w, h/2) and an (l, w, h) mask; the
      channel count must be even (main.py:69). Every pixel's channel vector is
      treated as `mfm_fc` treats its vector. */
  function Mfm(x: Tensor3): (r: Result<MaxOut3>)
    requires WellFormed3(x)
    ensures r.Ok? <==> Height(x) % 2 == 0
    ensures r.Err? ==> r.error == InvalidArgument
    ensures r.Ok? ==> IsTensor3(r.value.output, |x|, Width(x), Height(x) / 2)
    ensures r.Ok? ==> IsMask3(r.value.location, |x|, Width(x), Height(x))
  {
    if Height(x) % 2 != 0 then Err(InvalidArgument)
    else
      Ok(MaxOut3(
        seq(|x|, i requires 0 <= i < |x| => seq(Width(x), j requires 0 <= j < Width(x) => Halved(x[i][j]))),
        seq(|x|, i requires 0 <= i < |x| =>
          seq(Width(x), j requires 0 <= j < Width(x) => Located(x[i][j], Halved(x[i][j]))))))
  }

  lemma MfmIsPairMax(x: Tensor3, i: nat, j: nat, c: nat)
    requires WellFormed3(x) && Height(x) % 2 == 0
    requires i < |x| && j < Width(x) && c < Height(x) / 2
    ensures var y := Mfm(x).value.output[i][j][c];
      y >= x[i][j][c] && y >= x[i][j][c + Height(x) / 2] && (y == x[i][j][c] || y == x[i][j][c + Height(x) / 2])
  {
    HalvedIsPairMax(x[i][j], c);
  }

  lemma MfmLocationIffPairMax(x: Tensor3, i: nat, j: nat, c: nat)
    requires WellFormed3(x) && Height(x) % 2 == 0
    requires i < |x| && j < Width(x) && c < Height(x)
    ensures Mfm(x).value.location[i][j][c] <==> x[i][j][c] >= x[i][j][Partner(c, Height(x) / 2)]
  {
    LocatedIffPairMax(x[i][j], c);
  }

  lemma MfmCoversPair(x: Tensor3, i: nat, j: nat, c: nat)
    requires WellFormed3(x) && Height(x) % 2 == 0
    requires i < |x| && j < Width(x) && c < Height(x) / 2
    ensures Mfm(x).value.location[i][j][c] || Mfm(x).value.location[i][j][c + Height(x) / 2]
  {
    LocatedCoversPair(x[i][j], c);
  }

  lemma MfmTie(x: Tensor3, i: nat, j: nat, c: nat)
    requires WellFormed3(x) && Height(x) % 2 == 0
    requires i < |x| && j < Width(x) && c < Height(x) / 2
    ensures Mfm(x).value.location[i][j][c] && Mfm(x).value.location[i][j][c + Height(x) / 2]
      <==> x[i][j][c] == x[i][j][c + Height(x) / 2]
  {
    LocatedTie(x[i][j], c);
  }
}
