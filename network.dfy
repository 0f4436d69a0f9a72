/** The fixed LightCNN-9 pipeline of `forward` (main.py:220-263): five
    convolution stages with max-feature-map activations, four poolings, and two
    fully-connected layers with a max-feature-map between them. */
module Network {
  import opened Tensors
  import opened Padding
  import opened Convolution
  import opened MaxFeatureMap
  import opened Pooling
  import opened Dense

  datatype ConvLayer = ConvLayer(kernel: Tensor4, bias: Vector)

  /** The network's parameters as `__init__` names them (main.py:189-210). */
  datatype Params = Params(
    conv1: ConvLayer,
    conv2a: ConvLayer, conv2: ConvLayer,
    conv3a: ConvLayer, conv3: ConvLayer,
    conv4a: ConvLayer, conv4: ConvLayer,
    conv5a: ConvLayer, conv5: ConvLayer,
    fcWeights: Matrix, fcBias: Vector,
    fcoutWeights: Matrix, fcoutBias: Vector)
  {
    /** Every kernel is a rank-4 array and every weight matrix a rank-2 array. */
    predicate Valid() {
      && WellFormed4(conv1.kernel)
      && WellFormed4(conv2a.kernel) && WellFormed4(conv2.kernel)
      && WellFormed4(conv3a.kernel) && WellFormed4(conv3.kernel)
      && WellFormed4(conv4a.kernel) && WellFormed4(conv4.kernel)
      && WellFormed4(conv5a.kernel) && WellFormed4(conv5.kernel)
      && WellFormed2(fcWeights) && WellFormed2(fcoutWeights)
    }
  }

  /** `mfm(conv(x, kernel, bias))[0]`. */
  function ConvMfm(x: Tensor3, layer: ConvLayer): (r: Result<Tensor3>)
    requires WellFormed3(x) && WellFormed4(layer.kernel)
    ensures r.Ok? <==> ConvAccepts(x, layer.kernel, layer.bias) && FilterNum(layer.kernel) % 2 == 0
    ensures r.Ok? ==> WellFormed3(r.value)
    ensures r.Ok? ==>
      IsTensor3(r.value, |x| - |layer.kernel| + 1, Width(x) - FilterWidth(layer.kernel) + 1, FilterNum(layer.kernel) / 2)
  {
    var y :- Convolved(x, layer.kernel, layer.bias);
    var m :- Mfm(y);
    Ok(m.output)
  }

  /** `mfm(conv(padding(x, 1), kernel, bias))[0]`, the 3x3 half of a stage. */
  function PadConvMfm(x: Tensor3, layer: ConvLayer): (r: Result<Tensor3>)
    requires WellFormed3(x) && WellFormed4(layer.kernel)
    ensures r.Ok? <==>
      ConvAccepts(PadVolume(x, 1), layer.kernel, layer.bias) && FilterNum(layer.kernel) % 2 == 0
    ensures r.Ok? ==> WellFormed3(r.value)
    ensures r.Ok? ==>
      IsTensor3(r.value, |x| + 3 - |layer.kernel|, Width(x) + 3 - FilterWidth(layer.kernel), FilterNum(layer.kernel) / 2)
  {
    ConvMfm(Padded(Vol(x), 1).value.t, layer)
  }

  /** `pool(x)[0]`. */
  function PoolMap(x: Tensor3): (r: Result<Tensor3>)
    requires WellFormed3(x)
    ensures r.Ok? <==> |x| % 2 == 0 && Width(x) % 2 == 0
    ensures r.Ok? ==> WellFormed3(r.value) && IsTensor3(r.value, |x| / 2, Width(x) / 2, Height(x))
  {
    var p :- Pool(x);
    Ok(p.output)
  }

  /** A 1x1 stage and a padded 3x3 stage, as conv2a/conv2 to conv5a/conv5
      (main.py:231-253). */
  function Pair(x: Tensor3, a: ConvLayer, b: ConvLayer): (r: Result<Tensor3>)
    requires WellFormed3(x) && WellFormed4(a.kernel) && WellFormed4(b.kernel)
    ensures r.Ok? ==> WellFormed3(r.value)
  {
    var m :- ConvMfm(x, a);
    PadConvMfm(m, b)
  }

  /** A pair of stages followed by pooling. */
  function Group(x: Tensor3, a: ConvLayer, b: ConvLayer): (r: Result<Tensor3>)
    requires WellFormed3(x) && WellFormed4(a.kernel) && WellFormed4(b.kernel)
    ensures r.Ok? ==> WellFormed3(r.value)
  {
    var m :- Pair(x, a, b);
    PoolMap(m)
  }

  /** The first stage and pool1 (main.py:222-228): the image padded by 2 as a
      single-channel map, conv1, max-feature-map, pooling. */
  function Stem(data: Matrix, conv1: ConvLayer): (r: Result<Tensor3>)
    requires WellFormed2(data) && WellFormed4(conv1.kernel)
    ensures r.Ok? ==> WellFormed3(r.value)
  {
    var pad1 := Padded(Mat(data), 2).value.m;
    var mfm1 :- ConvMfm(AsVolume(pad1), conv1);
    PoolMap(mfm1)
  }

  /** Stages 4 and 5 and pool4 (main.py:243-255). */
  function Tail(x: Tensor3, p: Params): (r: Result<Tensor3>)
    requires WellFormed3(x) && p.Valid()
    ensures r.Ok? ==> WellFormed3(r.value)
  {
    var mfm4 :- Pair(x, p.conv4a, p.conv4);
    var mfm5 :- Pair(mfm4, p.conv5a, p.conv5);
    PoolMap(mfm5)
  }

  /** Stages 2 to 5 and pool4 (main.py:230-255). */
  function Trunk(x: Tensor3, p: Params): (r: Result<Tensor3>)
    requires WellFormed3(x) && p.Valid()
    ensures r.Ok? ==> WellFormed3(r.value)
  {
    var pool2 :- Group(x, p.conv2a, p.conv2);
    var pool3 :- Group(pool2, p.conv3a, p.conv3);
    Tail(pool3, p)
  }

  /** `forward` up to pool4: the convolutional feature extractor. */
  function Features(p: Params, data: Matrix): (r: Result<Tensor3>)
    requires WellFormed2(data) && p.Valid()
    ensures r.Ok? ==> WellFormed3(r.value)
  {
    var pool1 :- Stem(data, p.conv1);
    Trunk(pool1, p)
  }

  /** fc1, its max-feature-map and the output layer (main.py:257-260). */
  function Classifier(pool4: Tensor3, p: Params): (r: Result<Vector>)
    requires p.Valid()
    ensures r.Ok? ==> |r.value| == |p.fcoutBias|
  {
    var fc1 :- Fc(Vol(pool4), p.fcWeights, p.fcBias);
    var mfmFc1 :- MfmFc(fc1);
    Fc(Vec(mfmFc1.output), p.fcoutWeights, p.fcoutBias)
  }

  /** `forward(data)`: the features, then the classifier. */
  function Forward(p: Params, data: Matrix): (r: Result<Vector>)
    requires WellFormed2(data) && p.Valid()
    ensures r.Ok? ==> |r.value| == |p.fcoutBias|
  {
    var pool4 :- Features(p, data);
    Classifier(pool4, p)
  }

  // ------------------------------------------------------- the shape chain

  predicate HasLayer(layer: ConvLayer, fl: nat, fw: nat, h: nat, n: nat) {
    IsTensor4(layer.kernel, fl, fw, h, n) && |layer.bias| == n
  }

  /** The shapes `__init__` gives the parameters (main.py:189-210), with the
      width of the first fully-connected layer left open. */
  predicate LightCnnShapes(p: Params, fcWidth: nat) {
    && HasLayer(p.conv1, 5, 5, 1, 96)
    && HasLayer(p.conv2a, 1, 1, 48, 96) && HasLayer(p.conv2, 3, 3, 48, 192)
    && HasLayer(p.conv3a, 1, 1, 96, 192) && HasLayer(p.conv3, 3, 3, 96, 384)
    && HasLayer(p.conv4a, 1, 1, 192, 384) && HasLayer(p.conv4, 3, 3, 192, 256)
    && HasLayer(p.conv5a, 1, 1, 128, 256) && HasLayer(p.conv5, 3, 3, 128, 256)
    && fcWidth > 0 && IsMatrix(p.fcWeights, 8 * 8 * 128, fcWidth) && |p.fcBias| == fcWidth
    && IsMatrix(p.fcoutWeights, 256, 3095) && |p.fcoutBias| == 3095
  }

  lemma ShapesValid(p: Params, fcWidth: nat)
    requires LightCnnShapes(p, fcWidth)
    ensures p.Valid()
  {
  }

  /** An s x s x h map through a (1, 1, h, 2c) and a (3, 3, c, 2m) stage keeps
      its size and ends with m channels. */
  lemma PairShape(x: Tensor3, a: ConvLayer, b: ConvLayer, s: nat, h: nat, c: nat, m: nat)
    requires IsTensor3(x, s, s, h) && s > 0 && h > 0 && c > 0 && m > 0
    requires HasLayer(a, 1, 1, h, 2 * c) && HasLayer(b, 3, 3, c, 2 * m)
    ensures WellFormed3(x) && WellFormed4(a.kernel) && WellFormed4(b.kernel)
    ensures Pair(x, a, b).Ok? && IsTensor3(Pair(x, a, b).value, s, s, m)
  {
    var y := ConvMfm(x, a).value;
    assert IsTensor3(y, s, s, c);
    assert IsTensor3(PadVolume(y, 1), s + 2, s + 2, c);
  }

  lemma GroupShape(x: Tensor3, a: ConvLayer, b: ConvLayer, s: nat, h: nat, c: nat, m: nat)
    requires IsTensor3(x, s, s, h) && s > 0 && s % 2 == 0 && h > 0 && c > 0 && m > 0
    requires HasLayer(a, 1, 1, h, 2 * c) && HasLayer(b, 3, 3, c, 2 * m)
    ensures WellFormed3(x) && WellFormed4(a.kernel) && WellFormed4(b.kernel)
    ensures Group(x, a, b).Ok? && IsTensor3(Group(x, a, b).value, s / 2, s / 2, m)
  {
    PairShape(x, a, b, s, h, c, m);
  }

  /** A 128x128 image is 132x132 after padding, 128x128x48 after conv1 and
      its max-feature-map, and 64x64x48 after pool1. */
  lemma StemShape(data: Matrix, conv1: ConvLayer)
    requires IsMatrix(data, 128, 128) && HasLayer(conv1, 5, 5, 1, 96)
    ensures WellFormed2(data) && WellFormed4(conv1.kernel)
    ensures Stem(data, conv1).Ok? && IsTensor3(Stem(data, conv1).value, 64, 64, 48)
  {
    var pad1 := Padded(Mat(data), 2).value.m;
    assert IsMatrix(pad1, 132, 132);
    var mfm1 := ConvMfm(AsVolume(pad1), conv1).value;
    assert IsTensor3(mfm1, 128, 128, 48);
  }

  /** From 64x64x48 the trunk goes to 32x32x96, 16x16x192, 16x16x128 twice, and
      pool4 makes it 8x8x128. */
  lemma TrunkShape(x: Tensor3, p: Params, fcWidth: nat)
    requires IsTensor3(x, 64, 64, 48) && LightCnnShapes(p, fcWidth)
    ensures WellFormed3(x) && p.Valid()
    ensures Trunk(x, p).Ok? && IsTensor3(Trunk(x, p).value, 8, 8, 128)
  {
    ShapesValid(p, fcWidth);
    GroupShape(x, p.conv2a, p.conv2, 64, 48, 48, 96);
    var pool2 := Group(x, p.conv2a, p.conv2).value;
    GroupShape(pool2, p.conv3a, p.conv3, 32, 96, 96, 192);
    TailShape(Group(pool2, p.conv3a, p.conv3).value, p, fcWidth);
  }

  lemma TailShape(x: Tensor3, p: Params, fcWidth: nat)
    requires IsTensor3(x, 16, 16, 192) && LightCnnShapes(p, fcWidth)
    ensures WellFormed3(x) && p.Valid()
    ensures Tail(x, p).Ok? && IsTensor3(Tail(x, p).value, 8, 8, 128)
  {
    ShapesValid(p, fcWidth);
    PairShape(x, p.conv4a, p.conv4, 16, 192, 192, 128);
    var mfm4 := Pair(x, p.conv4a, p.conv4).value;
    PairShape(mfm4, p.conv5a, p.conv5, 16, 128, 128, 128);
    var mfm5 := Pair(mfm4, p.conv5a, p.conv5).value;
    assert PoolMap(mfm5).Ok? && IsTensor3(PoolMap(mfm5).value, 8, 8, 128);
  }

  /** A 128x128 image under those kernels reaches pool4 as an 8x8x128 map. */
  lemma FeaturesShape(p: Params, data: Matrix, fcWidth: nat)
    requires IsMatrix(data, 128, 128) && LightCnnShapes(p, fcWidth)
    ensures WellFormed2(data) && p.Valid()
    ensures Features(p, data).Ok? && IsTensor3(Features(p, data).value, 8, 8, 128)
  {
    ShapesValid(p, fcWidth);
    StemShape(data, p.conv1);
    TrunkShape(Stem(data, p.conv1).value, p, fcWidth);
  }

  /** fc1 on an 8x8x128 map has as many outputs as its weights have columns. */
  lemma Fc1Shape(pool4: Tensor3, p: Params, fcWidth: nat)
    requires IsTensor3(pool4, 8, 8, 128) && LightCnnShapes(p, fcWidth)
    ensures WellFormed2(p.fcWeights)
    ensures Fc(Vol(pool4), p.fcWeights, p.fcBias).Ok? && |Fc(Vol(pool4), p.fcWeights, p.fcBias).value| == fcWidth
  {
    Flatten3Length(pool4, 8, 8, 128);
  }

  /** As initialised, fc1 is 3095 wide, which `mfm_fc` rejects as odd
      (main.py:143): `forward` fails on every 128x128 image. */
  lemma ForwardAsWrittenFails(p: Params, data: Matrix)
    requires IsMatrix(data, 128, 128) && LightCnnShapes(p, 3095)
    ensures WellFormed2(data) && p.Valid()
    ensures Forward(p, data) == Err(InvalidArgument)
  {
    ShapesValid(p, 3095);
    FeaturesShape(p, data, 3095);
    var pool4 := Features(p, data).value;
    Fc1Shape(pool4, p, 3095);
    ClassifierRejectsOddFc1(pool4, p);
  }

  /** When fc1 has an odd number of outputs, the classifier stops at `mfm_fc`. */
  lemma ClassifierRejectsOddFc1(pool4: Tensor3, p: Params)
    requires p.Valid() && Fc(Vol(pool4), p.fcWeights, p.fcBias).Ok?
    requires |Fc(Vol(pool4), p.fcWeights, p.fcBias).value| % 2 == 1
    ensures Classifier(pool4, p) == Err(InvalidArgument)
  {
  }

  /** With fc1 512 wide, as `get_derivate_mfm_fc1` expects (main.py:324), the
      chain goes through and yields one score per class. */
  lemma ForwardIntendedShapeChain(p: Params, data: Matrix)
    requires IsMatrix(data, 128, 128) && LightCnnShapes(p, 512)
    ensures WellFormed2(data) && p.Valid()
    ensures Forward(p, data).Ok? && |Forward(p, data).value| == 3095
  {
    ShapesValid(p, 512);
    FeaturesShape(p, data, 512);
    var pool4 := Features(p, data).value;
    Fc1Shape(pool4, p, 512);
    var fc1 := Fc(Vol(pool4), p.fcWeights, p.fcBias).value;
    var mfmFc1 := MfmFc(fc1).value.output;
    assert |mfmFc1| == 256;
  }
}
