# LightCNN-9 tensor operators in Dafny

This project models the operator layer of a from-scratch numpy implementation of
LightCNN-9, a face-recognition network.

The forward operators are modelled one by one:

- `padding`: a zero border around the first two axes.
- `conv`: a valid convolution with stride 1, computed through an im2col array.
- `mfm` and `mfm_fc`: max-feature-map 2/1. They return the element-wise maximum
  of the two channel halves and a location mask.
- `pool`: 2x2 max-pooling with stride 2 and its location mask.
- `fc`: a fully-connected layer.

So are the hand-written adjoints that `train` defines:

- `get_derivative_fcout`, `get_derivate_mfm_fc1`, `get_derivative_pool` and
  `get_derivative_mfm`.
- `rot180`.
- The weight-gradient loop and the bias sum of `get_derivative_conv` and
  `get_derivative_conv1`.

The fixed pipeline of `forward` is modelled for its shapes. The project proves
that, with the shapes `__init__` gives the parameters, `forward` cannot get
past `mfm_fc`.

Arrays are nested sequences of reals, indexed `[row][column][channel]`, and
filter banks are `[row][column][in][out]`. A numpy assertion or a numpy shape
error becomes an `Err` of a `Result`: `InvalidArgument` for an odd size
that `mfm`, `mfm_fc` or `pool` cannot halve, and for a bad rank or pad size in
`padding`; `ShapeMismatch` otherwise. Every operator function (`padding`, `conv`,
`mfm`, `mfm_fc`, `pool`, `fc` and the hand-written adjoints) states when it
succeeds, in both directions. The stages of the `forward` pipeline state only
what a success yields; the shape lemmas of `Network` say when they succeed.
Where the source builds its result element by element or slot by slot in a
zero array (`padding`, the im2col array and the output of `conv`, `rot180`,
the dw loop of the conv gradients), the model is a method over Dafny arrays.
The `split` and `repmax` buffers of `mfm` and `mfm_fc`, and the `conv_input`
array of `forward`, become functions instead. Each such method is proved equal to a
specification function (`Padding`, `Conv`, `Rot180`, `WeightGradient`,
`DerivativeConv`), and the properties are proved as lemmas about those
functions.

Modules, one per file: `Tensors` (tensors.dfy), `Padding`, `Convolution` (conv.dfy),
`MaxFeatureMap` (mfm.dfy), `Pooling` (pool.dfy), `Dense`, `Backward`,
`ConvGradient` (convgrad.dfy), `Network`.

## Model

| member | source | states |
|---|---|---|
| Tensors.AsVolume | main.py:223-224 | the matrix becomes a one-channel map with the same entries |
| Tensors.Flatten3Length | main.py:126 | flattening an l x w x h array gives l*w*h values |
| Tensors.Unflatten3At | main.py:418 | cell (i, j, k) of `reshape((l, w, h))` is element i*w*h + j*h + k of the flat vector |
| Tensors.Unflatten3OfFlatten3 | main.py:418 | reshaping a flattened array back to its shape gives it back |
| Tensors.Flatten3OfUnflatten3 | main.py:418 | flattening the reshaped vector gives the vector back, the other half of the reshape round trip |
| Padding.Padded | main.py:106-119 | succeeds exactly for rank 2 or 3 and a positive pad size; the first two axes grow by 2n and the channels stay |
| Padding.Padding | main.py:106-119 | the zero-array-and-slice-assignment method computes `Padded`, error cases included |
| Padding.FillPaddedMatrix | main.py:113-115 | filling a zero (l+2n, w+2n) array's centre with the matrix gives the padded matrix |
| Padding.FillPaddedVolume | main.py:116-118 | the same for a rank-3 array: every channel is copied and none is padded |
| Padding.PaddedInterior | main.py:113-118 | the input sits unchanged at offset (n, n) |
| Padding.PaddedBorderIsZero | main.py:113-118 | every cell outside the copied input is 0, in every channel |
| Padding.CropUndoesPadding | main.py:106-119 | `x[n:-n, n:-n]` of the padded array is the input again |
| Padding.CropPadMatrix | main.py:113-115 | the crop round trip for a matrix |
| Padding.CropPadVolume | main.py:116-118 | the crop round trip for a rank-3 array |
| Convolution.Patch | main.py:52 | the window at (i, j) has the filter's size, and its cell (a, b, c) is x[i+a][j+b][c] |
| Convolution.FilterSlice | main.py:54 | filter k of the bank, entry by entry |
| Convolution.Convolved | main.py:35-61 | succeeds exactly when the channel counts and the bias length agree and the filter fits; the output is (l-fl+1, w-fw+1, n) |
| Convolution.ConvolvedAt | main.py:56-60 | output cell (i, j, k) is the window at (i, j) paired with filter k, plus bias k: the direct form the loop replaced, which `Correlate` builds |
| Convolution.Conv | main.py:43-61 | the im2col method computes `Convolved`, error cases included |
| Convolution.Img2col | main.py:49-52 | row (i, j) of the im2col array is the flattened window at (i, j) |
| Convolution.ApplyFilters | main.py:53-55 | the array times each flattened filter, plus its bias, is the direct-form correlation |
| Convolution.FillChannel | main.py:55 | one pass writes channel k of every pixel and changes nothing else |
| Convolution.ZeroFilterGivesBias | main.py:53-55 | under an all-zero filter bank every output cell equals its channel's bias |
| Convolution.FullyCollapsedZeroOutput | main.py:35-61 | a 5x5x1 input under a zero 5x5 bank with zero bias gives a 1x1 map of zeros |
| Convolution.PatchRowAsWritten | main.py:52 | the row the line really assigns: exact when the sizes agree, a broadcast of a single value, or a numpy error |
| Convolution.SquarePatchRowAgrees | main.py:52 | for square filters that row is exactly `PatchRow` |
| Convolution.NonSquareFilterRejected | main.py:52 | a 3x3x1 input with a 2x1 filter has a valid 2x3 output, but the line as written raises |
| MaxFeatureMap.Halved | main.py:71-74 | one value per pair, half the input's length |
| MaxFeatureMap.Located | main.py:75-77 | one mask entry per input |
| MaxFeatureMap.MfmFc | main.py:137-154 | succeeds exactly for an even length, an odd one is `InvalidArgument`; the output has half the length and the mask the full length |
| MaxFeatureMap.HalvedIsPairMax | main.py:145-148 | output c is at least inputs c and c+half and equals one of them |
| MaxFeatureMap.LocatedIffPairMax | main.py:149-151 | an input is marked exactly when it is at least its partner in the other half |
| MaxFeatureMap.LocatedCoversPair | main.py:149-151 | at least one member of every pair is marked |
| MaxFeatureMap.LocatedTie | main.py:149-151 | both members of a pair are marked exactly when they are equal |
| MaxFeatureMap.MfmFcExample | main.py:137-154 | on [1..8] the output is [5, 6, 7, 8] and only the second half is marked |
| MaxFeatureMap.Mfm | main.py:63-80 | succeeds exactly for an even channel count, an odd one is `InvalidArgument`: output (l, w, h/2), mask (l, w, h) |
| MaxFeatureMap.MfmIsPairMax | main.py:71-74 | output (i, j, c) bounds channels c and c+h/2 of its pixel and equals one of them |
| MaxFeatureMap.MfmLocationIffPairMax | main.py:75-77 | a channel is marked exactly when it is at least its partner channel |
| MaxFeatureMap.MfmCoversPair | main.py:75-77 | one channel of every pair is marked |
| MaxFeatureMap.MfmTie | main.py:75-77 | both channels of a pair are marked exactly on a tie |
| Pooling.Pooled | main.py:90 | the pooled map is (l/2, w/2, h) |
| Pooling.PoolLocation | main.py:91-92 | the mask has the input's shape |
| Pooling.Pool | main.py:82-104 | succeeds exactly when the first two sizes are even, an odd one is `InvalidArgument`, with the output and mask shapes of main.py:102-103 |
| Pooling.PoolIsBlockMax | main.py:90 | output (i, j, c) bounds every cell of its 2x2 block and is one of them |
| Pooling.PoolLocationIffBlockMax | main.py:91-92 | an input is marked exactly when no cell of its block exceeds it |
| Pooling.PoolCoversBlock | main.py:91-92 | every block holds a marked cell |
| Dense.Column | main.py:133 | column k of the weights, as `np.matmul` reads it |
| Dense.Outer | main.py:306 | `x[:, None] @ g[:, None].T` is an \|x\| by \|g\| matrix |
| Dense.Fc | main.py:121-135 | succeeds exactly when the flattened input matches the weights' rows and the bias matches their columns; output k is <flattened input, column k> + b[k], the `np.matmul` of main.py:133 that `VecMat` computes |
| Dense.FcoutDerivative | main.py:300-315 | succeeds exactly under the two shape assertions; dw[i][k] = x[i]*g[k] with the weights' shape, db = g, dx[i] = <W[i], g> for every weight row i |
| Dense.VecMatAdjoint | main.py:313 | the transpose identity <v W, g> = <v, W g> |
| Dense.OuterFrob | main.py:306 | <x g^T, V> = <x, V g> |
| Dense.FcInputGradientIsAdjoint | main.py:313 | for every input v, <fc(v), g> = <v, dx> + <b, g>: dx is the input gradient |
| Dense.FcWeightGradientIsAdjoint | main.py:306 | for every weight matrix V, <fc with V, g> = <dw, V> + <b, g>: dw is the weight gradient |
| Dense.FcBiasGradientIsAdjoint | main.py:310 | shifting the bias by d shifts <fc, g> by <d, db> |
| Backward.ModHalf | main.py:432 | for c < 2h, c mod h is c itself below h and c - h from h on, so channel c of the doubled gradient comes from channel c or c - h |
| Backward.Doubled3 | main.py:432 | `concatenate((g, g), axis=-1)` repeats every pixel's channels |
| Backward.MfmDerivative | main.py:427-436 | succeeds exactly when the mask has the doubled gradient's shape |
| Backward.MfmDerivativeAt | main.py:432-434 | entry (i, j, c) is g[i][j][c mod h] where marked and 0 elsewhere |
| Backward.MfmDerivativeRoutesPair | main.py:427-436 | through the mask of `mfm(x)`, a pair receives twice g[c] on a tie and g[c] once otherwise |
| Backward.MfmUnitGradientTie | main.py:427-436 | with a unit upstream gradient, a tied pair receives 2 in total |
| Backward.MfmFc1Derivative | main.py:317-328 | succeeds exactly for a 256-entry gradient and a 512-entry mask; entry c is g[c mod 256] where marked and 0 elsewhere |
| Backward.MfmFc1DerivativeRoutesPair | main.py:317-328 | through the mask of `mfm_fc`, pair (c, c+256) receives g[c] twice on a tie and once otherwise |
| Backward.Upsampled | main.py:419 | the 2x nearest-neighbour copy: cell (i, j, c) is t[i/2][j/2][c] |
| Backward.PoolDerivative | main.py:413-424 | succeeds exactly when the gradient has as many values as the pooled map and the mask has exactly the unpooled shape (see Left out for broadcast masks); the result has the unpooled shape |
| Backward.PoolDerivativeAtFlat | main.py:418-421 | for a flat gradient, cell (i, j, c) is element (i/2)*w*h + (j/2)*h + c where marked, 0 elsewhere |
| Backward.PoolDerivativeAt | main.py:418-421 | for a gradient of the pooled shape, cell (i, j, c) is g[i/2][j/2][c] where marked, 0 elsewhere |
| Backward.PoolGradientReachesBlock | main.py:413-424 | through the mask of `pool(x)`, every pooled gradient value reaches some cell of its block |
| Backward.UnitPoolGradient | main.py:413-424 | the gradient routed back through `pool(x)` from a unit upstream gradient has the input's shape |
| Backward.UnitPoolGradientAt | main.py:413-424 | with a unit upstream gradient, a cell receives 1 where it equals the pooled value of its block and 0 elsewhere |
| Backward.PoolUnitGradientAtMax | main.py:413-424 | with a unit upstream gradient, a cell receives 1 exactly when no cell of its 2x2 block exceeds it, and 0 otherwise |
| Backward.PoolUnitGradientBlockSum | main.py:413-424 | with a unit upstream gradient, the four cells of a block receive in total the number of cells that tie for its maximum |
| ConvGradient.Rotated180 | main.py:348-356 | the bank keeps its shape |
| ConvGradient.Rot180Involution | main.py:355 | turning twice gives the filters back |
| ConvGradient.Rot180 | main.py:352-356 | the array method computes `Rotated180`: entry (a, b, c, k) is f[fl-1-a][fw-1-b][c][k] |
| ConvGradient.RotateSlice | main.py:355 | one pass writes slice (c, k) turned and changes nothing else |
| ConvGradient.Channel | main.py:372 | input channel j as a one-channel map |
| ConvGradient.Kernel | main.py:369-371 | gradient channel i as a one-filter bank |
| ConvGradient.WeightGradientOf | main.py:366-372 | succeeds exactly when the loop's indexing, the correlation and the slot broadcast all go through; dw has the filters' shape |
| ConvGradient.WeightGradientAt | main.py:372 | when the correlation has the filter's size, dw[a][b][c][k] pairs input channel c shifted by (a, b) with gradient channel k |
| ConvGradient.WeightGradientBroadcastsScalar | main.py:372 | when the gradient is as large as the input, every cell of the slot holds the same single pairing |
| ConvGradient.WeightGradient | main.py:366-372 | the loop over a zero array computes `WeightGradientOf`, error cases included |
| ConvGradient.FillSlot | main.py:372 | slot (:, :, j, i) receives the correlation, broadcast along every axis of size 1 as numpy allows, and nothing else changes |
| ConvGradient.SpatialSum | main.py:387 | one sum per channel |
| ConvGradient.BiasGradient | main.py:387-388 | succeeds exactly when the gradient has as many channels as the bias |
| ConvGradient.SpatialSumDot | main.py:387 | <sum over pixels of g, v> = <g, v repeated at every pixel> |
| ConvGradient.BiasGradientIsAdjoint | main.py:387 | shifting conv's bias by d shifts <conv, g> by <db, d>: db is the bias gradient |
| ConvGradient.ConvDerivativeOf | main.py:358-389 | succeeds exactly when the dw loop and the bias assertion go through; dw and db are the two gradients above |
| ConvGradient.DerivativeConv | main.py:358-389 | the method computes `ConvDerivativeOf` |
| ConvGradient.DerivativeConv1 | main.py:391-411 | on a one-channel image it is `ConvDerivativeOf` of the image as a map |
| ConvGradient.Conv1GradientAsWrittenIsFlat | main.py:560 | on the unpadded image, every cell of a 5x5 conv1 slot holds the same value |
| ConvGradient.Conv1GradientOnPaddedInput | main.py:441-445 | on the padded image, cell (a, b) of slot k pairs gradient channel k with the padded image shifted by (a, b) |
| Network.ConvMfm | main.py:226-227 | `mfm(conv(x))` succeeds exactly when conv's guard holds and the filter count is even, with the halved channel count |
| Network.PadConvMfm | main.py:233-234 | the same after padding by 1: a 3x3 stage keeps the spatial size |
| Network.PoolMap | main.py:229 | `pool(x)[0]` succeeds exactly for even sizes and halves them |
| Network.Forward | main.py:220-263 | a successful forward pass has one score per output bias entry; it is `Stem` (main.py:222-229), the trunk to pool4, then `Classifier` (fc1, `mfm_fc`, fc2 at main.py:256-263) |
| Network.PairShape | main.py:231-234 | a 1x1 stage and a padded 3x3 stage keep an s x s map's size |
| Network.GroupShape | main.py:231-236 | a pair of stages and a pooling halve it |
| Network.StemShape | main.py:222-229 | a 128x128 image becomes 64x64x48 after conv1, mfm and pool1 |
| Network.TrunkShape | main.py:231-255 | from 64x64x48 the trunk reaches 8x8x128 |
| Network.TailShape | main.py:245-255 | from 16x16x192 stages 4 and 5 and pool4 reach 8x8x128 |
| Network.FeaturesShape | main.py:222-255 | a 128x128 image reaches pool4 as an 8x8x128 map |
| Network.Fc1Shape | main.py:257 | fc1 on that map has as many outputs as its weights have columns |
| Network.ForwardAsWrittenFails | main.py:257-258 | with fc1 3095 wide, as initialised, `forward` fails at `mfm_fc` with `InvalidArgument` on every 128x128 image |
| Network.ClassifierRejectsOddFc1 | main.py:256-259 | when fc1 has an odd number of outputs, the classifier stops at the even-length assertion of `mfm_fc` (main.py:143) with `InvalidArgument` |
| Network.ForwardIntendedShapeChain | main.py:257-260 | with fc1 512 wide, `forward` succeeds and gives 3095 scores |

## Left out

- `traindata_loader` (main.py:13-33): file globbing, image decoding and one-hot labels are I/O.
- `softmax` and `cross_entropy` (main.py:156-179): floating-point exponentials and logarithms, left out with the loss.
- `get_derivative_softmax` (main.py:293-298): a plain subtraction `fc2_output - label_vec`, left out only because the loss it differentiates is.
- Random initialisation and the pickle load and save (main.py:182-210, main.py:583-587). The parameter shapes the initialisation fixes are kept, as `Network.LightCnnShapes`.
- Timing and `print` calls: they do not affect any value.
- `backprob` end to end (main.py:438-575), `update_batch` and `SGD` (main.py:266-291): left out with the training loop. Only the single operators it calls are modelled.
- `get_derivative_fc` (main.py:330-346): `backprob` never calls it.
- ConvGradient.ConvDerivativeOf: the input gradient `dx` (main.py:380-386, conv of the padded output with the turned and transposed filters, then a crop) is not modelled. Nor is any failure it would raise, so the model only reports the failures of dw and db.
- ConvGradient.DerivativeConv: the method computes `ConvDerivativeOf`, so it leaves out the same `dx` and its failures.
- ConvGradient.WeightGradient: the model's correlation uses a window as wide as the filter. Line 52's `filter_len` for the width is shown separately by `PatchRowAsWritten`. Every map in this network is square, so the gradient kernels are square too.
- Backward.MfmFc1Derivative: a one-element mask, which numpy would broadcast, is treated as a shape mismatch. A gradient is read as the (256, 1) column `get_derivative_fcout` returns. A flat 256-entry array, for which `np.vstack` (main.py:322) builds a (2, 256) array that fails the assertion at main.py:324, is accepted like the column.
- Backward.PoolDerivative: only a mask of the unpooled shape (2l, 2w, h) is accepted. numpy would also broadcast a mask with size-1 axes against the upsampled gradient at main.py:421, and such a mask is reported as a shape mismatch.
- Backward.MfmDerivative: only a mask of the doubled gradient's full shape is accepted. numpy would also broadcast size-1 axes.
- Tensors.WellFormed2: every axis of every array is assumed non-empty. A (n, 1) column and a flat vector are both modelled as a vector, and rank assertions are carried by the types.
- Convolution.Convolved: when the channel and bias assertions (main.py:41-42) hold and `l-fl+1` or `w-fw+1` is 0 while the other is not negative, numpy builds an empty output of shape (l-fl+1, w-fw+1, n) (main.py:45-60). The model reports the failed guard instead.
- Floating point is modelled as real arithmetic. Rounding, overflow and NaN are not modelled, so equality ties in the max masks are exact.

## Findings

| source | as written | input that shows it | evidently intended | confidence | as-written member | corrected member |
|---|---|---|---|---|---|---|
| main.py:207 | `fc_weights` is (8192, 3095), so fc1 has 3095 outputs, and `mfm_fc` asserts an even length (main.py:143) | any 128x128 image with the initialised parameters | fc1 512 wide: `get_derivate_mfm_fc1` asserts 512 (main.py:324), the docstring at main.py:334 says (8*8*128, 512), and fcout takes 256 inputs (main.py:209) | not executed | Network.ForwardAsWrittenFails | Network.ForwardIntendedShapeChain |
| main.py:52 | the im2col window takes `j:j+filter_len` columns, the filter's length instead of its width | a 3x3x1 input with a 2x1x1x1 filter: the windows are 2x2, 4 values for rows of 2 | `j:j+filter_width` | not executed | Convolution.NonSquareFilterRejected | Convolution.Conv |
| main.py:560 | `get_derivative_conv1` receives the unpadded 128x128 image, while conv1 ran on the image padded by 2 (main.py:441-445) | any 128x128 image and 128x128x96 gradient: the correlation is 1x1 and is repeated over every 5x5 slot | pass `padding(data, 2)`, which gives a 5x5 correlation | not executed | ConvGradient.Conv1GradientAsWrittenIsFlat | ConvGradient.Conv1GradientOnPaddedInput |
