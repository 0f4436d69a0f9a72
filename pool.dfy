/** `pool` (main.py:82-104): 2x2 max-pooling with stride 2, each channel on its
    own, and the location mask that marks every input equal to its block's
    maximum. */
module Pooling {
  import opened Tensors

  datatype PoolOut = PoolOut(output: Tensor3, location: Mask3)

  /** The maximum of the 2x2 block whose top-left cell is (2i, 2j), channel c
      (`measure.block_reduce(data_in, (2,2,1), func=np.max)`). */
  function BlockMax(x: Tensor3, i: nat, j: nat, c: nat): real
    requires WellFormed3(x) && 2 * i + 1 < |x| && 2 * j + 1 < Width(x) && c < Height(x)
  {
    Max(Max(x[2 * i][2 * j][c], x[2 * i][2 * j + 1][c]), Max(x[2 * i + 1][2 * j][c], x[2 * i + 1][2 * j + 1][c]))
  }

  /** The pooled map, (l, w, h) -> (l/2, w/2, h). */
  function Pooled(x: Tensor3): (y: Tensor3)
    requires WellFormed3(x) && |x| % 2 == 0 && Width(x) % 2 == 0
    ensures WellFormed3(y) && IsTensor3(y, |x| / 2, Width(x) / 2, Height(x))
  {
    seq(|x| / 2, i requires 0 <= i < |x| / 2 =>
      seq(Width(x) / 2, j requires 0 <= j < Width(x) / 2 =>
        seq(Height(x), c requires 0 <= c < Height(x) => BlockMax(x, i, j, c))))
  }

  /** `np.repeat(np.repeat(output, 2, axis=0), 2, axis=1) == data_in` (main.py:91-92). */
  function PoolLocation(x: Tensor3, y: Tensor3): (m: Mask3)
    requires WellFormed3(x) && |x| % 2 == 0 && Width(x) % 2 == 0
    requires IsTensor3(y, |x| / 2, Width(x) / 2, Height(x))
    ensures IsMask3(m, |x|, Width(x), Height(x))
  {
    seq(|x|, i requires 0 <= i < |x| =>
      seq(Width(x), j requires 0 <= j < Width(x) =>
        seq(Height(x), c requires 0 <= c < Height(x) => y[i / 2][j / 2][c] == x[i][j][c])))
  }

  /** `pool(data_in)`: the first two dimensions must be even (main.py:89). */
  function Pool(x: Tensor3): (r: Result<PoolOut>)
    requires WellFormed3(x)
    ensures r.Ok? <==> |x| % 2 == 0 && Width(x) % 2 == 0
    ensures r.Err? ==> r.error == InvalidArgument
    ensures r.Ok? ==> WellFormed3(r.value.output)
    ensures r.Ok? ==> IsTensor3(r.value.output, |x| / 2, Width(x) / 2, Height(x))
    ensures r.Ok? ==> IsMask3(r.value.location, |x|, Width(x), Height(x))
  {
    if |x| % 2 != 0 || Width(x) % 2 != 0 then Err(InvalidArgument)
    else Ok(PoolOut(Pooled(x), PoolLocation(x, Pooled(x))))
  }

  /** The four cells of the block (2i, 2j) pooled into output (i, j). */
  predicate InBlock(i: nat, j: nat, p: nat, q: nat) {
    p / 2 == i && q / 2 == j
  }

  /** Output (i, j, c) bounds every cell of its block and is one of them. */
  lemma PoolIsBlockMax(x: Tensor3, i: nat, j: nat, c: nat)
    requires WellFormed3(x) && |x| % 2 == 0 && Width(x) % 2 == 0
    requires i < |x| / 2 && j < Width(x) / 2 && c < Height(x)
    ensures forall p, q :: 0 <= p < |x| && 0 <= q < Width(x) && InBlock(i, j, p, q) ==>
      Pool(x).value.output[i][j][c] >= x[p][q][c]
    ensures exists p, q ::
      0 <= p < |x| && 0 <= q < Width(x) && InBlock(i, j, p, q) && Pool(x).value.output[i][j][c] == x[p][q][c]
  {
    var y := Pool(x).value.output[i][j][c];
    forall p, q | 0 <= p < |x| && 0 <= q < Width(x) && InBlock(i, j, p, q)
      ensures y >= x[p][q][c]
    {
      assert p == 2 * i || p == 2 * i + 1;
      assert q == 2 * j || q == 2 * j + 1;
    }
    if y == x[2 * i][2 * j][c] {
      assert InBlock(i, j, 2 * i, 2 * j);
    } else if y == x[2 * i][2 * j + 1][c] {
      assert InBlock(i, j, 2 * i, 2 * j + 1);
    } else if y == x[2 * i + 1][2 * j][c] {
      assert InBlock(i, j, 2 * i + 1, 2 * j);
    } else {
      assert InBlock(i, j, 2 * i + 1, 2 * j + 1);
    }
  }

  /** An input is marked exactly when it equals the maximum of its block, that is,
      when no cell of its block exceeds it. */
  lemma PoolLocationIffBlockMax(x: Tensor3, p: nat, q: nat, c: nat)
    requires WellFormed3(x) && |x| % 2 == 0 && Width(x) % 2 == 0
    requires p < |x| && q < Width(x) && c < Height(x)
    ensures Pool(x).value.location[p][q][c] <==>
      forall p', q' :: 0 <= p' < |x| && 0 <= q' < Width(x) && InBlock(p / 2, q / 2, p', q') ==> x[p][q][c] >= x[p'][q'][c]
  {
    PoolIsBlockMax(x, p / 2, q / 2, c);
    var y := Pooled(x)[p / 2][q / 2][c];
    if forall p', q' :: 0 <= p' < |x| && 0 <= q' < Width(x) && InBlock(p / 2, q / 2, p', q') ==> x[p][q][c] >= x[p'][q'][c] {
      var p', q' :| 0 <= p' < |x| && 0 <= q' < Width(x) && InBlock(p / 2, q / 2, p', q') && y == x[p'][q'][c];
      assert InBlock(p / 2, q / 2, p, q);
    }
  }

  /** Every 2x2 block holds at least one marked cell. */
  lemma PoolCoversBlock(x: Tensor3, i: nat, j: nat, c: nat)
    requires WellFormed3(x) && |x| % 2 == 0 && Width(x) % 2 == 0
    requires i < |x| / 2 && j < Width(x) / 2 && c < Height(x)
    ensures exists p, q :: 0 <= p < |x| && 0 <= q < Width(x) && InBlock(i, j, p, q) && Pool(x).value.location[p][q][c]
  {
    PoolIsBlockMax(x, i, j, c);
  }
}
