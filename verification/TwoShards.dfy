/** A world of two shards side by side, for concrete runs. */
module TwoShards {
  import opened World

  const TWO: Grid := Grid(2.0, 1.0, 2, 1)
  const WEST: ShardId := ShardId(0, 0)
  const EAST: ShardId := ShardId(0, 1)

  lemma Places2(x: real, y: real)
    ensures ShardIdFor(x, y, TWO) == if x >= 1.0 then EAST else WEST
  {
    assert TWO.width / TWO.cols as real == 1.0 && TWO.height / TWO.rows as real == 1.0;
    assert x / 1.0 == x;
  }
}
