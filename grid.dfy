/**
 * The block grid shared by terrain and flora generation: the block edge length,
 * the world objects the generators emit, and floored/ceiled alignment of
 * horizontal coordinates and heights to block boundaries.
 */
module Grid {

  /** Edge length of a terrain block, in pixels. */
  const BlockSize: int := 30

  /**
   * A world object produced by generation. Terrain blocks are known by their
   * top-left corner; trunks, leaves and fruits come out of the tree builder,
   * which is outside this model, and are known only by an opaque handle.
   */
  datatype Obj = Block(x: int, y: int) | Plant(handle: int)

  /** The largest block boundary at or below x: floored, also for negative x. */
  function AlignDown(x: int): (r: int)
    ensures r % BlockSize == 0
    ensures r <= x < r + BlockSize
  {
    (x / BlockSize) * BlockSize
  }

  /** The smallest block boundary at or above x: ceiled, also for negative x. */
  function AlignUp(x: int): (r: int)
    ensures r % BlockSize == 0
    ensures r - BlockSize < x <= r
  {
    -((-x) / BlockSize) * BlockSize
  }

  /** A whole number of blocks from the origin is a block boundary, so both alignments leave it in place. */
  lemma Boundary(n: int)
    ensures AlignDown(n * BlockSize) == n * BlockSize
    ensures AlignUp(n * BlockSize) == n * BlockSize
  {
    assert n * BlockSize == n * 30;
    assert (n * 30) / 30 == n;
    assert (-(n * 30)) / 30 == -n;
  }

  /** A real height floored to a block boundary (the largest multiple of BlockSize not above it). */
  function FloorToBlock(h: real): (r: int)
    ensures r % BlockSize == 0
    ensures r as real <= h < r as real + BlockSize as real
  {
    (h / BlockSize as real).Floor * BlockSize
  }
}
