/**
 * Terrain generation: the ground height field and the column-by-column
 * construction of terrain blocks over a horizontal range.
 */
module TerrainGen {
  import opened Grid
  import opened Seqs

  /** Number of blocks stacked below the ground surface in every column. */
  const TerrainDepth: int := 20

  /**
   * A terrain generator. The noise generator, seeded once at construction and
   * sampled with wavelength BlockSize * 10, is outside this model: `noise` is
   * that seeded generator as a function of x.
   */
  datatype Terrain = Terrain(windowHeight: real, noise: real -> real)

  /** Ground height at x = 0 before noise: two thirds of the window height. */
  function BaseHeight(t: Terrain): real
  {
    t.windowHeight * 2.0 / 3.0
  }

  /** The y coordinate of the ground surface at x; a function of x and the generator only. */
  function GroundHeightAt(t: Terrain, x: real): real
  {
    BaseHeight(t) + t.noise(x)
  }

  /** Top y of a column's surface block: the ground height floored to the block grid. */
  function ColumnTop(t: Terrain, x: int): (top: int)
    ensures top % BlockSize == 0
    ensures top as real <= GroundHeightAt(t, x as real) < top as real + BlockSize as real
  {
    FloorToBlock(GroundHeightAt(t, x as real))
  }

  /** TerrainDepth blocks at x, the first with its top at topY, each one block lower than the last. */
  function Stack(x: int, topY: int): seq<Obj>
  {
    seq(TerrainDepth, i => Block(x, topY + i * BlockSize))
  }

  /** The TerrainDepth blocks of column x, from the surface downward. */
  function Column(t: Terrain, x: int): seq<Obj>
  {
    Stack(x, ColumnTop(t, x))
  }

  /** The blocks of columns x, x + BlockSize, ... up to and including endX. */
  function BlocksFrom(t: Terrain, x: int, endX: int): seq<Obj>
    decreases endX - x + BlockSize
  {
    if x > endX then [] else Column(t, x) + BlocksFrom(t, x + BlockSize, endX)
  }

  /**
   * Terrain.createInRange: aligns minX down and maxX up to the block grid and
   * emits every column of the closed range, TerrainDepth blocks per column.
   */
  method CreateInRange(t: Terrain, minX: int, maxX: int) returns (blocks: seq<Obj>)
    ensures blocks == BlocksFrom(t, AlignDown(minX), AlignUp(maxX))
  {
    blocks := [];
    var startX := AlignDown(minX);
    var endX := AlignUp(maxX);
    var x := startX;
    while x <= endX
      invariant blocks + BlocksFrom(t, x, endX) == BlocksFrom(t, startX, endX)
      decreases endX - x + BlockSize
    {
      var topY := ColumnTop(t, x);
      ghost var before := blocks;
      blocks := AddStack(blocks, x, topY);
      ConcatAssociative(before, Column(t, x), BlocksFrom(t, x + BlockSize, endX));
      x := x + BlockSize;
    }
  }

  /** The inner loop of createInRange: appends the TerrainDepth blocks of one column. */
  method AddStack(blocks: seq<Obj>, x: int, topY: int) returns (out: seq<Obj>)
    ensures out == blocks + Stack(x, topY)
  {
    out := blocks;
    ghost var stack := Stack(x, topY);
    var i := 0;
    while i < TerrainDepth
      invariant 0 <= i <= TerrainDepth
      invariant out == blocks + stack[..i]
    {
      var block := Block(x, topY + i * BlockSize);
      assert stack[..i + 1] == stack[..i] + [block];
      ConcatAssociative(blocks, stack[..i], [block]);
      out := out + [block];
      i := i + 1;
    }
    assert stack[..i] == stack;
  }

  /** Every column of [x, endX] contributes exactly TerrainDepth blocks. */
  lemma {:induction false} BlocksFromLength(t: Terrain, x: int, endX: int)
    ensures x <= endX ==> |BlocksFrom(t, x, endX)| == TerrainDepth * ((endX - x) / BlockSize + 1)
    ensures x > endX ==> BlocksFrom(t, x, endX) == []
    decreases endX - x + BlockSize
  {
    if x <= endX {
      BlocksFromLength(t, x + BlockSize, endX);
      if x + BlockSize <= endX {
        assert (endX - x) / BlockSize == (endX - x - BlockSize) / BlockSize + 1;
      }
    }
  }

  /**
   * Block j of the output lies in column x + BlockSize * (j / TerrainDepth),
   * at depth j % TerrainDepth below that column's surface.
   */
  lemma {:induction false} BlocksFromAt(t: Terrain, x: int, endX: int, j: int)
    requires 0 <= j < |BlocksFrom(t, x, endX)|
    ensures var cx := x + BlockSize * (j / TerrainDepth);
      && x <= cx <= endX
      && BlocksFrom(t, x, endX)[j] == Block(cx, ColumnTop(t, cx) + BlockSize * (j % TerrainDepth))
    decreases endX - x + BlockSize
  {
    if j >= TerrainDepth {
      BlocksFromAt(t, x + BlockSize, endX, j - TerrainDepth);
      assert (j - TerrainDepth) / TerrainDepth == j / TerrainDepth - 1;
      assert (j - TerrainDepth) % TerrainDepth == j % TerrainDepth;
    }
  }

  /** Output order: increasing x, and increasing depth within a column. */
  lemma BlocksFromOrdered(t: Terrain, x: int, endX: int, i: int, j: int)
    requires 0 <= i < j < |BlocksFrom(t, x, endX)|
    ensures var bi, bj := BlocksFrom(t, x, endX)[i], BlocksFrom(t, x, endX)[j];
      bi.Block? && bj.Block? && (bi.x < bj.x || (bi.x == bj.x && bi.y < bj.y))
  {
    BlocksFromAt(t, x, endX, i);
    BlocksFromAt(t, x, endX, j);
    assert i / TerrainDepth <= j / TerrainDepth;
    if i / TerrainDepth == j / TerrainDepth {
      assert i % TerrainDepth < j % TerrainDepth;
    }
  }

  /** From an aligned start, every block corner lies on the block grid. */
  lemma BlocksFromAligned(t: Terrain, x: int, endX: int, j: int)
    requires x % BlockSize == 0
    requires 0 <= j < |BlocksFrom(t, x, endX)|
    ensures BlocksFrom(t, x, endX)[j].Block?
    ensures BlocksFrom(t, x, endX)[j].x % BlockSize == 0
    ensures BlocksFrom(t, x, endX)[j].y % BlockSize == 0
  {
    BlocksFromAt(t, x, endX, j);
    var cx := x + BlockSize * (j / TerrainDepth);
    OnGrid(x, j / TerrainDepth);
    OnGrid(ColumnTop(t, cx), j % TerrainDepth);
  }

  /** Whole numbers of blocks away from a block boundary is again a block boundary. */
  lemma OnGrid(a: int, m: int)
    requires a % BlockSize == 0
    ensures (a + BlockSize * m) % BlockSize == 0
  {
    assert a + BlockSize * m == BlockSize * (a / BlockSize + m);
  }

  /** Block i of a grid column x of the range [a, endX] appears in the range's blocks, at position k. */
  lemma ColumnInRange(t: Terrain, a: int, x: int, endX: int, i: int) returns (k: nat)
    requires a <= x <= endX && (x - a) % BlockSize == 0
    requires 0 <= i < TerrainDepth
    ensures k < |BlocksFrom(t, a, endX)| && BlocksFrom(t, a, endX)[k] == Column(t, x)[i]
  {
    var before, after := BlocksFrom(t, a, x - BlockSize), BlocksFrom(t, x + BlockSize, endX);
    BlocksFromSplit(t, a, x, endX);
    assert BlocksFrom(t, x, endX) == Column(t, x) + after;
    k := |before| + i;
    assert BlocksFrom(t, a, endX) == before + (Column(t, x) + after);
  }

  /**
   * Splitting a range at a column m of the same grid gives the concatenation of
   * the two sub-ranges: a column's blocks do not depend on the range asking for it.
   */
  lemma {:induction false} BlocksFromSplit(t: Terrain, x: int, m: int, endX: int)
    requires x <= m <= endX + BlockSize
    requires (m - x) % BlockSize == 0
    ensures BlocksFrom(t, x, endX) == BlocksFrom(t, x, m - BlockSize) + BlocksFrom(t, m, endX)
    decreases m - x
  {
    if m > x {
      BlocksFromSplit(t, x + BlockSize, m, endX);
    }
  }
}
