/**
 * Flora generation: per aligned column, a random stream seeded only from the
 * column and the world seed decides whether a tree stands there; trees add
 * one trunk and their leaves and fruits to three lists, in column order.
 */
module FloraGen {
  import opened Grid
  import opened Pack

  /**
   * Random.nextFloat() is next(24) / 2^24 and 0.1f is 13421773 * 2^-27, so
   * nextFloat() < 0.1f holds exactly when next(24) < 1677722.
   */
  const TreeCutoff: int := 1677722

  /** A 24-bit draw: the bits that Random.nextFloat() scales into [0, 1). */
  type Draw24 = d: int | 0 <= d < 0x100_0000

  /** What the tree builder returns for one column. */
  datatype Tree = Tree(trunk: Obj, leaves: seq<Obj>, fruits: seq<Obj>)

  /**
   * A flora generator. The pieces outside this model are fields:
   * `hash` is Objects.hash on (x, worldSeed), `firstDraw` is the first
   * nextFloat() of a Random made from a seed (as its 24 bits), and
   * `createAt` is Tree.createAt, given the column and the stream's seed (the
   * stream it continues to draw from is determined by that seed).
   */
  datatype Flora = Flora(
    worldSeed: int,
    hash: (int, int) -> int,
    firstDraw: int -> Draw24,
    createAt: (int, int) -> Tree)

  /** Three lists of flora objects, as a value. */
  datatype Plants = Plants(trunks: seq<Obj>, leaves: seq<Obj>, fruits: seq<Obj>)

  const NoPlants := Plants([], [], [])

  /** List-by-list concatenation. */
  function Join(p: Plants, q: Plants): Plants
  {
    Plants(p.trunks + q.trunks, p.leaves + q.leaves, p.fruits + q.fruits)
  }

  /** The seed of column x's random stream: only x and the world seed feed it. */
  function ColumnSeed(f: Flora, x: int): int
  {
    f.hash(x, f.worldSeed)
  }

  /**
   * A tree stands at column x iff the first nextFloat() of the Random seeded
   * with the hash of x and the world seed is below 0.1f.
   */
  predicate HasTree(f: Flora, x: int)
    ensures HasTree(f, x) <==>
      (f.firstDraw(f.hash(x, f.worldSeed)) as real) / 16777216.0 < 13421773.0 / 134217728.0
  {
    TreeCutoffIsTenPercent(f.firstDraw(ColumnSeed(f, x)));
    f.firstDraw(ColumnSeed(f, x)) < TreeCutoff
  }

  function TreeAt(f: Flora, x: int): Tree
  {
    f.createAt(x, ColumnSeed(f, x))
  }

  /** What column x contributes: its tree's trunk, leaves and fruits, or nothing. */
  function ColumnPlants(f: Flora, x: int): Plants
  {
    if HasTree(f, x) then Plants([TreeAt(f, x).trunk], TreeAt(f, x).leaves, TreeAt(f, x).fruits)
    else NoPlants
  }

  /** The flora of columns x, x + BlockSize, ... up to and including endX, in column order. */
  function PlantsFrom(f: Flora, x: int, endX: int): Plants
    decreases endX - x + BlockSize
  {
    if x > endX then NoPlants else Join(ColumnPlants(f, x), PlantsFrom(f, x + BlockSize, endX))
  }

  /** The columns of [x, endX] on x's grid that hold a tree, in increasing order. */
  function TreeColumns(f: Flora, x: int, endX: int): seq<int>
    decreases endX - x + BlockSize
  {
    if x > endX then []
    else (if HasTree(f, x) then [x] else []) + TreeColumns(f, x + BlockSize, endX)
  }

  /**
   * Flora.createInRange: aligns both ends of [minX, maxX] down to the block
   * grid and visits every column of the closed range once, in increasing order.
   */
  method CreateInRange(f: Flora, minX: int, maxX: int) returns (pack: FloraPack)
    ensures fresh(pack) && fresh(pack.trunks) && fresh(pack.leaves) && fresh(pack.fruits)
    ensures var p := PlantsFrom(f, AlignDown(minX), AlignDown(maxX));
      && pack.trunks[..] == p.trunks
      && pack.leaves[..] == p.leaves
      && pack.fruits[..] == p.fruits
  {
    var trunks: seq<Obj> := [];
    var leaves: seq<Obj> := [];
    var fruits: seq<Obj> := [];
    var startX := AlignDown(minX);
    var endX := AlignDown(maxX);
    var x := startX;
    while x <= endX
      invariant Join(Plants(trunks, leaves, fruits), PlantsFrom(f, x, endX)) == PlantsFrom(f, startX, endX)
      decreases endX - x + BlockSize
    {
      ghost var acc, here := Plants(trunks, leaves, fruits), ColumnPlants(f, x);
      assert PlantsFrom(f, x, endX) == Join(here, PlantsFrom(f, x + BlockSize, endX));
      var seed := ColumnSeed(f, x);
      if f.firstDraw(seed) < TreeCutoff {
        var tree := f.createAt(x, seed);
        trunks := trunks + [tree.trunk];
        leaves := leaves + tree.leaves;
        fruits := fruits + tree.fruits;
      } else {
        assert Join(acc, NoPlants) == acc;
      }
      assert Plants(trunks, leaves, fruits) == Join(acc, here);
      JoinAssociative(acc, here, PlantsFrom(f, x + BlockSize, endX));
      x := x + BlockSize;
    }
    assert Join(Plants(trunks, leaves, fruits), NoPlants) == Plants(trunks, leaves, fruits);
    var trunkList := ToArray(trunks);
    var leafList := ToArray(leaves);
    var fruitList := ToArray(fruits);
    pack := new FloraPack(trunkList, leafList, fruitList);
  }

  /** A new array holding the list's elements in order. */
  method ToArray(s: seq<Obj>) returns (a: array<Obj>)
    ensures fresh(a) && a[..] == s
  {
    a := new Obj[|s|](i => if 0 <= i < |s| then s[i] else Plant(0));
  }

  /** The cutoff is the float comparison nextFloat() < 0.1f, read on the 24-bit draw. */
  lemma TreeCutoffIsTenPercent(d: Draw24)
    ensures d < TreeCutoff <==> (d as real) / 16777216.0 < 13421773.0 / 134217728.0
  {
  }

  /**
   * Splitting a range at a column m of the same grid yields the list-by-list
   * concatenation of the two sub-ranges' flora.
   */
  lemma {:induction false} PlantsSplit(f: Flora, x: int, m: int, endX: int)
    requires x <= m <= endX + BlockSize
    requires (m - x) % BlockSize == 0
    ensures PlantsFrom(f, x, endX) == Join(PlantsFrom(f, x, m - BlockSize), PlantsFrom(f, m, endX))
    decreases m - x
  {
    if m > x {
      PlantsSplit(f, x + BlockSize, m, endX);
      var here, middle, after := ColumnPlants(f, x), PlantsFrom(f, x + BlockSize, m - BlockSize), PlantsFrom(f, m, endX);
      assert PlantsFrom(f, x, endX) == Join(here, Join(middle, after));
      assert PlantsFrom(f, x, m - BlockSize) == Join(here, middle);
      JoinAssociative(here, middle, after);
    } else {
      assert PlantsFrom(f, x, m - BlockSize) == NoPlants;
      assert Join(NoPlants, PlantsFrom(f, m, endX)) == PlantsFrom(f, m, endX);
    }
  }

  lemma JoinAssociative(p: Plants, q: Plants, r: Plants)
    ensures Join(p, Join(q, r)) == Join(Join(p, q), r)
  {
    assert p.trunks + (q.trunks + r.trunks) == (p.trunks + q.trunks) + r.trunks;
    assert p.leaves + (q.leaves + r.leaves) == (p.leaves + q.leaves) + r.leaves;
    assert p.fruits + (q.fruits + r.fruits) == (p.fruits + q.fruits) + r.fruits;
  }

  /**
   * Whatever range asks for column c, its contribution is ColumnPlants(f, c),
   * placed between the flora of the columns before and after it.
   */
  lemma ColumnIndependentOfRange(f: Flora, x: int, c: int, endX: int)
    requires x <= c <= endX
    requires (c - x) % BlockSize == 0
    ensures PlantsFrom(f, x, endX)
      == Join(Join(PlantsFrom(f, x, c - BlockSize), ColumnPlants(f, c)), PlantsFrom(f, c + BlockSize, endX))
  {
    PlantsSplit(f, x, c, endX);
    var before, here, after := PlantsFrom(f, x, c - BlockSize), ColumnPlants(f, c), PlantsFrom(f, c + BlockSize, endX);
    assert PlantsFrom(f, c, endX) == Join(here, after);
    JoinAssociative(before, here, after);
  }

  /** One trunk per tree column, in column order, and nothing else in the trunk list. */
  lemma {:induction false} TrunksFollowTreeColumns(f: Flora, x: int, endX: int)
    ensures |PlantsFrom(f, x, endX).trunks| == |TreeColumns(f, x, endX)|
    ensures forall i :: 0 <= i < |TreeColumns(f, x, endX)| ==>
      PlantsFrom(f, x, endX).trunks[i] == TreeAt(f, TreeColumns(f, x, endX)[i]).trunk
    decreases endX - x + BlockSize
  {
    if x <= endX {
      TrunksFollowTreeColumns(f, x + BlockSize, endX);
    }
  }

  /** A column is a tree column of [x, endX] iff it is on x's grid, in range, and its draw is below the cutoff. */
  lemma {:induction false} TreeColumnsExactly(f: Flora, x: int, endX: int, c: int)
    ensures c in TreeColumns(f, x, endX) <==> x <= c <= endX && (c - x) % BlockSize == 0 && HasTree(f, c)
    decreases endX - x + BlockSize
  {
    if x <= endX {
      TreeColumnsExactly(f, x + BlockSize, endX, c);
    }
  }

  /** Tree columns come out strictly increasing, so no column yields two trees. */
  lemma {:induction false} TreeColumnsIncreasing(f: Flora, x: int, endX: int)
    ensures forall i, j :: 0 <= i < j < |TreeColumns(f, x, endX)| ==>
      TreeColumns(f, x, endX)[i] < TreeColumns(f, x, endX)[j]
    decreases endX - x + BlockSize
  {
    if x <= endX {
      var rest := TreeColumns(f, x + BlockSize, endX);
      TreeColumnsIncreasing(f, x + BlockSize, endX);
      forall k | 0 <= k < |rest|
        ensures x < rest[k]
      {
        TreeColumnsExactly(f, x + BlockSize, endX, rest[k]);
      }
    }
  }
}
