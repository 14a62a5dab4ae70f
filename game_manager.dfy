/**
 * The game manager's chunk streaming. The world is cut into chunks of ten
 * block columns; every frame the chunks within three of the avatar's chunk are
 * loaded (terrain, then trunks, leaves and fruits) and loaded chunks more than
 * five away are removed again. Each loaded chunk remembers the objects it
 * added, with their layers, so that unloading removes exactly those.
 */
module Pepse {
  import opened Grid
  import opened TerrainGen
  import opened FloraGen
  import opened Pack
  import opened AvatarModel
  import opened Seqs

  const ChunkBlocks: int := 10
  const ChunkWidth: int := ChunkBlocks * BlockSize
  const LoadRadiusChunks: int := 3
  const UnloadExtraChunks: int := 2
  /** The listener handle under which the energy display registers with the avatar. */
  const EnergyDisplayListener: Listener := 0

  /** The engine layers that chunk objects go to. */
  datatype Layer = StaticObjects | Default

  /** An object together with the layer it was added to. */
  datatype Placed = Placed(obj: Obj, layer: Layer)

  /** Every object of a list, on one layer, in order. */
  function OnLayer(objs: seq<Obj>, layer: Layer): (r: seq<Placed>)
    ensures |r| == |objs|
    ensures forall i :: 0 <= i < |objs| ==> r[i] == Placed(objs[i], layer)
  {
    seq(|objs|, i requires 0 <= i < |objs| => Placed(objs[i], layer))
  }

  /** The chunk holding horizontal position centerX: floor division of its floor by ChunkWidth. */
  function ChunkOf(centerX: real): (c: int)
    ensures (c * ChunkWidth) as real <= centerX < ((c + 1) * ChunkWidth) as real
  {
    centerX.Floor / ChunkWidth
  }

  /** The chunk ids lo..hi. */
  function Range(lo: int, hi: int): (r: set<int>)
    ensures forall k :: k in r <==> lo <= k <= hi
    decreases hi - lo
  {
    if lo > hi then {} else {lo} + Range(lo + 1, hi)
  }

  /** The ids of s within lo..hi. */
  function InBand(s: set<int>, lo: int, hi: int): set<int>
  {
    set k | k in s && lo <= k <= hi
  }

  /**
   * The loaded chunk ids after streaming around chunk c from loaded ids L:
   * the load window c-3..c+3 is added, and then everything outside the
   * unload band c-5..c+5 is dropped.
   */
  function Synced(loaded: set<int>, c: int): (r: set<int>)
    ensures Range(c - LoadRadiusChunks, c + LoadRadiusChunks) <= r
    ensures forall k :: k in r ==> c - LoadRadiusChunks - UnloadExtraChunks <= k <= c + LoadRadiusChunks + UnloadExtraChunks
    ensures forall k :: k in loaded && c - LoadRadiusChunks - UnloadExtraChunks <= k <= c + LoadRadiusChunks + UnloadExtraChunks ==> k in r
    ensures forall k :: k in r ==> k in loaded || c - LoadRadiusChunks <= k <= c + LoadRadiusChunks
  {
    var minChunk, maxChunk := c - LoadRadiusChunks, c + LoadRadiusChunks;
    InBand(loaded + Range(minChunk, maxChunk), minChunk - UnloadExtraChunks, maxChunk + UnloadExtraChunks)
  }

  /** The terrain blocks of [startX, endX], as static objects, in order. */
  function TerrainObjects(t: Terrain, startX: int, endX: int): seq<Placed>
  {
    OnLayer(BlocksFrom(t, AlignDown(startX), AlignUp(endX)), StaticObjects)
  }

  /** The flora of [startX, endX]: trunks as static objects, then leaves and fruits on the default layer. */
  function FloraObjects(f: Flora, startX: int, endX: int): seq<Placed>
  {
    var p := PlantsFrom(f, AlignDown(startX), AlignDown(endX));
    OnLayer(p.trunks, StaticObjects) + OnLayer(p.leaves, Default) + OnLayer(p.fruits, Default)
  }

  /**
   * What loadChunk(id) adds, in order: the terrain of [id * ChunkWidth,
   * (id + 1) * ChunkWidth], then the flora of the same range.
   */
  function ChunkContents(t: Terrain, f: Flora, id: int): seq<Placed>
  {
    TerrainObjects(t, id * ChunkWidth, id * ChunkWidth + ChunkWidth) + FloraObjects(f, id * ChunkWidth, id * ChunkWidth + ChunkWidth)
  }

  /**
   * One entry of the loaded-chunk map: a chunk id and the objects its loading
   * added. The map is a list of entries in insertion order, with at most
   * one entry per id.
   */
  datatype Entry = Entry(id: int, objects: seq<Placed>)

  /** The ids that have an entry. */
  function Ids(entries: seq<Entry>): (r: set<int>)
    ensures forall i :: 0 <= i < |entries| ==> entries[i].id in r
    decreases |entries|
  {
    if entries == [] then {}
    else Ids(entries[..|entries| - 1]) + {entries[|entries| - 1].id}
  }

  /** No id has two entries. */
  predicate Distinct(entries: seq<Entry>)
    decreases |entries|
  {
    entries == [] ||
      (Distinct(entries[..|entries| - 1]) && entries[|entries| - 1].id !in Ids(entries[..|entries| - 1]))
  }

  /** Every entry holds exactly what loading its chunk creates. */
  predicate Recorded(t: Terrain, f: Flora, entries: seq<Entry>)
    decreases |entries|
  {
    entries == [] ||
      (Recorded(t, f, entries[..|entries| - 1])
        && entries[|entries| - 1].objects == ChunkContents(t, f, entries[|entries| - 1].id))
  }

  /** All the objects that the entries record, as a multiset. */
  function Total(entries: seq<Entry>): multiset<Placed>
    decreases |entries|
  {
    if entries == [] then multiset{}
    else Total(entries[..|entries| - 1]) + multiset(entries[|entries| - 1].objects)
  }

  /** The entries whose id lies within lo..hi, in order: what the unload pass leaves. */
  function Keep(entries: seq<Entry>, lo: int, hi: int): seq<Entry>
    decreases |entries|
  {
    if entries == [] then []
    else
      var last := entries[|entries| - 1];
      Keep(entries[..|entries| - 1], lo, hi) + (if lo <= last.id <= hi then [last] else [])
  }

  lemma IdsAppend(entries: seq<Entry>, e: Entry)
    ensures Ids(entries + [e]) == Ids(entries) + {e.id}
  {
    assert (entries + [e])[..|entries|] == entries;
  }

  lemma TotalAppend(entries: seq<Entry>, e: Entry)
    ensures Total(entries + [e]) == Total(entries) + multiset(e.objects)
  {
    assert (entries + [e])[..|entries|] == entries;
  }

  lemma KeepAppend(entries: seq<Entry>, e: Entry, lo: int, hi: int)
    ensures Keep(entries + [e], lo, hi) == Keep(entries, lo, hi) + (if lo <= e.id <= hi then [e] else [])
  {
    assert (entries + [e])[..|entries|] == entries;
  }

  /** When every id lies within lo..hi, the unload pass keeps every entry. */
  lemma {:induction false} KeepAll(entries: seq<Entry>, lo: int, hi: int)
    requires forall k :: k in Ids(entries) ==> lo <= k <= hi
    ensures Keep(entries, lo, hi) == entries
    decreases |entries|
  {
    if entries != [] {
      var front, last := entries[..|entries| - 1], entries[|entries| - 1];
      assert entries == front + [last];
      IdsAppend(front, last);
      KeepAll(front, lo, hi);
    }
  }

  lemma {:induction false} TotalConcat(a: seq<Entry>, b: seq<Entry>)
    ensures Total(a + b) == Total(a) + Total(b)
    decreases |b|
  {
    if b == [] {
      assert a + b == a;
    } else {
      var front, last := b[..|b| - 1], b[|b| - 1];
      assert a + b == (a + front) + [last];
      assert b == front + [last];
      TotalAppend(a + front, last);
      TotalAppend(front, last);
      TotalConcat(a, front);
    }
  }

  /** The total of a suffix: its first entry's objects plus the total of the rest. */
  lemma TotalSuffix(entries: seq<Entry>, i: int)
    requires 0 <= i < |entries|
    ensures Total(entries[i..]) == multiset(entries[i].objects) + Total(entries[i + 1..])
  {
    assert entries[i..] == [entries[i]] + entries[i + 1..];
    TotalConcat([entries[i]], entries[i + 1..]);
    assert Total([entries[i]]) == multiset(entries[i].objects);
  }

  lemma RemovePart(a: multiset<Placed>, m: multiset<Placed>, r: multiset<Placed>)
    ensures (a + (m + r)) - m == a + r
  {
  }

  /**
   * One step of the unload pass that keeps entries[i], for a world w holding
   * the kept entries and the ones not yet visited: the entry joins the kept
   * list and the world still holds kept and unvisited entries.
   */
  lemma KeepStep(entries: seq<Entry>, i: int, kept: seq<Entry>, lo: int, hi: int, w: multiset<Placed>)
    requires 0 <= i < |entries| && lo <= entries[i].id <= hi
    requires w == Total(kept) + Total(entries[i..])
    ensures Keep(entries[..i + 1], lo, hi) == Keep(entries[..i], lo, hi) + [entries[i]]
    ensures w == Total(kept + [entries[i]]) + Total(entries[i + 1..])
  {
    var entry := entries[i];
    assert entries[..i + 1] == entries[..i] + [entry];
    KeepAppend(entries[..i], entry, lo, hi);
    var m, r := multiset(entry.objects), Total(entries[i + 1..]);
    TotalSuffix(entries, i);
    TotalAppend(kept, entry);
    assert w == Total(kept) + (m + r);
    assert Total(kept + [entry]) + r == (Total(kept) + m) + r;
  }

  /**
   * One step of the unload pass that drops entries[i]: the kept list stays,
   * and removing the entry's objects leaves the kept and unvisited entries.
   */
  lemma DropStep(entries: seq<Entry>, i: int, kept: seq<Entry>, lo: int, hi: int, w: multiset<Placed>)
    requires 0 <= i < |entries| && !(lo <= entries[i].id <= hi)
    requires w == Total(kept) + Total(entries[i..])
    ensures Keep(entries[..i + 1], lo, hi) == Keep(entries[..i], lo, hi)
    ensures w - multiset(entries[i].objects) == Total(kept) + Total(entries[i + 1..])
  {
    var entry := entries[i];
    assert entries[..i + 1] == entries[..i] + [entry];
    KeepAppend(entries[..i], entry, lo, hi);
    TotalSuffix(entries, i);
    RemovePart(Total(kept), multiset(entry.objects), Total(entries[i + 1..]));
  }

  lemma {:induction false} KeepIds(entries: seq<Entry>, lo: int, hi: int)
    ensures forall k :: k in Ids(Keep(entries, lo, hi)) <==> k in Ids(entries) && lo <= k <= hi
    decreases |entries|
  {
    if entries != [] {
      var front, last := entries[..|entries| - 1], entries[|entries| - 1];
      KeepIds(front, lo, hi);
      assert entries == front + [last];
      IdsAppend(front, last);
      if lo <= last.id <= hi {
        assert Keep(entries, lo, hi) == Keep(front, lo, hi) + [last];
        IdsAppend(Keep(front, lo, hi), last);
      } else {
        assert Keep(entries, lo, hi) == Keep(front, lo, hi);
      }
      forall k ensures k in Ids(Keep(entries, lo, hi)) <==> k in Ids(entries) && lo <= k <= hi { }
    }
  }

  lemma {:induction false} KeepDistinct(entries: seq<Entry>, lo: int, hi: int)
    requires Distinct(entries)
    ensures Distinct(Keep(entries, lo, hi))
    decreases |entries|
  {
    if entries != [] {
      var front, last := entries[..|entries| - 1], entries[|entries| - 1];
      assert Distinct(front) && last.id !in Ids(front);
      KeepDistinct(front, lo, hi);
      KeepIds(front, lo, hi);
      if lo <= last.id <= hi {
        var kept := Keep(front, lo, hi) + [last];
        assert Keep(entries, lo, hi) == kept;
        assert kept[..|kept| - 1] == Keep(front, lo, hi);
        assert last.id !in Ids(Keep(front, lo, hi));
      } else {
        assert Keep(entries, lo, hi) == Keep(front, lo, hi);
      }
    }
  }

  /** Appending the entry of a chunk not yet loaded keeps the map well formed and adds exactly its contents. */
  lemma AppendEntry(t: Terrain, f: Flora, entries: seq<Entry>, id: int)
    requires Distinct(entries) && Recorded(t, f, entries) && id !in Ids(entries)
    ensures var grown := entries + [Entry(id, ChunkContents(t, f, id))];
      && Distinct(grown) && Recorded(t, f, grown)
      && Ids(grown) == Ids(entries) + {id}
      && Total(grown) == Total(entries) + multiset(ChunkContents(t, f, id))
  {
    var e := Entry(id, ChunkContents(t, f, id));
    var grown := entries + [e];
    assert grown[..|grown| - 1] == entries;
    IdsAppend(entries, e);
    TotalAppend(entries, e);
  }

  lemma {:induction false} KeepRecorded(t: Terrain, f: Flora, entries: seq<Entry>, lo: int, hi: int)
    requires Recorded(t, f, entries)
    ensures Recorded(t, f, Keep(entries, lo, hi))
    decreases |entries|
  {
    if entries != [] {
      var front, last := entries[..|entries| - 1], entries[|entries| - 1];
      KeepRecorded(t, f, front, lo, hi);
      if lo <= last.id <= hi {
        var kept := Keep(front, lo, hi) + [last];
        assert Keep(entries, lo, hi) == kept;
        assert kept[..|kept| - 1] == Keep(front, lo, hi);
      } else {
        assert Keep(entries, lo, hi) == Keep(front, lo, hi);
      }
    }
  }

  /** A recorded entry's chunk contents are part of the total. */
  lemma {:induction false} ChunkInTotal(t: Terrain, f: Flora, entries: seq<Entry>, id: int)
    requires Recorded(t, f, entries)
    requires id in Ids(entries)
    ensures multiset(ChunkContents(t, f, id)) <= Total(entries)
    decreases |entries|
  {
    var front := entries[..|entries| - 1];
    if entries[|entries| - 1].id != id {
      assert entries == front + [entries[|entries| - 1]];
      IdsAppend(front, entries[|entries| - 1]);
      ChunkInTotal(t, f, front, id);
    }
  }

  /** One turn of the loading loop: once chunk c has an entry, the window of loaded ids reaches c + 1. */
  lemma {:induction false} WindowGrows(before: set<int>, cur: set<int>, next: set<int>, minChunk: int, c: int)
    requires forall k :: k in cur <==> k in before || minChunk <= k < c
    requires forall k :: k in next <==> k in cur || k == c
    requires minChunk <= c
    ensures forall k :: k in next <==> k in before || minChunk <= k < c + 1
  {
    forall k ensures k in next <==> k in before || minChunk <= k < c + 1 {
      assert k in next <==> k in cur || k == c;
      assert k in cur <==> k in before || minChunk <= k < c;
    }
  }

  /**
   * Loading the window around c and then keeping the entries within the
   * unload band leaves exactly Synced(before, c) loaded.
   */
  lemma {:induction false} LoadThenKeep(before: set<int>, loaded: seq<Entry>, c: int)
    requires forall k :: k in Ids(loaded) <==> k in before || c - LoadRadiusChunks <= k <= c + LoadRadiusChunks
    ensures Ids(Keep(loaded, c - LoadRadiusChunks - UnloadExtraChunks, c + LoadRadiusChunks + UnloadExtraChunks)) == Synced(before, c)
  {
    var lo, hi := c - LoadRadiusChunks - UnloadExtraChunks, c + LoadRadiusChunks + UnloadExtraChunks;
    KeepIds(loaded, lo, hi);
    var after := Ids(Keep(loaded, lo, hi));
    forall k ensures k in after <==> k in Synced(before, c) {
      assert k in after <==> k in Ids(loaded) && lo <= k <= hi;
      if k in Synced(before, c) && !(k in before) {
        assert c - LoadRadiusChunks <= k <= c + LoadRadiusChunks;
      }
    }
  }

  /** Adding two lists one after the other adds their concatenation. */
  lemma AddedInOrder(w0: multiset<Placed>, w1: multiset<Placed>, w2: multiset<Placed>, a: seq<Placed>, b: seq<Placed>)
    requires w1 == w0 + multiset(a) && w2 == w1 + multiset(b)
    ensures w2 == w0 + multiset(a + b)
  {
    assert multiset(a + b) == multiset(a) + multiset(b);
  }

  /** Removing the objects of a list one at a time removes the list: one more object. */
  lemma RemoveStep(w0: multiset<Placed>, objs: seq<Placed>, i: int, w: multiset<Placed>)
    requires 0 <= i < |objs|
    requires w == w0 - multiset(objs[..i])
    ensures w - multiset{objs[i]} == w0 - multiset(objs[..i + 1])
  {
    assert objs[..i + 1] == objs[..i] + [objs[i]];
    assert multiset(objs[..i + 1]) == multiset(objs[..i]) + multiset{objs[i]};
  }

  /** The chunk ids that Synced keeps lie in an 11-wide band, so at most 11 chunks are loaded at once. */
  lemma SyncedBounded(loaded: set<int>, c: int)
    ensures |Synced(loaded, c)| <= 2 * (LoadRadiusChunks + UnloadExtraChunks) + 1
  {
    BandCardinality(Synced(loaded, c), c - LoadRadiusChunks - UnloadExtraChunks, c + LoadRadiusChunks + UnloadExtraChunks);
  }

  lemma {:induction false} BandCardinality(s: set<int>, lo: int, hi: int)
    requires lo <= hi + 1
    requires forall k :: k in s ==> lo <= k <= hi
    ensures |s| <= hi - lo + 1
    decreases hi - lo
  {
    if lo <= hi {
      BandCardinality(s - {hi}, lo, hi - 1);
    } else {
      forall k ensures k !in s { }
      assert s == {};
    }
  }

  /** Streaming twice around the same chunk changes nothing the second time. */
  lemma SyncedIdempotent(loaded: set<int>, c: int)
    ensures Synced(Synced(loaded, c), c) == Synced(loaded, c)
  {
    var once := Synced(loaded, c);
    forall k ensures k in Synced(once, c) <==> k in once {
      if k in once {
        assert k in Synced(once, c);
      }
    }
  }

  /**
   * The unload band is two chunks wider than the load window: after streaming
   * around c and then around any c2 at most two chunks away, going back to c
   * neither loads nor unloads a chunk. Walking back and forth across a chunk
   * boundary does not churn chunks.
   */
  lemma NoChurn(loaded: set<int>, c: int, c2: int)
    requires -UnloadExtraChunks <= c2 - c <= UnloadExtraChunks
    ensures var there := Synced(Synced(loaded, c), c2);
      Synced(there, c) == there
  {
    var here := Synced(loaded, c);
    var there := Synced(here, c2);
    forall k ensures k in Synced(there, c) <==> k in there {
      if c - LoadRadiusChunks <= k <= c + LoadRadiusChunks {
        assert k in here;
      }
      if k in there {
        assert k in Synced(there, c);
      }
    }
  }

  /**
   * The first and last column of a chunk's range are whole block columns, so
   * a chunk's terrain is the eleven columns id * ChunkWidth, ..., (id + 1) * ChunkWidth.
   */
  lemma ChunkTerrainColumns(t: Terrain, id: int)
    ensures AlignDown(id * ChunkWidth) == id * ChunkWidth
    ensures AlignUp(id * ChunkWidth + ChunkWidth) == id * ChunkWidth + ChunkWidth
    ensures AlignDown(id * ChunkWidth + ChunkWidth) == id * ChunkWidth + ChunkWidth
    ensures |BlocksFrom(t, id * ChunkWidth, id * ChunkWidth + ChunkWidth)| == TerrainDepth * (ChunkBlocks + 1)
  {
    var a, e := id * ChunkWidth, id * ChunkWidth + ChunkWidth;
    assert a == (id * 10) * BlockSize by {
      assert a == id * 300;
    }
    assert e == (id * 10 + 10) * BlockSize by {
      assert e == id * 300 + 300;
    }
    Boundary(id * 10);
    Boundary(id * 10 + 10);
    BlocksFromLength(t, a, e);
    assert (e - a) / BlockSize == ChunkBlocks;
  }

  /**
   * Both ends of a chunk's range are inclusive, so the column on the boundary
   * between chunk id and chunk id + 1 is generated by both: its terrain blocks
   * end chunk id's terrain and start chunk id + 1's, and so does its flora.
   */
  lemma {:induction false} ChunkBoundaryShared(t: Terrain, f: Flora, id: int)
    ensures var b := (id + 1) * ChunkWidth;
      && BlocksFrom(t, id * ChunkWidth, b)[|BlocksFrom(t, id * ChunkWidth, b)| - TerrainDepth..] == Column(t, b)
      && BlocksFrom(t, b, b + ChunkWidth)[..TerrainDepth] == Column(t, b)
      && PlantsFrom(f, id * ChunkWidth, b) == Join(PlantsFrom(f, id * ChunkWidth, b - BlockSize), ColumnPlants(f, b))
      && PlantsFrom(f, b, b + ChunkWidth) == Join(ColumnPlants(f, b), PlantsFrom(f, b + BlockSize, b + ChunkWidth))
  {
    var a, b := id * ChunkWidth, (id + 1) * ChunkWidth;
    assert b - a == ChunkBlocks * BlockSize;
    BlocksFromSplit(t, a, b, b);
    assert BlocksFrom(t, b, b) == Column(t, b);
    var left := BlocksFrom(t, a, b - BlockSize);
    assert BlocksFrom(t, a, b) == left + Column(t, b);
    assert BlocksFrom(t, a, b)[|left|..] == Column(t, b);
    PlantsSplit(f, a, b, b);
    assert PlantsFrom(f, b, b) == Join(ColumnPlants(f, b), NoPlants);
    assert Join(ColumnPlants(f, b), NoPlants) == ColumnPlants(f, b);
  }

  /**
   * Whenever the load window of chunk c is loaded, every terrain column whose
   * x lies in that window, on the block grid, is present in the world with all
   * its blocks as static objects.
   */
  lemma GroundAroundLoaded(t: Terrain, f: Flora, entries: seq<Entry>, c: int, x: int, i: int)
    requires Recorded(t, f, entries)
    requires Range(c - LoadRadiusChunks, c + LoadRadiusChunks) <= Ids(entries)
    requires x % BlockSize == 0
    requires (c - LoadRadiusChunks) * ChunkWidth <= x < (c + LoadRadiusChunks + 1) * ChunkWidth
    requires 0 <= i < TerrainDepth
    ensures Placed(Column(t, x)[i], StaticObjects) in Total(entries)
  {
    var id := x / ChunkWidth;
    assert c - LoadRadiusChunks <= id <= c + LoadRadiusChunks by {
      assert 300 * (c - 3) <= x < 300 * (c + 4);
      assert 300 * id <= x < 300 * id + 300;
    }
    assert id in Ids(entries);
    ColumnInChunk(t, f, id, x, i);
    ChunkInTotal(t, f, entries, id);
  }

  /** Chunk id's contents hold every block of every grid column from id * ChunkWidth up to (id + 1) * ChunkWidth. */
  lemma ColumnInChunk(t: Terrain, f: Flora, id: int, x: int, i: int)
    requires x % BlockSize == 0
    requires id * ChunkWidth <= x <= id * ChunkWidth + ChunkWidth
    requires 0 <= i < TerrainDepth
    ensures Placed(Column(t, x)[i], StaticObjects) in multiset(ChunkContents(t, f, id))
  {
    var a, e := id * ChunkWidth, id * ChunkWidth + ChunkWidth;
    var k := ColumnInTerrain(t, id, x, i);
    var contents := ChunkContents(t, f, id);
    assert contents == TerrainObjects(t, a, e) + FloraObjects(f, a, e);
    assert contents[k] == Placed(Column(t, x)[i], StaticObjects);
  }

  /** The position k of block i of column x among chunk id's terrain objects. */
  lemma ColumnInTerrain(t: Terrain, id: int, x: int, i: int) returns (k: nat)
    requires x % BlockSize == 0
    requires id * ChunkWidth <= x <= id * ChunkWidth + ChunkWidth
    requires 0 <= i < TerrainDepth
    ensures k < |TerrainObjects(t, id * ChunkWidth, id * ChunkWidth + ChunkWidth)|
    ensures TerrainObjects(t, id * ChunkWidth, id * ChunkWidth + ChunkWidth)[k] == Placed(Column(t, x)[i], StaticObjects)
  {
    ChunkTerrainColumns(t, id);
    var a, e := id * ChunkWidth, id * ChunkWidth + ChunkWidth;
    assert (x - a) % BlockSize == 0 by {
      assert a == id * 300;
      assert x - a == x + BlockSize * (-10 * id);
      OnGrid(x, -10 * id);
    }
    k := ColumnInRange(t, a, x, e, i);
    assert TerrainObjects(t, a, e) == OnLayer(BlocksFrom(t, a, e), StaticObjects);
  }

  /** Where the avatar starts: half the window width across, standing on the block-floored ground. */
  function SpawnX(windowWidth: real): real
  {
    windowWidth * 0.5
  }

  function SpawnTop(t: Terrain, windowWidth: real): (top: real)
    ensures var feet := top + AvatarSize as real;
      && feet.Floor % BlockSize == 0 && feet == feet.Floor as real
      && feet <= GroundHeightAt(t, SpawnX(windowWidth)) < feet + BlockSize as real
  {
    (FloorToBlock(GroundHeightAt(t, SpawnX(windowWidth))) - AvatarSize) as real
  }


  class PepseGameManager {
    const terrain: Terrain
    const flora: Flora
    const avatar: Avatar?
    /** The chunk-managed part of the engine's object collection. */
    var world: multiset<Placed>
    /** The loaded-chunk map: for every loaded chunk, the objects it added, with their layers. */
    var loadedChunks: seq<Entry>

    /**
     * No chunk is loaded twice, every loaded chunk's list is what loading it
     * creates, the world holds exactly the objects of the loaded chunks, and
     * the avatar keeps its energy in range.
     */
    ghost predicate Valid()
      reads this, avatar
    {
      && Distinct(loadedChunks)
      && Recorded(terrain, flora, loadedChunks)
      && world == Total(loadedChunks)
      && (avatar != null ==> avatar.Valid())
    }

    /**
     * initializeGame, restricted to what this model covers: the avatar starts
     * at the spawn position, the energy display subscribes to it, and the
     * chunks around the avatar's centre are streamed in.
     */
    constructor (t: Terrain, f: Flora, windowWidth: real)
      ensures Valid()
      ensures terrain == t && flora == f
      ensures avatar != null && fresh(avatar)
      ensures avatar.State() == Motion(MaxEnergy, false, false, Idle, 0, 0)
      ensures avatar.top == SpawnTop(t, windowWidth)
      ensures avatar.energyListeners == [EnergyDisplayListener]
      ensures avatar.calls == [Call(EnergyDisplayListener, MaxEnergy)]
      ensures Ids(loadedChunks) == Synced({}, ChunkOf(SpawnX(windowWidth) + (AvatarSize / 2) as real))
    {
      terrain := t;
      flora := f;
      world := multiset{};
      loadedChunks := [];
      var initialX := SpawnX(windowWidth);
      var groundY := FloorToBlock(GroundHeightAt(t, initialX));
      var a := new Avatar((groundY - AvatarSize) as real);
      a.AddEnergyChangedListener(EnergyDisplayListener);
      avatar := a;
      new;
      ghost var motion, top, listeners, calls := a.State(), a.top, a.energyListeners, a.calls;
      EnsureChunksAround(initialX + (AvatarSize / 2) as real);
      assert a.State() == motion && a.top == top && a.energyListeners == listeners && a.calls == calls;
    }

    /** update(deltaTime): streams chunks around the avatar's current centre x. */
    method Update(avatarCenterX: real)
      requires Valid()
      modifies this`world, this`loadedChunks
      ensures Valid()
      ensures Ids(loadedChunks) == Synced(old(Ids(loadedChunks)), ChunkOf(avatarCenterX))
    {
      EnsureChunksAround(avatarCenterX);
    }

    /**
     * Loads every missing chunk of the window around centerX's chunk, in
     * increasing order, then walks the entries and unloads and removes every
     * chunk outside the wider band.
     */
    method EnsureChunksAround(centerX: real)
      requires Valid()
      modifies this`world, this`loadedChunks
      ensures Valid()
      ensures Ids(loadedChunks) == Synced(old(Ids(loadedChunks)), ChunkOf(centerX))
    {
      ghost var before := Ids(loadedChunks);
      var centerChunk := ChunkOf(centerX);
      var minChunk := centerChunk - LoadRadiusChunks;
      var maxChunk := centerChunk + LoadRadiusChunks;
      LoadMissing(minChunk, maxChunk);
      LoadThenKeep(before, loadedChunks, centerChunk);
      var unloadMin := minChunk - UnloadExtraChunks;
      var unloadMax := maxChunk + UnloadExtraChunks;
      UnloadOutside(unloadMin, unloadMax);
    }

    /** The loading loop of ensureChunksAround: every chunk of minChunk..maxChunk without an entry is loaded. */
    method LoadMissing(minChunk: int, maxChunk: int)
      requires Valid()
      modifies this`world, this`loadedChunks
      ensures Valid()
      ensures forall k :: k in Ids(loadedChunks) <==> k in old(Ids(loadedChunks)) || minChunk <= k <= maxChunk
      ensures Range(minChunk, maxChunk) <= old(Ids(loadedChunks)) ==>
        loadedChunks == old(loadedChunks) && world == old(world)
    {
      ghost var before := Ids(loadedChunks);
      var chunkId := minChunk;
      while chunkId <= maxChunk
        invariant chunkId <= maxChunk + 1 || chunkId == minChunk
        invariant Valid()
        invariant forall k :: k in Ids(loadedChunks) <==> k in before || minChunk <= k < chunkId
        invariant Range(minChunk, maxChunk) <= before ==>
          loadedChunks == old(loadedChunks) && world == old(world)
      {
        ghost var cur := Ids(loadedChunks);
        if chunkId !in Ids(loadedChunks) {
          LoadChunk(chunkId);
        }
        WindowGrows(before, cur, Ids(loadedChunks), minChunk, chunkId);
        chunkId := chunkId + 1;
      }
    }

    /**
     * The unloading loop of ensureChunksAround: walks the entries in order;
     * an entry whose id lies outside lo..hi has its objects removed from the
     * world and is removed from the map.
     */
    method UnloadOutside(lo: int, hi: int)
      requires Valid()
      modifies this`world, this`loadedChunks
      ensures Valid()
      ensures loadedChunks == Keep(old(loadedChunks), lo, hi)
      ensures (forall k :: k in old(Ids(loadedChunks)) ==> lo <= k <= hi) ==>
        loadedChunks == old(loadedChunks) && world == old(world)
    {
      var entries := loadedChunks;
      var kept := UnloadEntries(entries, lo, hi);
      KeepDistinct(entries, lo, hi);
      KeepRecorded(terrain, flora, entries, lo, hi);
      if forall k :: k in Ids(entries) ==> lo <= k <= hi {
        KeepAll(entries, lo, hi);
      }
      loadedChunks := kept;
    }

    /** The walk itself: removes the objects of every entry outside lo..hi and returns the others, in order. */
    method UnloadEntries(entries: seq<Entry>, lo: int, hi: int) returns (kept: seq<Entry>)
      requires world == Total(entries)
      modifies this`world
      ensures kept == Keep(entries, lo, hi)
      ensures world == Total(kept)
    {
      kept := [];
      var i := 0;
      assert entries[i..] == entries;
      while i < |entries|
        invariant 0 <= i <= |entries|
        invariant kept == Keep(entries[..i], lo, hi)
        invariant world == Total(kept) + Total(entries[i..])
      {
        kept := VisitEntry(entries, i, kept, lo, hi);
        i := i + 1;
      }
      assert kept == Keep(entries, lo, hi) by {
        assert entries[..i] == entries;
      }
      assert Total(entries[i..]) == multiset{} by {
        assert entries[i..] == [];
      }
    }

    /** One turn of the walk: entries[i] is unloaded when outside lo..hi and kept otherwise. */
    method VisitEntry(entries: seq<Entry>, i: int, kept: seq<Entry>, lo: int, hi: int) returns (out: seq<Entry>)
      requires 0 <= i < |entries|
      requires kept == Keep(entries[..i], lo, hi)
      requires world == Total(kept) + Total(entries[i..])
      modifies this`world
      ensures out == Keep(entries[..i + 1], lo, hi)
      ensures world == Total(out) + Total(entries[i + 1..])
    {
      var entry := entries[i];
      if entry.id < lo || entry.id > hi {
        DropStep(entries, i, kept, lo, hi, world);
        UnloadChunk(entry.objects);
        out := kept;
      } else {
        KeepStep(entries, i, kept, lo, hi, world);
        out := kept + [entry];
      }
    }

    /** Adds each object to the world on `layer` and records it in `created`. */
    method AddAll(objs: seq<Obj>, layer: Layer, created: seq<Placed>) returns (out: seq<Placed>)
      modifies this`world
      ensures out == created + OnLayer(objs, layer)
      ensures world == old(world) + multiset(OnLayer(objs, layer))
    {
      out := created;
      var i := 0;
      while i < |objs|
        invariant 0 <= i <= |objs|
        invariant out == created + OnLayer(objs[..i], layer)
        invariant world == old(world) + multiset(OnLayer(objs[..i], layer))
      {
        assert OnLayer(objs[..i + 1], layer) == OnLayer(objs[..i], layer) + [Placed(objs[i], layer)];
        world := world + multiset{Placed(objs[i], layer)};
        out := out + [Placed(objs[i], layer)];
        i := i + 1;
      }
      assert objs[..i] == objs;
    }

    /**
     * The body of loadChunk before the map update: creates the chunk's
     * terrain blocks and then its flora, adds every object to its layer, and
     * lists them in that order.
     */
    method AddChunkObjects(chunkId: int) returns (created: seq<Placed>)
      modifies this`world
      ensures created == ChunkContents(terrain, flora, chunkId)
      ensures world == old(world) + multiset(created)
    {
      var startX := chunkId * ChunkWidth;
      var endX := startX + ChunkWidth;
      created := AddTerrain(startX, endX);
      ghost var w1, a := world, created;
      created := AddFlora(startX, endX, created);
      AddedInOrder(old(world), w1, world, a, FloraObjects(flora, startX, endX));
      assert created == TerrainObjects(terrain, startX, endX) + FloraObjects(flora, startX, endX);
    }

    /** The terrain part of loadChunk: every block of [startX, endX] is added as a static object. */
    method AddTerrain(startX: int, endX: int) returns (created: seq<Placed>)
      modifies this`world
      ensures created == TerrainObjects(terrain, startX, endX)
      ensures world == old(world) + multiset(created)
    {
      var blocks := TerrainGen.CreateInRange(terrain, startX, endX);
      created := AddAll(blocks, StaticObjects, []);
    }

    /** The flora part of loadChunk: the pack's trunks, leaves and fruits, each added to its layer. */
    method AddFlora(startX: int, endX: int, created: seq<Placed>) returns (out: seq<Placed>)
      modifies this`world
      ensures out == created + FloraObjects(flora, startX, endX)
      ensures world == old(world) + multiset(FloraObjects(flora, startX, endX))
    {
      ghost var p := PlantsFrom(flora, AlignDown(startX), AlignDown(endX));
      var pack := FloraGen.CreateInRange(flora, startX, endX);
      ghost var w0 := world;
      var trunks := pack.GetTrunks();
      ghost var b := OnLayer(p.trunks, StaticObjects);
      assert trunks[..] == p.trunks;
      out := AddAll(trunks[..], StaticObjects, created);
      ghost var w1 := world;
      var leaves := pack.GetLeaves();
      ghost var c := OnLayer(p.leaves, Default);
      assert leaves[..] == p.leaves;
      out := AddAll(leaves[..], Default, out);
      ghost var w2 := world;
      var fruits := pack.GetFruits();
      ghost var d := OnLayer(p.fruits, Default);
      assert fruits[..] == p.fruits;
      out := AddAll(fruits[..], Default, out);
      AddedInOrder(w0, w1, w2, b, c);
      AddedInOrder(w0, w2, world, b + c, d);
      ConcatAssociative(created + b, c, d);
      ConcatAssociative(created, b, c + d);
      ConcatAssociative(b, c, d);
    }

    /** Creates the chunk's objects and records them under the id: the chunk is now loaded. */
    method LoadChunk(chunkId: int)
      requires Valid() && chunkId !in Ids(loadedChunks)
      modifies this`world, this`loadedChunks
      ensures Valid()
      ensures loadedChunks == old(loadedChunks) + [Entry(chunkId, ChunkContents(terrain, flora, chunkId))]
      ensures Ids(loadedChunks) == old(Ids(loadedChunks)) + {chunkId}
      ensures world == old(world) + multiset(ChunkContents(terrain, flora, chunkId))
    {
      var created := AddChunkObjects(chunkId);
      AppendEntry(terrain, flora, loadedChunks, chunkId);
      loadedChunks := loadedChunks + [Entry(chunkId, created)];
    }

    /** Removes each recorded object from the layer it was added to. */
    method UnloadChunk(objects: seq<Placed>)
      modifies this`world
      ensures world == old(world) - multiset(objects)
    {
      ghost var w0 := world;
      var i := 0;
      assert w0 - multiset(objects[..i]) == w0 by {
        assert objects[..i] == [];
      }
      while i < |objects|
        invariant 0 <= i <= |objects|
        invariant world == w0 - multiset(objects[..i])
      {
        RemoveStep(w0, objects, i, world);
        world := world - multiset{objects[i]};
        i := i + 1;
      }
      assert objects[..i] == objects;
    }

    /** The fruit callback: if the avatar exists, its energy grows by the bonus, clamped. */
    method OnFruitCollected(energyBonus: int)
      requires Valid()
      modifies avatar
      ensures Valid()
      ensures avatar != null ==> avatar.energy == Clamp(old(avatar.energy) + energyBonus)
      ensures avatar != null ==> avatar.State() == old(avatar.State()).(energy := avatar.energy)
      ensures avatar != null ==> avatar.energyListeners == old(avatar.energyListeners) && avatar.top == old(avatar.top)
      ensures avatar != null ==>
        avatar.calls == old(avatar.calls)
          + Broadcast(avatar.energyListeners, SetEnergyStep(old(avatar.energy), old(avatar.energy) + energyBonus).1)
    {
      if avatar != null {
        avatar.IncreaseEnergy(energyBonus);
      }
    }
  }
}
