/**
 * The tree pass: the active chunks that are not yet tree-decorated are
 * merged into one region; a column whose surface is GRASS or DIRT, whose
 * tree noise reaches the threshold and is a strict maximum among its
 * in-region neighbours, and whose cells above the surface are clear, grows
 * an OAKWOOD trunk upward from the surface and a stack of GREY_LEAVES
 * layers above the trunk that shrink by one in radius per layer. Leaves are
 * only placed into empty cells. Every merged chunk is written back and
 * flagged as tree-decorated, so the pass runs once per chunk.
 *
 * The y axis grows downward, so "above" means a smaller y.
 */
module TreeDecorator {
  import opened Wrappers
  import opened Blocks
  import opened ChunkGrid
  import opened ChunkSpec
  import opened JavaInt
  import opened Region

  const TREE_FREQUENCY: real := 0.05
  const TREE_THRESHOLD: real := 0.5
  const MIN_TRUNK_HEIGHT: int := 4
  const MAX_TRUNK_HEIGHT: int := 6
  const BASE_CANOPY_LAYERS: int := 3
  const BASE_CANOPY_RADIUS: int := 2

  /**
   * PerlinNoise.getfBM2D(x, z, 1, 1.0, 2.0), the one-octave noise the pass
   * samples, as an oracle over its two coordinates.
   */
  type Fbm = (real, real) -> real

  /** One-octave Perlin noise lies in [-1, 1]. */
  ghost predicate NoiseInRange(fbm: Fbm)
  {
    forall x, z :: -1.0 <= fbm(x, z) <= 1.0
  }

  /** The tree noise of column (x, z), sampled at the region coordinates times the tree frequency. */
  function Sample(fbm: Fbm, x: int, z: int): real
  {
    fbm(x as real * TREE_FREQUENCY, z as real * TREE_FREQUENCY)
  }

  // ------------------------------------------------------------ tree shape

  /** A tree's trunk height, number of canopy layers and radius of its lowest layer. */
  datatype Tree = Tree(trunkHeight: int, canopyLayers: int, canopyRadius: int)

  /**
   * The shape grown at column (rx, rz): the trunk height is 4 plus the
   * truncation of twice the noise at double the tree frequency, and the
   * canopy adds the same truncated extra, from the noise at frequency 0.2,
   * to both the 3 base layers and the base radius 2. With the noise in
   * [-1, 1] the trunk is 2 to 6 cells tall, so it can fall short of the
   * minimum trunk height 4, and the canopy has 1 to 5 layers.
   */
  function TreeAt(fbm: Fbm, rx: int, rz: int): (t: Tree)
    ensures t.canopyRadius == t.canopyLayers - 1
    ensures NoiseInRange(fbm) ==>
              2 <= t.trunkHeight <= MAX_TRUNK_HEIGHT && 1 <= t.canopyLayers <= 5
  {
    var trunkNoise := fbm(rx as real * TREE_FREQUENCY * 2.0, rz as real * TREE_FREQUENCY * 2.0);
    var canopyVar := fbm(rx as real * 0.2, rz as real * 0.2);
    var extra := Truncate(canopyVar * 2.0);
    Tree(MIN_TRUNK_HEIGHT + Truncate((MAX_TRUNK_HEIGHT - MIN_TRUNK_HEIGHT) as real * trunkNoise),
         BASE_CANOPY_LAYERS + extra, BASE_CANOPY_RADIUS + extra)
  }

  // ---------------------------------------------------------------- guards

  /** (nx, nz) is one of the eight columns around (rx, rz). */
  predicate Neighbour(rx: int, rz: int, nx: int, nz: int)
  {
    -1 <= nx - rx <= 1 && -1 <= nz - rz <= 1 && (nx != rx || nz != rz)
  }

  /** Every neighbour of (rx, rz) inside the width x depth region has noise strictly below treeNoise. */
  ghost predicate LocalMax(fbm: Fbm, rx: int, rz: int, width: int, depth: int, treeNoise: real)
  {
    forall nx, nz :: Neighbour(rx, rz, nx, nz) && 0 <= nx < width && 0 <= nz < depth ==>
      Sample(fbm, nx, nz) < treeNoise
  }

  /** isLocalMax: the scan of the eight neighbours, stopping at the first one whose noise reaches treeNoise. */
  method IsLocalMax(fbm: Fbm, rx: int, rz: int, width: int, depth: int, treeNoise: real) returns (isMax: bool)
    ensures isMax <==> LocalMax(fbm, rx, rz, width, depth, treeNoise)
  {
    for dx := -1 to 2
      invariant forall nx, nz :: Neighbour(rx, rz, nx, nz) && nx - rx < dx && 0 <= nx < width && 0 <= nz < depth ==>
                  Sample(fbm, nx, nz) < treeNoise
    {
      for dz := -1 to 2
        invariant forall nx, nz ::
                    (Neighbour(rx, rz, nx, nz) && (nx - rx < dx || (nx - rx == dx && nz - rz < dz)) &&
                     0 <= nx < width && 0 <= nz < depth) ==> Sample(fbm, nx, nz) < treeNoise
      {
        if dx == 0 && dz == 0 {
          continue;
        }
        var nx, nz := rx + dx, rz + dz;
        if nx < 0 || nx >= width || nz < 0 || nz >= depth {
          continue;
        }
        var neighborNoise := Sample(fbm, nx, nz);
        if neighborNoise >= treeNoise {
          return false;
        }
      }
    }
    return true;
  }

  /**
   * The rows the loops `for (y = s - 1; y >= s - h && y >= 0; y--)` visit
   * are [Reach(s, h), s): from s - 1 upward, h rows at most and none above
   * row 0.
   */
  function Reach(s: int, h: int): (r: int)
    ensures r <= s
  {
    Min(Max(s - h, 0), s)
  }

  /** The cells of column (rx, rz) in the required rows above the surface s are empty. */
  ghost predicate ClearAbove(region: array3<Cell>, rx: int, rz: int, s: int, requiredClear: int)
    reads region
    requires 0 <= rx < region.Length0 && 0 <= rz < region.Length2 && s <= region.Length1
  {
    forall y :: 0 <= y < s && s - requiredClear <= y ==> region[rx, y, rz] == None
  }

  /** isClearAbove: the scan up from the surface, stopping at the first non-empty cell. */
  method IsClearAbove(region: array3<Cell>, rx: int, rz: int, s: int, requiredClear: int) returns (clear: bool)
    requires 0 <= rx < region.Length0 && 0 <= rz < region.Length2 && s <= region.Length1
    ensures clear <==> ClearAbove(region, rx, rz, s, requiredClear)
  {
    for y := s downto Reach(s, requiredClear)
      invariant forall j :: y <= j < s ==> region[rx, j, rz] == None
    {
      if region[rx, y, rz] != None {
        return false;
      }
    }
    return true;
  }

  /** s is the surface of column (rx, rz): its first non-empty cell from the top, or -1 when there is none. */
  ghost predicate IsSurface(region: array3<Cell>, rx: int, rz: int, s: int)
    reads region
    requires 0 <= rx < region.Length0 && 0 <= rz < region.Length2
  {
    -1 <= s < region.Length1 &&
    (s >= 0 ==> region[rx, s, rz] != None) &&
    forall y :: 0 <= y < region.Length1 && (s == -1 || y < s) ==> region[rx, y, rz] == None
  }

  /**
   * The program's clearance test never fails: every cell above the surface
   * is empty by the definition of the surface, whatever clearance is asked.
   */
  lemma SurfaceIsClear(region: array3<Cell>, rx: int, rz: int, s: int, requiredClear: int)
    requires 0 <= rx < region.Length0 && 0 <= rz < region.Length2
    requires IsSurface(region, rx, rz, s)
    ensures ClearAbove(region, rx, rz, s, requiredClear)
  {
  }

  /** Whether column (rx, rz), with surface s, grows a tree: all guards of the pass hold. */
  ghost predicate Plants(region: array3<Cell>, fbm: Fbm, rx: int, rz: int, s: int)
    reads region
    requires 0 <= rx < region.Length0 && 0 <= rz < region.Length2 && s < region.Length1
  {
    var t := TreeAt(fbm, rx, rz);
    0 <= s &&
    (region[rx, s, rz] == Some(GRASS) || region[rx, s, rz] == Some(DIRT)) &&
    Sample(fbm, rx, rz) >= TREE_THRESHOLD &&
    LocalMax(fbm, rx, rz, region.Length0, region.Length2, Sample(fbm, rx, rz)) &&
    ClearAbove(region, rx, rz, s, t.trunkHeight + t.canopyLayers)
  }

  // --------------------------------------------------------------- planting

  /** |x - rx| and |z - rz| are both at most r. */
  predicate InCanopySquare(rx: int, rz: int, r: int, x: int, z: int)
  {
    Abs(x - rx) <= r && Abs(z - rz) <= r
  }

  /**
   * (x, y, z) lies in the canopy of tree t on surface s at (rx, rz): layer
   * k in [0, canopyLayers) is the row k + 1 above the trunk's top, a
   * square of radius max(canopyRadius - k, 0) around the trunk.
   */
  predicate InCanopy(rx: int, rz: int, s: int, t: Tree, x: int, y: int, z: int)
  {
    var layer := s - t.trunkHeight - 1 - y;
    0 <= layer < t.canopyLayers && InCanopySquare(rx, rz, Max(t.canopyRadius - layer, 0), x, z)
  }

  /**
   * What planting tree t on surface s at (rx, rz) leaves in a cell that
   * held before: OAKWOOD in the trunk's trunkHeight rows right above the
   * surface, GREY_LEAVES where the canopy meets an empty cell, and the old
   * content elsewhere.
   */
  function TreeCell(before: Cell, rx: int, rz: int, s: int, t: Tree, x: int, y: int, z: int): Cell
  {
    if x == rx && z == rz && s - t.trunkHeight <= y < s then Some(OAKWOOD)
    else if before == None && InCanopy(rx, rz, s, t, x, y, z) then Some(GREY_LEAVES)
    else before
  }

  /** The canopy lies wholly above the trunk, so no leaf replaces wood. */
  lemma CanopyAboveTrunk(rx: int, rz: int, s: int, t: Tree, x: int, y: int, z: int)
    requires InCanopy(rx, rz, s, t, x, y, z)
    ensures y < s - t.trunkHeight
  {
  }

  /** The cell right above the top of the trunk is a leaf whenever it was empty and the tree has a canopy. */
  lemma TrunkIsCapped(rx: int, rz: int, s: int, t: Tree)
    requires 1 <= t.canopyLayers
    ensures TreeCell(None, rx, rz, s, t, rx, s - t.trunkHeight - 1, rz) == Some(GREY_LEAVES)
  {
  }

  /** What the pass may do to one cell: keep it, or fill an empty cell with wood or leaves. */
  predicate TreeStep(before: Cell, after: Cell)
  {
    after == before || (before == None && (after == Some(OAKWOOD) || after == Some(GREY_LEAVES)))
  }

  /** Planting over a column's surface is a TreeStep on every cell: the trunk grows into the empty cells above the surface. */
  lemma PlantingIsTreeStep(region: array3<Cell>, rx: int, rz: int, s: int, t: Tree)
    requires 0 <= rx < region.Length0 && 0 <= rz < region.Length2 && IsSurface(region, rx, rz, s)
    ensures forall x, y, z :: InArray3(region, x, y, z) ==>
              TreeStep(region[x, y, z], TreeCell(region[x, y, z], rx, rz, s, t, x, y, z))
  {
    forall x, y, z | InArray3(region, x, y, z)
      ensures TreeStep(region[x, y, z], TreeCell(region[x, y, z], rx, rz, s, t, x, y, z))
    {
      if x == rx && z == rz && s - t.trunkHeight <= y < s {
        assert region[rx, y, rz] == None;
      }
    }
  }

  /**
   * One canopy layer: the radius clamped at 0, then every cell of the
   * square at row canopyY inside the region and empty gets GREY_LEAVES.
   */
  method CanopyLayer(region: array3<Cell>, rx: int, rz: int, canopyY: int, layerRadius: int)
    requires canopyY < region.Length1
    modifies region
    ensures forall i, j, k :: InArray3(region, i, j, k) ==>
              region[i, j, k] == if j == canopyY && InCanopySquare(rx, rz, Max(layerRadius, 0), i, k) && old(region[i, j, k]) == None
                                 then Some(GREY_LEAVES) else old(region[i, j, k])
  {
    var radius := layerRadius;
    if radius < 0 {
      radius := 0;
    }
    for dx := -radius to radius + 1
      invariant forall i, j, k :: InArray3(region, i, j, k) ==>
                  region[i, j, k] == if j == canopyY && -radius <= i - rx < dx && Abs(k - rz) <= radius && old(region[i, j, k]) == None
                                     then Some(GREY_LEAVES) else old(region[i, j, k])
    {
      for dz := -radius to radius + 1
        invariant forall i, j, k :: InArray3(region, i, j, k) ==>
                    region[i, j, k] == if j == canopyY && old(region[i, j, k]) == None &&
                                          ((-radius <= i - rx < dx && Abs(k - rz) <= radius) || (i - rx == dx && -radius <= k - rz < dz))
                                       then Some(GREY_LEAVES) else old(region[i, j, k])
      {
        var ax, az := rx + dx, rz + dz;
        if ax < 0 || ax >= region.Length0 || az < 0 || az >= region.Length2 {
          continue;
        }
        if canopyY >= 0 && region[ax, canopyY, az] == None {
          region[ax, canopyY, az] := Some(GREY_LEAVES);
        }
      }
    }
  }

  /** The build step: the trunk from the surface upward, then the canopy layers above its top. */
  method PlantTree(region: array3<Cell>, rx: int, rz: int, s: int, t: Tree)
    requires 0 <= rx < region.Length0 && 0 <= rz < region.Length2 && s <= region.Length1
    requires 0 <= t.trunkHeight
    modifies region
    ensures forall i, j, k :: InArray3(region, i, j, k) ==>
              region[i, j, k] == TreeCell(old(region[i, j, k]), rx, rz, s, t, i, j, k)
  {
    for y := s downto Reach(s, t.trunkHeight)
      invariant forall i, j, k :: InArray3(region, i, j, k) ==>
                  region[i, j, k] == if i == rx && k == rz && y <= j < s then Some(OAKWOOD) else old(region[i, j, k])
    {
      region[rx, y, rz] := Some(OAKWOOD);
    }
    var trunkTop := s - t.trunkHeight;
    for layer := 0 to Max(t.canopyLayers, 0)
      invariant forall i, j, k :: InArray3(region, i, j, k) ==>
                  region[i, j, k] == TreeCell(old(region[i, j, k]), rx, rz, s, t.(canopyLayers := layer), i, j, k)
    {
      CanopyLayer(region, rx, rz, trunkTop - 1 - layer, t.canopyRadius - layer);
    }
  }

  // ------------------------------------------------------------ region pass

  /**
   * One column of decorateTreesForRegion: the surface is found, the guards
   * are tested in the program's order, and the tree is planted exactly when
   * they all hold; otherwise the region is unchanged.
   */
  method DecorateColumn(region: array3<Cell>, fbm: Fbm, rx: int, rz: int) returns (surfaceY: int, planted: bool)
    requires NoiseInRange(fbm)
    requires 0 <= rx < region.Length0 && 0 <= rz < region.Length2
    modifies region
    ensures old(IsSurface(region, rx, rz, surfaceY))
    ensures planted <==> old(Plants(region, fbm, rx, rz, surfaceY))
    ensures planted ==> forall i, j, k :: InArray3(region, i, j, k) ==>
              region[i, j, k] == TreeCell(old(region[i, j, k]), rx, rz, surfaceY, TreeAt(fbm, rx, rz), i, j, k)
    ensures !planted ==> forall i, j, k :: InArray3(region, i, j, k) ==> region[i, j, k] == old(region[i, j, k])
    ensures forall i, j, k :: InArray3(region, i, j, k) ==> TreeStep(old(region[i, j, k]), region[i, j, k])
  {
    planted := false;
    surfaceY := FindSurfaceY(region, rx, rz);
    if surfaceY < 0 {
      return;
    }
    var blockBelow := region[rx, surfaceY, rz];
    if blockBelow != Some(GRASS) && blockBelow != Some(DIRT) {
      return;
    }
    var treeNoise := Sample(fbm, rx, rz);
    if treeNoise < TREE_THRESHOLD {
      return;
    }
    var isMax := IsLocalMax(fbm, rx, rz, region.Length0, region.Length2, treeNoise);
    if !isMax {
      return;
    }
    var tree := TreeAt(fbm, rx, rz);
    var clear := IsClearAbove(region, rx, rz, surfaceY, tree.trunkHeight + tree.canopyLayers);
    if !clear {
      return;
    }
    PlantingIsTreeStep(region, rx, rz, surfaceY, tree);
    PlantTree(region, rx, rz, surfaceY, tree);
    planted := true;
  }

  /** decorateTreesForRegion: every column in turn, each on the region the previous columns left. */
  method DecorateTreesRegion(region: array3<Cell>, fbm: Fbm)
    requires NoiseInRange(fbm)
    modifies region
    ensures forall i, j, k :: InArray3(region, i, j, k) ==> TreeStep(old(region[i, j, k]), region[i, j, k])
  {
    for rx := 0 to region.Length0
      invariant forall i, j, k :: InArray3(region, i, j, k) ==> TreeStep(old(region[i, j, k]), region[i, j, k])
    {
      for rz := 0 to region.Length2
        invariant forall i, j, k :: InArray3(region, i, j, k) ==> TreeStep(old(region[i, j, k]), region[i, j, k])
      {
        var surfaceY, planted := DecorateColumn(region, fbm, rx, rz);
      }
    }
  }

  /**
   * decorateTreesForActiveRegion. Chunks already tree-decorated are left as
   * they are. Every other chunk is flagged as tree-decorated, keeps its
   * links and ore flag, and each of its cells is kept or turned from empty
   * into OAKWOOD or GREY_LEAVES; it is marked dirty exactly when its grid
   * changed (or it already was).
   */
  method DecorateTreesForActiveRegion(active: Registry, fbm: Fbm) returns (active': Registry)
    requires NoiseInRange(fbm)
    requires ValidRegistry(active) && IntCoordinates(active.Keys)
    ensures active'.Keys == active.Keys && ValidRegistry(active')
    ensures forall c :: c in active && active[c].treeDecorated ==> active'[c] == active[c]
    ensures forall c :: c in active && !active[c].treeDecorated ==>
              active'[c].treeDecorated && active'[c].oreDecorated == active[c].oreDecorated &&
              active'[c].links == active[c].links &&
              active'[c].dirty == (active[c].dirty || active'[c].blocks != active[c].blocks)
    ensures forall c, i :: c in active && 0 <= i < VOLUME ==> TreeStep(active[c].blocks[i], active'[c].blocks[i])
  {
    var snapshot := Undecorated(active, TreeFlag);
    if snapshot == map[] {
      return active;
    }
    var b := RegionBounds(snapshot.Keys);
    var regionBlocks := MergeRegion(snapshot, b);
    label merged:
    DecorateTreesRegion(regionBlocks, fbm);
    assert forall rx, y, rz :: InRegion(b, rx, y, rz) ==> TreeStep(MergedCell(snapshot, b, rx, y, rz), regionBlocks[rx, y, rz]) by {
      forall rx, y, rz | InRegion(b, rx, y, rz)
        ensures TreeStep(MergedCell(snapshot, b, rx, y, rz), regionBlocks[rx, y, rz])
      {
        assert old@merged(regionBlocks[rx, y, rz]) == MergedCell(snapshot, b, rx, y, rz);
      }
    }
    active' := Writeback(active, snapshot.Keys, regionBlocks, b, Some(TreeFlag));
    WritebackRelates(active, snapshot, b, regionBlocks, Some(TreeFlag), TreeStep, active');
    forall c | c in active && !active[c].treeDecorated
      ensures active'[c].treeDecorated && active'[c].oreDecorated == active[c].oreDecorated
    {
      assert c in snapshot;
      assert IsDecorated(active'[c], TreeFlag);
      assert IsDecorated(active'[c], OreFlag) == IsDecorated(active[c], OreFlag);
    }
  }
}
