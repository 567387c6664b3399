/**
 * The region buffer shared by the decoration passes. A set of chunks is
 * merged into one Width x 256 x Depth array spanning their bounding box of
 * chunk coordinates, a pass rewrites the array, and each chunk's 16-wide
 * slice is written back through setBlockData. Region positions that no
 * chunk of the set covers start out null and are never written back.
 */
module Region {
  import opened Wrappers
  import opened Blocks
  import opened ChunkGrid
  import opened ChunkSpec
  import opened JavaInt

  /** The bounding box of a set of chunks, in chunk coordinates. */
  datatype Bounds = Bounds(minX: int, maxX: int, minZ: int, maxZ: int)

  /** Chunk coordinates that a Java int holds. */
  predicate IntCoordinates(keys: set<ChunkCoordinate>)
  {
    forall c :: c in keys ==> IsInt(c.x) && IsInt(c.z)
  }

  predicate Encloses(b: Bounds, keys: set<ChunkCoordinate>)
  {
    forall c :: c in keys ==> b.minX <= c.x <= b.maxX && b.minZ <= c.z <= b.maxZ
  }

  /** Each side of the box is reached by some chunk of the set. */
  predicate Tight(b: Bounds, keys: set<ChunkCoordinate>)
  {
    (exists c :: c in keys && c.x == b.minX) && (exists c :: c in keys && c.x == b.maxX) &&
    (exists c :: c in keys && c.z == b.minZ) && (exists c :: c in keys && c.z == b.maxZ)
  }

  predicate IsBox(b: Bounds)
  {
    b.minX <= b.maxX && b.minZ <= b.maxZ
  }

  /** The smallest box holding every chunk of a non-empty set, found with Math.min/Math.max from the int sentinels. */
  method RegionBounds(keys: set<ChunkCoordinate>) returns (b: Bounds)
    requires keys != {} && IntCoordinates(keys)
    ensures IsBox(b) && Encloses(b, keys) && Tight(b, keys)
  {
    b := Bounds(INT_MAX, INT_MIN, INT_MAX, INT_MIN);
    var todo := keys;
    // the chunks that reach each side so far
    ghost var lo, hi := ChunkCoordinate(0, 0), ChunkCoordinate(0, 0);
    ghost var lo', hi' := ChunkCoordinate(0, 0), ChunkCoordinate(0, 0);
    while todo != {}
      invariant todo <= keys
      invariant forall c :: c in keys && c !in todo ==> b.minX <= c.x <= b.maxX && b.minZ <= c.z <= b.maxZ
      invariant todo == keys ==> b == Bounds(INT_MAX, INT_MIN, INT_MAX, INT_MIN)
      invariant todo != keys ==> IsBox(b) && lo in keys && hi in keys && lo' in keys && hi' in keys
      invariant todo != keys ==> lo.x == b.minX && hi.x == b.maxX && lo'.z == b.minZ && hi'.z == b.maxZ
      decreases |todo|
    {
      var coord :| coord in todo;
      ghost var first := todo == keys;
      if first || coord.x < b.minX { lo := coord; }
      if first || coord.x > b.maxX { hi := coord; }
      if first || coord.z < b.minZ { lo' := coord; }
      if first || coord.z > b.maxZ { hi' := coord; }
      b := Extend(b, coord);
      todo := todo - {coord};
    }
  }

  /** One step of the bounds loop: Math.min/Math.max of each side with the chunk's coordinates. */
  function Extend(b: Bounds, c: ChunkCoordinate): (b': Bounds)
    ensures b'.minX <= c.x <= b'.maxX && b'.minZ <= c.z <= b'.maxZ
    ensures b'.minX <= b.minX && b.maxX <= b'.maxX && b'.minZ <= b.minZ && b.maxZ <= b'.maxZ
    ensures (b'.minX == b.minX || b'.minX == c.x) && (b'.maxX == b.maxX || b'.maxX == c.x)
    ensures (b'.minZ == b.minZ || b'.minZ == c.z) && (b'.maxZ == b.maxZ || b'.maxZ == c.z)
  {
    Bounds(Min(b.minX, c.x), Max(b.maxX, c.x), Min(b.minZ, c.z), Max(b.maxZ, c.z))
  }

  function Width(b: Bounds): int
  {
    (b.maxX - b.minX + 1) * CHUNK_X
  }

  function Depth(b: Bounds): int
  {
    (b.maxZ - b.minZ + 1) * CHUNK_Z
  }

  /** Whether an array has the shape of the region of box b. */
  predicate Shaped(region: array3<Cell>, b: Bounds)
  {
    region.Length0 == Width(b) && region.Length1 == CHUNK_Y && region.Length2 == Depth(b)
  }

  /** Where chunk c's slice starts in the region. */
  function OffsetX(b: Bounds, c: ChunkCoordinate): int
  {
    (c.x - b.minX) * CHUNK_X
  }

  function OffsetZ(b: Bounds, c: ChunkCoordinate): int
  {
    (c.z - b.minZ) * CHUNK_Z
  }

  /** The chunk whose slice holds region column (rx, rz). */
  function Owner(b: Bounds, rx: int, rz: int): ChunkCoordinate
    requires 0 <= rx && 0 <= rz
  {
    ChunkCoordinate(b.minX + rx / CHUNK_X, b.minZ + rz / CHUNK_Z)
  }

  /** The region column (rx, rz) lies in chunk c's slice exactly when c owns it, at local column (rx % 16, rz % 16). */
  lemma OwnerSlice(b: Bounds, c: ChunkCoordinate, rx: int, rz: int)
    requires 0 <= rx && 0 <= rz
    ensures Owner(b, rx, rz) == c <==>
              OffsetX(b, c) <= rx < OffsetX(b, c) + CHUNK_X && OffsetZ(b, c) <= rz < OffsetZ(b, c) + CHUNK_Z
    ensures Owner(b, rx, rz) == c ==> rx % CHUNK_X == rx - OffsetX(b, c) && rz % CHUNK_Z == rz - OffsetZ(b, c)
  {
    DivSlice(rx, c.x - b.minX);
    DivSlice(rz, c.z - b.minZ);
  }

  lemma DivSlice(r: int, k: int)
    requires 0 <= r
    ensures r / 16 == k <==> k * 16 <= r < k * 16 + 16
    ensures r / 16 == k ==> r % 16 == r - k * 16
  {
  }

  predicate InRegion(b: Bounds, rx: int, y: int, rz: int)
  {
    0 <= rx < Width(b) && 0 <= y < CHUNK_Y && 0 <= rz < Depth(b)
  }

  /** The content of region cell (rx, y, rz) once the chunks of snap are merged: the owner's cell, or null. */
  function MergedCell(snap: Registry, b: Bounds, rx: int, y: int, rz: int): Cell
    requires ValidRegistry(snap)
    requires 0 <= rx && 0 <= y < CHUNK_Y && 0 <= rz
  {
    var c := Owner(b, rx, rz);
    if c in snap then At(snap[c].blocks, rx % CHUNK_X, y, rz % CHUNK_Z) else None
  }

  /** Merging places every chunk's cell (x, y, z) at its offset in the region. */
  lemma MergedAtChunk(snap: Registry, b: Bounds, c: ChunkCoordinate, x: int, y: int, z: int)
    requires ValidRegistry(snap) && c in snap && Encloses(b, snap.Keys) && InBounds(x, y, z)
    ensures MergedCell(snap, b, OffsetX(b, c) + x, y, OffsetZ(b, c) + z) == At(snap[c].blocks, x, y, z)
  {
    OwnerSlice(b, c, OffsetX(b, c) + x, OffsetZ(b, c) + z);
  }

  /** A region cell while the merge loop still has the chunks of todo to copy. */
  function MergedSoFar(snap: Registry, todo: set<ChunkCoordinate>, b: Bounds, rx: int, y: int, rz: int): Cell
    requires ValidRegistry(snap)
    requires 0 <= rx && 0 <= y < CHUNK_Y && 0 <= rz
  {
    if Owner(b, rx, rz) in todo then None else MergedCell(snap, b, rx, y, rz)
  }

  /** The merge loop: a fresh null region, then each chunk of snap copied into its slice. */
  method MergeRegion(snap: Registry, b: Bounds) returns (region: array3<Cell>)
    requires ValidRegistry(snap) && IsBox(b) && Encloses(b, snap.Keys)
    ensures fresh(region) && Shaped(region, b)
    ensures forall rx, y, rz :: InRegion(b, rx, y, rz) ==> region[rx, y, rz] == MergedCell(snap, b, rx, y, rz)
  {
    region := new Cell[Width(b), CHUNK_Y, Depth(b)]((_, _, _) => None);
    var todo := snap.Keys;
    while todo != {}
      invariant todo <= snap.Keys
      invariant forall rx, y, rz :: InRegion(b, rx, y, rz) ==>
                  region[rx, y, rz] == MergedSoFar(snap, todo, b, rx, y, rz)
      decreases |todo|
    {
      var coord :| coord in todo;
      CopyIn(region, b, snap[coord].blocks, coord);
      forall rx, y, rz | InRegion(b, rx, y, rz)
        ensures region[rx, y, rz] == MergedSoFar(snap, todo - {coord}, b, rx, y, rz)
      {
        OwnerSlice(b, coord, rx, rz);
      }
      todo := todo - {coord};
    }
  }

  /** Copies one chunk's grid into its slice of the region, row by row. */
  method CopyIn(region: array3<Cell>, b: Bounds, g: Grid, c: ChunkCoordinate)
    requires Shaped(region, b) && WellSized(g) && b.minX <= c.x <= b.maxX && b.minZ <= c.z <= b.maxZ
    modifies region
    ensures forall rx, y, rz :: InRegion(b, rx, y, rz) ==>
              region[rx, y, rz] ==
                if OffsetX(b, c) <= rx < OffsetX(b, c) + CHUNK_X && OffsetZ(b, c) <= rz < OffsetZ(b, c) + CHUNK_Z
                then At(g, rx - OffsetX(b, c), y, rz - OffsetZ(b, c))
                else old(region[rx, y, rz])
  {
    var offsetX := (c.x - b.minX) * CHUNK_X;
    var offsetZ := (c.z - b.minZ) * CHUNK_Z;
    for x := 0 to CHUNK_X
      invariant forall rx, y, rz :: InRegion(b, rx, y, rz) ==>
                  region[rx, y, rz] ==
                    if offsetX <= rx < offsetX + x && offsetZ <= rz < offsetZ + CHUNK_Z
                    then At(g, rx - offsetX, y, rz - offsetZ)
                    else old(region[rx, y, rz])
    {
      for y := 0 to CHUNK_Y
        invariant forall rx, j, rz :: InRegion(b, rx, j, rz) ==>
                    region[rx, j, rz] ==
                      if offsetZ <= rz < offsetZ + CHUNK_Z && (offsetX <= rx < offsetX + x || (rx == offsetX + x && j < y))
                      then At(g, rx - offsetX, j, rz - offsetZ)
                      else old(region[rx, j, rz])
      {
        ArrayCopyIn(region, g, x, y, offsetX + x, offsetZ);
      }
    }
  }

  /** System.arraycopy of one 16-cell z-row of a chunk grid into the region row at (rx, y), starting at rz0. */
  method ArrayCopyIn(region: array3<Cell>, g: Grid, x: int, y: int, rx: int, rz0: int)
    requires WellSized(g) && 0 <= x < CHUNK_X && 0 <= y < CHUNK_Y
    requires 0 <= rx < region.Length0 && y < region.Length1 && 0 <= rz0 && rz0 + CHUNK_Z <= region.Length2
    modifies region
    ensures forall i, j, k :: 0 <= i < region.Length0 && 0 <= j < region.Length1 && 0 <= k < region.Length2 ==>
              region[i, j, k] == if i == rx && j == y && rz0 <= k < rz0 + CHUNK_Z then At(g, x, y, k - rz0) else old(region[i, j, k])
  {
    for z := 0 to CHUNK_Z
      invariant forall i, j, k :: 0 <= i < region.Length0 && 0 <= j < region.Length1 && 0 <= k < region.Length2 ==>
                  region[i, j, k] == if i == rx && j == y && rz0 <= k < rz0 + z then At(g, x, y, k - rz0) else old(region[i, j, k])
    {
      region[rx, y, rz0 + z] := At(g, x, y, z);
    }
  }

  /** Chunk c's slice of the region, as a chunk grid. */
  function Slice(region: array3<Cell>, b: Bounds, c: ChunkCoordinate): (g: Grid)
    reads region
    requires Shaped(region, b) && b.minX <= c.x <= b.maxX && b.minZ <= c.z <= b.maxZ
    ensures WellSized(g)
  {
    seq(VOLUME, i requires 0 <= i < VOLUME reads region =>
      var p := CellOf(i);
      region[OffsetX(b, c) + p.0, p.1, OffsetZ(b, c) + p.2])
  }

  /** Cell (x, y, z) of chunk c's slice is the region cell at its offset. */
  lemma SliceAt(region: array3<Cell>, b: Bounds, c: ChunkCoordinate)
    requires Shaped(region, b) && b.minX <= c.x <= b.maxX && b.minZ <= c.z <= b.maxZ
    ensures forall x, y, z :: InBounds(x, y, z) ==>
              At(Slice(region, b, c), x, y, z) == region[OffsetX(b, c) + x, y, OffsetZ(b, c) + z]
  {
    forall x, y, z | InBounds(x, y, z)
      ensures At(Slice(region, b, c), x, y, z) == region[OffsetX(b, c) + x, y, OffsetZ(b, c) + z]
    {
      var p := CellOf(Idx(x, y, z));
      IdxInjective(p.0, p.1, p.2, x, y, z);
    }
  }

  /** Two grids that agree at every (x, y, z) are equal. */
  lemma GridExt(g: Grid, h: Grid)
    requires WellSized(g) && WellSized(h)
    requires forall x, y, z :: InBounds(x, y, z) ==> At(g, x, y, z) == At(h, x, y, z)
    ensures g == h
  {
    forall i | 0 <= i < VOLUME ensures g[i] == h[i] {
      var p := CellOf(i);
      assert At(g, p.0, p.1, p.2) == At(h, p.0, p.1, p.2);
    }
  }

  /**
   * Merging and writing back with no pass in between is the identity: each
   * chunk's slice of the merged region is its own grid, so setBlockData
   * leaves the chunk exactly as it was, dirty flag included.
   */
  lemma MergeWritebackIdentity(snap: Registry, b: Bounds, region: array3<Cell>, c: ChunkCoordinate)
    requires ValidRegistry(snap) && Encloses(b, snap.Keys) && Shaped(region, b) && c in snap
    requires forall rx, y, rz :: InRegion(b, rx, y, rz) ==> region[rx, y, rz] == MergedCell(snap, b, rx, y, rz)
    ensures Slice(region, b, c) == snap[c].blocks
    ensures SetBlockData(snap[c], Slice(region, b, c)) == snap[c]
  {
    SliceAt(region, b, c);
    forall x, y, z | InBounds(x, y, z) ensures At(Slice(region, b, c), x, y, z) == At(snap[c].blocks, x, y, z) {
      MergedAtChunk(snap, b, c, x, y, z);
      assert InRegion(b, OffsetX(b, c) + x, y, OffsetZ(b, c) + z);
    }
    GridExt(Slice(region, b, c), snap[c].blocks);
  }

  /**
   * A cell-by-cell relation R between the merged region and the region after
   * a pass carries over to each chunk: R holds between the chunk's old cell
   * and the cell of its written-back slice.
   */
  lemma SliceRelates(snap: Registry, b: Bounds, region: array3<Cell>, R: (Cell, Cell) -> bool, c: ChunkCoordinate)
    requires ValidRegistry(snap) && Encloses(b, snap.Keys) && Shaped(region, b) && c in snap
    requires forall rx, y, rz :: InRegion(b, rx, y, rz) ==> R(MergedCell(snap, b, rx, y, rz), region[rx, y, rz])
    ensures forall i :: 0 <= i < VOLUME ==> R(snap[c].blocks[i], Slice(region, b, c)[i])
  {
    SliceAt(region, b, c);
    forall i | 0 <= i < VOLUME ensures R(snap[c].blocks[i], Slice(region, b, c)[i]) {
      var p := CellOf(i);
      MergedAtChunk(snap, b, c, p.0, p.1, p.2);
      assert InRegion(b, OffsetX(b, c) + p.0, p.1, OffsetZ(b, c) + p.2);
    }
  }

  /** Copies chunk c's slice out of the region into a fresh grid, row by row. */
  method CopyOut(region: array3<Cell>, b: Bounds, c: ChunkCoordinate) returns (data: Grid)
    requires Shaped(region, b) && b.minX <= c.x <= b.maxX && b.minZ <= c.z <= b.maxZ
    ensures data == Slice(region, b, c)
  {
    var offsetX := (c.x - b.minX) * CHUNK_X;
    var offsetZ := (c.z - b.minZ) * CHUNK_Z;
    var newChunkData := new Cell[VOLUME](_ => None);
    for x := 0 to CHUNK_X
      invariant forall i, j, k :: InBounds(i, j, k) && i < x ==>
                  newChunkData[Idx(i, j, k)] == region[offsetX + i, j, offsetZ + k]
    {
      for y := 0 to CHUNK_Y
        invariant forall i, j, k :: InBounds(i, j, k) && (i < x || (i == x && j < y)) ==>
                    newChunkData[Idx(i, j, k)] == region[offsetX + i, j, offsetZ + k]
      {
        ArrayCopyOut(region, newChunkData, offsetX + x, y, offsetZ, x);
      }
    }
    SliceAt(region, b, c);
    GridExt(newChunkData[..], Slice(region, b, c));
    data := newChunkData[..];
  }

  /** System.arraycopy of one 16-cell z-row of the region, from rz0 on, into row (x, y) of a chunk grid. */
  method ArrayCopyOut(region: array3<Cell>, data: array<Cell>, rx: int, y: int, rz0: int, x: int)
    requires data.Length == VOLUME && 0 <= x < CHUNK_X && 0 <= y < CHUNK_Y
    requires 0 <= rx < region.Length0 && y < region.Length1 && 0 <= rz0 && rz0 + CHUNK_Z <= region.Length2
    modifies data
    ensures forall i, j, k :: InBounds(i, j, k) ==>
              data[Idx(i, j, k)] == if i == x && j == y then region[rx, y, rz0 + k] else old(data[Idx(i, j, k)])
  {
    for z := 0 to CHUNK_Z
      invariant forall i, j, k :: InBounds(i, j, k) ==>
                  data[Idx(i, j, k)] == if i == x && j == y && k < z then region[rx, y, rz0 + k] else old(data[Idx(i, j, k)])
    {
      data[Idx(x, y, z)] := region[rx, y, rz0 + z];
      forall i, j, k | InBounds(i, j, k) && (i != x || j != y || k != z) ensures Idx(i, j, k) != Idx(x, y, z) {
        if Idx(i, j, k) == Idx(x, y, z) {
          IdxInjective(i, j, k, x, y, z);
        }
      }
    }
  }

  /** A cell of a region array. */
  datatype Pos = Pos(x: int, y: int, z: int)

  predicate InArray3<T>(a: array3<T>, x: int, y: int, z: int)
  {
    0 <= x < a.Length0 && 0 <= y < a.Length1 && 0 <= z < a.Length2
  }

  /**
   * findSurfaceY, which the ore and tree passes each define the same way:
   * the first non-empty cell of column (rx, rz) from the top, or -1 for an
   * empty column.
   */
  /** s is the first y from the top of column (rx, rz) that holds a block. */
  predicate IsSurfaceAt(region: array3<Cell>, rx: int, rz: int, s: int)
    reads region
  {
    0 <= rx < region.Length0 && 0 <= rz < region.Length2 && 0 <= s < region.Length1 &&
    region[rx, s, rz] != None && forall y :: 0 <= y < s ==> region[rx, y, rz] == None
  }

  method FindSurfaceY(region: array3<Cell>, rx: int, rz: int) returns (s: int)
    requires 0 <= rx < region.Length0 && 0 <= rz < region.Length2
    ensures -1 <= s < region.Length1
    ensures s >= 0 ==> region[rx, s, rz] != None
    ensures forall y :: 0 <= y < region.Length1 && (s == -1 || y < s) ==> region[rx, y, rz] == None
  {
    for y := 0 to region.Length1
      invariant forall j :: 0 <= j < y ==> region[rx, j, rz] == None
    {
      if region[rx, y, rz] != None {
        return y;
      }
    }
    return -1;
  }

  /** Which flag a pass sets on the chunks it writes back. */
  datatype Flag = OreFlag | TreeFlag

  function IsDecorated(s: ChunkState, f: Flag): bool
  {
    match f
    case OreFlag => s.oreDecorated
    case TreeFlag => s.treeDecorated
  }

  function SetDecorated(s: ChunkState, f: Option<Flag>): (s': ChunkState)
    ensures s'.blocks == s.blocks && s'.links == s.links && s'.dirty == s.dirty
    ensures f.Some? ==> IsDecorated(s', f.value)
    ensures forall g :: Some(g) != f ==> IsDecorated(s', g) == IsDecorated(s, g)
  {
    match f
    case None => s
    case Some(OreFlag) => s.(oreDecorated := true)
    case Some(TreeFlag) => s.(treeDecorated := true)
  }

  /** The snapshot loop of the ore and tree passes: the active chunks whose flag f is still false. */
  method Undecorated(active: Registry, f: Flag) returns (snap: Registry)
    ensures forall c :: c in snap <==> c in active && !IsDecorated(active[c], f)
    ensures forall c :: c in snap ==> snap[c] == active[c]
  {
    snap := map[];
    var todo := active.Keys;
    while todo != {}
      invariant todo <= active.Keys
      invariant forall c :: c in snap <==> c in active && c !in todo && !IsDecorated(active[c], f)
      invariant forall c :: c in snap ==> snap[c] == active[c]
      decreases |todo|
    {
      var coord :| coord in todo;
      if !IsDecorated(active[coord], f) {
        snap := snap[coord := active[coord]];
      }
      todo := todo - {coord};
    }
  }

  /**
   * The writeback loop: every chunk of keys gets setBlockData of its slice,
   * then the pass's flag when it has one. Chunks outside keys are untouched.
   */
  method Writeback(active: Registry, keys: set<ChunkCoordinate>, region: array3<Cell>, b: Bounds, f: Option<Flag>)
    returns (active': Registry)
    requires keys <= active.Keys && ValidRegistry(active) && Encloses(b, keys) && Shaped(region, b)
    ensures active'.Keys == active.Keys && ValidRegistry(active')
    ensures forall c :: c in keys ==> active'[c] == SetDecorated(SetBlockData(active[c], Slice(region, b, c)), f)
    ensures forall c :: c in active && c !in keys ==> active'[c] == active[c]
  {
    active' := active;
    var todo := keys;
    while todo != {}
      invariant todo <= keys
      invariant active'.Keys == active.Keys && ValidRegistry(active')
      invariant forall c :: c in keys && c !in todo ==> active'[c] == SetDecorated(SetBlockData(active[c], Slice(region, b, c)), f)
      invariant forall c :: c in active && (c !in keys || c in todo) ==> active'[c] == active[c]
      decreases |todo|
    {
      var coord :| coord in todo;
      var newChunkData := CopyOut(region, b, coord);
      var updated := SetDecorated(SetBlockData(active'[coord], newChunkData), f);
      assert ValidState(updated);
      active' := active'[coord := updated];
      todo := todo - {coord};
    }
  }

  /**
   * What a pass's writeback means for each chunk it merged: when the pass
   * relates every merged cell to the final region cell by R, each such
   * chunk's old cells are related by R to its new ones; its links are kept,
   * it is dirty exactly when its grid changed or it already was, flag f is
   * set and the other flag is kept.
   */
  lemma WritebackRelates(active: Registry, snap: Registry, b: Bounds, region: array3<Cell>, f: Option<Flag>,
                         R: (Cell, Cell) -> bool, active': Registry)
    requires ValidRegistry(active) && ValidRegistry(active') && snap.Keys <= active.Keys && active'.Keys == active.Keys
    requires forall c :: c in snap ==> snap[c] == active[c]
    requires Encloses(b, snap.Keys) && Shaped(region, b)
    requires forall rx, y, rz :: InRegion(b, rx, y, rz) ==> R(MergedCell(snap, b, rx, y, rz), region[rx, y, rz])
    requires forall c :: c in snap ==> active'[c] == SetDecorated(SetBlockData(active[c], Slice(region, b, c)), f)
    ensures forall c, i :: c in snap && 0 <= i < VOLUME ==> R(active[c].blocks[i], active'[c].blocks[i])
    ensures forall c :: c in snap ==>
              active'[c].links == active[c].links &&
              active'[c].dirty == (active[c].dirty || active'[c].blocks != active[c].blocks) &&
              (f.Some? ==> IsDecorated(active'[c], f.value)) &&
              forall g :: Some(g) != f ==> IsDecorated(active'[c], g) == IsDecorated(active[c], g)
  {
    assert ValidRegistry(snap);
    forall c | c in snap
      ensures forall i :: 0 <= i < VOLUME ==> R(active[c].blocks[i], active'[c].blocks[i])
    {
      SliceRelates(snap, b, region, R, c);
    }
  }
}
