/**
 * Properties of the chunk rules: get after set, the dirty flag, link
 * updates and their reciprocal clean-up, one-hop neighbour lookups, face
 * culling (which is symmetric across shared faces, also across a chunk
 * border), and the shape of the mesh.
 */
module ChunkLaws {
  import opened Wrappers
  import opened Blocks
  import opened ChunkGrid
  import opened Vertex
  import opened ChunkSpec

  // ---------------------------------------------------------------------
  // Cells and the dirty flag
  // ---------------------------------------------------------------------

  /** Reading a cell after writing one: the written value at that cell (if in bounds), the old value anywhere else. */
  lemma GetAfterSet(s: ChunkState, x: int, y: int, z: int, b: Cell, x': int, y': int, z': int)
    requires ValidState(s)
    ensures GetBlockAt(SetBlockAt(s, x, y, z, b), x', y', z')
         == if InBounds(x, y, z) && x == x' && y == y' && z == z' then b else GetBlockAt(s, x', y', z')
  {
    if InBounds(x, y, z) && InBounds(x', y', z') && Idx(x, y, z) == Idx(x', y', z') {
      IdxInjective(x, y, z, x', y', z');
    }
  }

  /** A write inside the chunk sets dirty and touches nothing but that cell; a write outside changes nothing. */
  lemma SetBlockAtEffect(s: ChunkState, x: int, y: int, z: int, b: Cell)
    requires ValidState(s)
    ensures var s' := SetBlockAt(s, x, y, z, b);
      && (InBounds(x, y, z) ==> s'.dirty && s'.links == s.links && s'.oreDecorated == s.oreDecorated && s'.treeDecorated == s.treeDecorated)
      && (!InBounds(x, y, z) ==> s' == s)
  {
  }

  /** Loading data makes the grid equal to it; the chunk becomes dirty exactly when the data differed. */
  lemma SetBlockDataEffect(s: ChunkState, data: Grid)
    requires ValidState(s) && WellSized(data)
    ensures SetBlockData(s, data).blocks == data
    ensures SetBlockData(s, data).dirty == (s.dirty || data != s.blocks)
    ensures SetBlockData(SetBlockData(s, data), data) == SetBlockData(s, data)
  {
  }

  /** Setting a link changes only that direction; only a non-null neighbour dirties the chunk. */
  lemma SetNeighborEffect(s: ChunkState, d: Direction, n: Option<ChunkCoordinate>, d': Direction)
    ensures LinkOf(SetNeighbor(s, d, n).links, d') == if d' == d then n else LinkOf(s.links, d')
    ensures SetNeighbor(s, d, n).dirty == (s.dirty || n.Some?)
    ensures SetNeighbor(s, d, n).blocks == s.blocks
  {
  }

  // ---------------------------------------------------------------------
  // Reciprocal clean-up
  // ---------------------------------------------------------------------

  /** The parts of a chunk other than its links. */
  predicate SameButLinks(s: ChunkState, t: ChunkState)
  {
    s.blocks == t.blocks && s.dirty == t.dirty && s.oreDecorated == t.oreDecorated && s.treeDecorated == t.treeDecorated
  }

  lemma ClearReciprocalOnlyUnlinks(reg: Registry, me: ChunkCoordinate, d: Direction)
    requires me in reg
    ensures var reg' := ClearReciprocal(reg, me, d);
      forall k :: k in reg ==> SameButLinks(reg'[k], reg[k])
  {
  }

  /** Cleaning up a chunk's links changes nothing but links, anywhere: in particular it never marks a chunk dirty. */
  lemma CleanNeighborsOnlyUnlinks(reg: Registry, me: ChunkCoordinate)
    requires me in reg
    ensures var reg' := CleanNeighbors(reg, me);
      forall k :: k in reg ==> SameButLinks(reg'[k], reg[k])
  {
    var r1 := ClearReciprocal(reg, me, FORWARD);
    ClearReciprocalOnlyUnlinks(reg, me, FORWARD);
    var r2 := ClearReciprocal(r1, me, BACKWARD);
    ClearReciprocalOnlyUnlinks(r1, me, BACKWARD);
    var r3 := ClearReciprocal(r2, me, LEFT);
    ClearReciprocalOnlyUnlinks(r2, me, LEFT);
    ClearReciprocalOnlyUnlinks(r3, me, RIGHT);
  }

  /** Every chunk that links to `me` is linked back by `me` in the opposite direction. */
  predicate LinkedBack(reg: Registry, me: ChunkCoordinate)
    requires me in reg
  {
    forall k, d :: k in reg && LinkOf(reg[k].links, d) == Some(me) ==> LinkOf(reg[me].links, Opposite(d)) == Some(k)
  }

  predicate NoSelfLink(s: ChunkState, me: ChunkCoordinate)
  {
    forall d :: LinkOf(s.links, d) != Some(me)
  }

  /**
   * Every other chunk that still links to `me` is one `me` links back to,
   * through a direction whose clean-up step has not run yet.
   */
  predicate PendingLinksToMe(reg: Registry, me: ChunkCoordinate, done: set<Direction>)
    requires me in reg
  {
    forall k, d :: k in reg && k != me && LinkOf(reg[k].links, d) == Some(me) ==>
      LinkOf(reg[me].links, Opposite(d)) == Some(k) && Opposite(d) !in done
  }

  /** One clean-up step keeps `me` unchanged and retires the direction it handles. */
  lemma ClearReciprocalStep(reg: Registry, me: ChunkCoordinate, e: Direction, done: set<Direction>)
    requires me in reg && NoSelfLink(reg[me], me) && PendingLinksToMe(reg, me, done)
    ensures var reg' := ClearReciprocal(reg, me, e);
      reg'[me] == reg[me] && PendingLinksToMe(reg', me, done + {e})
  {
    var reg' := ClearReciprocal(reg, me, e);
    forall k, d | k in reg' && k != me && LinkOf(reg'[k].links, d) == Some(me)
      ensures LinkOf(reg'[me].links, Opposite(d)) == Some(k) && Opposite(d) !in done + {e}
    {
      assert LinkOf(reg[k].links, d) == Some(me);
    }
  }

  /**
   * When every link to `me` is matched by `me`'s link back (as the world's
   * wiring guarantees) and `me` does not link to itself, cleaning up `me`
   * leaves no chunk linking to it.
   */
  lemma {:induction false} CleanNeighborsDetaches(reg: Registry, me: ChunkCoordinate)
    requires me in reg && NoSelfLink(reg[me], me) && LinkedBack(reg, me)
    ensures var reg' := CleanNeighbors(reg, me);
      forall k, d :: k in reg' ==> LinkOf(reg'[k].links, d) != Some(me)
  {
    assert PendingLinksToMe(reg, me, {});
    var r1 := ClearReciprocal(reg, me, FORWARD);
    ClearReciprocalStep(reg, me, FORWARD, {});
    var r2 := ClearReciprocal(r1, me, BACKWARD);
    ClearReciprocalStep(r1, me, BACKWARD, {FORWARD});
    var r3 := ClearReciprocal(r2, me, LEFT);
    ClearReciprocalStep(r2, me, LEFT, {FORWARD, BACKWARD});
    var r4 := ClearReciprocal(r3, me, RIGHT);
    ClearReciprocalStep(r3, me, RIGHT, {FORWARD, BACKWARD, LEFT});
    var reg' := CleanNeighbors(reg, me);
    forall k, d | k in reg'
      ensures LinkOf(reg'[k].links, d) != Some(me)
    {
      if k != me {
        AnyDirection(Opposite(d));
      }
    }
  }

  lemma AnyDirection(d: Direction)
    ensures d in {FORWARD, BACKWARD, LEFT, RIGHT}
  {
  }

  // ---------------------------------------------------------------------
  // Neighbour lookups
  // ---------------------------------------------------------------------

  predicate Lateral(f: Face)
  {
    f == Front || f == Back || f == Left || f == Right
  }

  /** The link a lateral face looks through. */
  function LinkFor(f: Face): Direction
    requires Lateral(f)
  {
    match f
    case Front => FORWARD
    case Back => BACKWARD
    case Left => LEFT
    case Right => RIGHT
  }

  function OppositeFace(f: Face): Face
  {
    match f
    case Top => Bottom
    case Bottom => Top
    case Front => Back
    case Back => Front
    case Left => Right
    case Right => Left
  }

  /**
   * The cell across face f of an in-bounds cell: the local cell when that
   * is in bounds; nothing above the top or below the bottom layer; and
   * otherwise the wrapped cell of the chunk linked on that side, if loaded.
   */
  lemma {:induction false} CellAcross(reg: Registry, s: ChunkState, f: Face, x: int, y: int, z: int)
    requires ValidRegistry(reg) && ValidState(s) && InBounds(x, y, z)
    ensures var (ax, ay, az) := Across(f, x, y, z);
      ResolveCell(reg, s, ax, ay, az)
      == if InBounds(ax, ay, az) then At(s.blocks, ax, ay, az)
         else if !Lateral(f) then None
         else match LinkOf(s.links, LinkFor(f))
           case Some(c) => if c in reg then At(reg[c].blocks, ax % CHUNK_X, ay, az % CHUNK_Z) else None
           case None => None
  {
    var (ax, ay, az) := Across(f, x, y, z);
    if !InBounds(ax, ay, az) && Lateral(f) {
      match LinkOf(s.links, LinkFor(f))
      case Some(c) =>
        if c in reg {
          assert InBounds(ax % CHUNK_X, ay, az % CHUNK_Z);
          match f
          case Front => assert ResolveCell(reg, reg[c], ax, ay, az - CHUNK_Z) == At(reg[c].blocks, ax, ay, 0);
          case Back => assert ResolveCell(reg, reg[c], ax, ay, az + CHUNK_Z) == At(reg[c].blocks, ax, ay, 15);
          case Left => assert ResolveCell(reg, reg[c], ax + CHUNK_X, ay, az) == At(reg[c].blocks, 15, ay, az);
          case Right => assert ResolveCell(reg, reg[c], ax - CHUNK_X, ay, az) == At(reg[c].blocks, 0, ay, az);
        }
      case None =>
    }
  }

  /** Nothing lies above the top layer or below the bottom one, so those faces are always emitted. */
  lemma WorldEdgesAlwaysEmitted(reg: Registry, s: ChunkState, solid: Solidity, x: int, z: int)
    requires ValidRegistry(reg) && ValidState(s) && 0 <= x < CHUNK_X && 0 <= z < CHUNK_Z
    ensures EmitsOpaqueFace(reg, s, solid, Top, x, 0, z) && EmitsWaterFace(reg, s, Top, x, 0, z)
    ensures EmitsOpaqueFace(reg, s, solid, Bottom, x, CHUNK_Y - 1, z) && EmitsWaterFace(reg, s, Bottom, x, CHUNK_Y - 1, z)
  {
  }

  // ---------------------------------------------------------------------
  // Culling
  // ---------------------------------------------------------------------

  /** A block that hides the faces of its neighbours and hides its own faces behind them. */
  predicate Occluding(c: Cell, solid: Solidity)
  {
    c.Some? && solid(c.value) && !AlwaysAllFaces(c)
  }

  lemma AcrossInverse(f: Face, x: int, y: int, z: int)
    ensures var (ax, ay, az) := Across(f, x, y, z); Across(OppositeFace(f), ax, ay, az) == (x, y, z)
  {
  }

  /**
   * Culling inside a chunk is symmetric: between two adjacent occluding
   * blocks, neither draws the face they share.
   */
  lemma CullingSymmetricInside(reg: Registry, s: ChunkState, solid: Solidity, f: Face, x: int, y: int, z: int)
    requires ValidRegistry(reg) && ValidState(s) && InBounds(x, y, z)
    requires var (ax, ay, az) := Across(f, x, y, z);
      InBounds(ax, ay, az) && Occluding(At(s.blocks, x, y, z), solid) && Occluding(At(s.blocks, ax, ay, az), solid)
    ensures var (ax, ay, az) := Across(f, x, y, z);
      !EmitsOpaqueFace(reg, s, solid, f, x, y, z) && !EmitsOpaqueFace(reg, s, solid, OppositeFace(f), ax, ay, az)
  {
    var (ax, ay, az) := Across(f, x, y, z);
    CellAcross(reg, s, f, x, y, z);
    AcrossInverse(f, x, y, z);
    CellAcross(reg, s, OppositeFace(f), ax, ay, az);
  }

  /** Where a position just across a chunk border lands in the neighbouring chunk. */
  function Wrap(x: int, y: int, z: int): (int, int, int)
  {
    (x % CHUNK_X, y, z % CHUNK_Z)
  }

  /**
   * Culling is symmetric across a chunk border too: if chunk a links to b
   * on a lateral side and b links back to a, then between a's border block
   * and the block facing it in b, neither draws the shared face.
   */
  lemma CullingSymmetricAcrossBorder(reg: Registry, a: ChunkCoordinate, b: ChunkCoordinate, solid: Solidity,
                                     f: Face, x: int, y: int, z: int)
    requires ValidRegistry(reg) && a in reg && b in reg && InBounds(x, y, z) && Lateral(f)
    requires LinkOf(reg[a].links, LinkFor(f)) == Some(b)
    requires LinkOf(reg[b].links, Opposite(LinkFor(f))) == Some(a)
    requires var (ax, ay, az) := Across(f, x, y, z);
      && !InBounds(ax, ay, az)
      && Occluding(At(reg[a].blocks, x, y, z), solid)
      && Occluding(At(reg[b].blocks, ax % CHUNK_X, ay, az % CHUNK_Z), solid)
    ensures var (ax, ay, az) := Across(f, x, y, z);
      var (wx, wy, wz) := Wrap(ax, ay, az);
      !EmitsOpaqueFace(reg, reg[a], solid, f, x, y, z) && !EmitsOpaqueFace(reg, reg[b], solid, OppositeFace(f), wx, wy, wz)
  {
    var (ax, ay, az) := Across(f, x, y, z);
    var (wx, wy, wz) := Wrap(ax, ay, az);
    CellAcross(reg, reg[a], f, x, y, z);
    assert InBounds(wx, wy, wz);
    var g := OppositeFace(f);
    CellAcross(reg, reg[b], g, wx, wy, wz);
    var (cx, cy, cz) := Across(g, wx, wy, wz);
    assert !InBounds(cx, cy, cz) && Lateral(g) && LinkFor(g) == Opposite(LinkFor(f));
    assert (cx % CHUNK_X, cy, cz % CHUNK_Z) == (x, y, z);
  }

  /** A water face is drawn exactly when the cell across it is not water; between two adjacent water cells neither face is drawn. */
  lemma WaterCullingInside(reg: Registry, s: ChunkState, f: Face, x: int, y: int, z: int)
    requires ValidRegistry(reg) && ValidState(s) && InBounds(x, y, z)
    requires var (ax, ay, az) := Across(f, x, y, z);
      InBounds(ax, ay, az) && At(s.blocks, x, y, z) == Some(WATER1)
    ensures var (ax, ay, az) := Across(f, x, y, z);
      && (EmitsWaterFace(reg, s, f, x, y, z) <==> At(s.blocks, ax, ay, az) != Some(WATER1))
      && (At(s.blocks, ax, ay, az) == Some(WATER1) ==> !EmitsWaterFace(reg, s, OppositeFace(f), ax, ay, az))
  {
    var (ax, ay, az) := Across(f, x, y, z);
    CellAcross(reg, s, f, x, y, z);
    AcrossInverse(f, x, y, z);
    CellAcross(reg, s, OppositeFace(f), ax, ay, az);
  }

  /** Ores of the always-drawn kinds emit all six faces whatever surrounds them. */
  lemma AlwaysAllFacesEmitted(reg: Registry, s: ChunkState, solid: Solidity, o: Origin, x: int, y: int, z: int)
    requires ValidRegistry(reg) && ValidState(s) && InBounds(x, y, z) && AlwaysAllFaces(At(s.blocks, x, y, z))
    ensures |CellMesh(reg, s, solid, o, x, y, z).solids| == 6
    ensures CellMesh(reg, s, solid, o, x, y, z).water == []
  {
  }

  // ---------------------------------------------------------------------
  // Mesh shape
  // ---------------------------------------------------------------------

  /** A cell emits at most six faces, and one of the always-drawn ores exactly six. */
  lemma CellFaceCount(reg: Registry, s: ChunkState, solid: Solidity, o: Origin, x: int, y: int, z: int)
    requires ValidRegistry(reg) && ValidState(s) && InBounds(x, y, z)
    ensures |CellMesh(reg, s, solid, o, x, y, z).solids| + |CellMesh(reg, s, solid, o, x, y, z).water| <= 6
  {
  }

  /** No cell of the grid holds water. */
  predicate NoWater(s: ChunkState)
    requires ValidState(s)
  {
    forall i :: 0 <= i < VOLUME ==> s.blocks[i] != Some(WATER1)
  }

  /** No cell of the grid holds a block other than water. */
  predicate OnlyWaterOrEmpty(s: ChunkState)
    requires ValidState(s)
  {
    forall i :: 0 <= i < VOLUME ==> s.blocks[i] == None || s.blocks[i] == Some(WATER1)
  }

  /** Which buffer geometry can go to: water cells feed only the water buffer, all other blocks only the opaque one. */
  lemma {:induction false} RowBuffersBySource(reg: Registry, s: ChunkState, solid: Solidity, o: Origin, y: int, x: int, z: int)
    requires ValidRegistry(reg) && ValidState(s)
    requires 0 <= y < CHUNK_Y && 0 <= x < CHUNK_X && 0 <= z <= CHUNK_Z
    ensures NoWater(s) ==> RowMesh(reg, s, solid, o, y, x, z).water == []
    ensures OnlyWaterOrEmpty(s) ==> RowMesh(reg, s, solid, o, y, x, z).solids == []
    decreases z
  {
    if z > 0 {
      RowBuffersBySource(reg, s, solid, o, y, x, z - 1);
      assert s.blocks[Idx(x, y, z - 1)] == At(s.blocks, x, y, z - 1);
    }
  }

  lemma {:induction false} LayerBuffersBySource(reg: Registry, s: ChunkState, solid: Solidity, o: Origin, y: int, x: int)
    requires ValidRegistry(reg) && ValidState(s)
    requires 0 <= y < CHUNK_Y && 0 <= x <= CHUNK_X
    ensures NoWater(s) ==> LayerMesh(reg, s, solid, o, y, x).water == []
    ensures OnlyWaterOrEmpty(s) ==> LayerMesh(reg, s, solid, o, y, x).solids == []
    decreases x
  {
    if x > 0 {
      LayerBuffersBySource(reg, s, solid, o, y, x - 1);
      RowBuffersBySource(reg, s, solid, o, y, x - 1, CHUNK_Z);
    }
  }

  /**
   * A chunk without water has an empty water mesh, and a chunk holding
   * nothing but water (or nothing at all) has an empty opaque mesh.
   */
  lemma {:induction false} MeshBuffersBySource(reg: Registry, s: ChunkState, solid: Solidity, o: Origin, y: int)
    requires ValidRegistry(reg) && ValidState(s) && 0 <= y <= CHUNK_Y
    ensures NoWater(s) ==> Mesh(reg, s, solid, o, y).water == []
    ensures OnlyWaterOrEmpty(s) ==> Mesh(reg, s, solid, o, y).solids == []
    decreases y
  {
    if y > 0 {
      MeshBuffersBySource(reg, s, solid, o, y - 1);
      LayerBuffersBySource(reg, s, solid, o, y - 1, CHUNK_X);
    }
  }
}
