/**
 * The observable state of one chunk as a value, and the rules the chunk's
 * operations follow: bounds-checked access, the dirty flag, directional
 * neighbour links, and which faces the mesher emits for each cell.
 *
 * Neighbours are identified by chunk coordinate and looked up in a registry
 * (the map of loaded chunks), not by object reference; a link whose
 * coordinate is missing from the registry behaves like a null link.
 */
module ChunkSpec {
  import opened Wrappers
  import opened Blocks
  import opened ChunkGrid
  import opened Vertex

  datatype Direction = FORWARD | BACKWARD | LEFT | RIGHT

  /** The four lateral links: front is +z, back is -z, left is -x, right is +x. */
  datatype Links = Links(front: Option<ChunkCoordinate>, back: Option<ChunkCoordinate>,
                         left: Option<ChunkCoordinate>, right: Option<ChunkCoordinate>)

  const NO_LINKS: Links := Links(None, None, None, None)

  datatype ChunkState = ChunkState(blocks: Grid, links: Links, dirty: bool, oreDecorated: bool, treeDecorated: bool)

  type Registry = map<ChunkCoordinate, ChunkState>

  predicate ValidState(s: ChunkState)
  {
    WellSized(s.blocks)
  }

  predicate ValidRegistry(reg: Registry)
  {
    forall c :: c in reg ==> ValidState(reg[c])
  }

  /** A freshly constructed chunk: every cell empty, no links, dirty, not yet decorated. */
  function NewState(): (s: ChunkState)
    ensures ValidState(s) && s.dirty && s.links == NO_LINKS
    ensures forall i :: 0 <= i < VOLUME ==> s.blocks[i] == None
  {
    ChunkState(EmptyGrid(), NO_LINKS, true, false, false)
  }

  function LinkOf(l: Links, d: Direction): Option<ChunkCoordinate>
  {
    match d
    case FORWARD => l.front
    case BACKWARD => l.back
    case LEFT => l.left
    case RIGHT => l.right
  }

  function Opposite(d: Direction): Direction
  {
    match d
    case FORWARD => BACKWARD
    case BACKWARD => FORWARD
    case LEFT => RIGHT
    case RIGHT => LEFT
  }

  /** The cell at (x, y, z), or empty when the position is outside 16 x 256 x 16. */
  function GetBlockAt(s: ChunkState, x: int, y: int, z: int): Cell
    requires ValidState(s)
  {
    if InBounds(x, y, z) then At(s.blocks, x, y, z) else None
  }

  /** Writes one cell and marks the chunk dirty; out of bounds nothing changes. */
  function SetBlockAt(s: ChunkState, x: int, y: int, z: int, b: Cell): (s': ChunkState)
    requires ValidState(s)
    ensures ValidState(s')
  {
    if InBounds(x, y, z) then s.(blocks := s.blocks[Idx(x, y, z) := b], dirty := true) else s
  }

  /** Replaces the whole grid and marks the chunk dirty, unless the data equals the current grid. */
  function SetBlockData(s: ChunkState, data: Grid): (s': ChunkState)
    requires ValidState(s) && WellSized(data)
    ensures ValidState(s')
  {
    if data == s.blocks then s else s.(blocks := data, dirty := true)
  }

  /** Sets one link; only a non-null neighbour marks the chunk dirty. */
  function SetNeighbor(s: ChunkState, d: Direction, n: Option<ChunkCoordinate>): ChunkState
  {
    var l := s.links;
    var l' := match d
      case FORWARD => l.(front := n)
      case BACKWARD => l.(back := n)
      case LEFT => l.(left := n)
      case RIGHT => l.(right := n);
    s.(links := l', dirty := s.dirty || n.Some?)
  }

  /** Clears the link pointing back at `me` on `me`'s neighbour in direction d, if that neighbour is loaded. */
  function ClearReciprocal(reg: Registry, me: ChunkCoordinate, d: Direction): (reg': Registry)
    requires me in reg
    ensures reg'.Keys == reg.Keys
  {
    match LinkOf(reg[me].links, d)
    case Some(n) => if n in reg then reg[n := SetNeighbor(reg[n], Opposite(d), None)] else reg
    case None => reg
  }

  /**
   * Unlinks `me`: each former neighbour (front, then back, left, right) drops
   * its reciprocal link, then all four of `me`'s own links are cleared.
   */
  function CleanNeighbors(reg: Registry, me: ChunkCoordinate): (reg': Registry)
    requires me in reg
    ensures reg'.Keys == reg.Keys
    ensures reg'[me].links == NO_LINKS
  {
    var r1 := ClearReciprocal(reg, me, FORWARD);
    var r2 := ClearReciprocal(r1, me, BACKWARD);
    var r3 := ClearReciprocal(r2, me, LEFT);
    var r4 := ClearReciprocal(r3, me, RIGHT);
    r4[me := r4[me].(links := NO_LINKS)]
  }

  // ---------------------------------------------------------------------
  // Neighbour lookups
  // ---------------------------------------------------------------------

  /** How far (x, z) lies outside the chunk's horizontal extent; each hop to a neighbour shrinks it. */
  function OutsideBy(x: int, z: int): nat
  {
    (if x < 0 then -x else if x >= CHUNK_X then x - CHUNK_X + 1 else 0)
    + (if z < 0 then -z else if z >= CHUNK_Z then z - CHUNK_Z + 1 else 0)
  }

  /**
   * The cell a lookup at (x, y, z) reaches: none above or below the world;
   * otherwise x is resolved first through the left/right links, then z
   * through the back/front links, until the position is local. A missing
   * link ends the lookup with nothing.
   */
  function ResolveCell(reg: Registry, s: ChunkState, x: int, y: int, z: int): Cell
    requires ValidRegistry(reg) && ValidState(s)
    decreases OutsideBy(x, z)
  {
    if !(0 <= y < CHUNK_Y) then None
    else if x < 0 then
      match s.links.left
      case Some(c) => if c in reg then ResolveCell(reg, reg[c], x + CHUNK_X, y, z) else None
      case None => None
    else if x >= CHUNK_X then
      match s.links.right
      case Some(c) => if c in reg then ResolveCell(reg, reg[c], x - CHUNK_X, y, z) else None
      case None => None
    else if z < 0 then
      match s.links.back
      case Some(c) => if c in reg then ResolveCell(reg, reg[c], x, y, z + CHUNK_Z) else None
      case None => None
    else if z >= CHUNK_Z then
      match s.links.front
      case Some(c) => if c in reg then ResolveCell(reg, reg[c], x, y, z - CHUNK_Z) else None
      case None => None
    else At(s.blocks, x, y, z)
  }

  /** `blockExistsAndNotTransparentAt`: the cell reached holds a block whose kind is solid. */
  predicate SolidAt(reg: Registry, s: ChunkState, solid: Solidity, x: int, y: int, z: int)
    requires ValidRegistry(reg) && ValidState(s)
  {
    var c := ResolveCell(reg, s, x, y, z);
    c.Some? && solid(c.value)
  }

  /** `waterExistsAt`: the cell reached holds water. */
  predicate WaterAt(reg: Registry, s: ChunkState, x: int, y: int, z: int)
    requires ValidRegistry(reg) && ValidState(s)
  {
    ResolveCell(reg, s, x, y, z) == Some(WATER1)
  }

  // ---------------------------------------------------------------------
  // Face emission
  // ---------------------------------------------------------------------

  /** The position across face f; y grows downward, so the top neighbour is y - 1. */
  function Across(f: Face, x: int, y: int, z: int): (int, int, int)
  {
    match f
    case Top => (x, y - 1, z)
    case Bottom => (x, y + 1, z)
    case Front => (x, y, z + 1)
    case Back => (x, y, z - 1)
    case Left => (x - 1, y, z)
    case Right => (x + 1, y, z)
  }

  /** Iron, diamond and coal ore are always meshed with all six faces. */
  predicate AlwaysAllFaces(c: Cell)
  {
    c == Some(IRON_ORE) || c == Some(DIAMOND_ORE) || c == Some(COAL_ORE)
  }

  /** An opaque block's face is emitted unless a solid block lies across it; always-all-faces kinds emit every face. */
  predicate EmitsOpaqueFace(reg: Registry, s: ChunkState, solid: Solidity, f: Face, x: int, y: int, z: int)
    requires ValidRegistry(reg) && ValidState(s)
  {
    var (ax, ay, az) := Across(f, x, y, z);
    !SolidAt(reg, s, solid, ax, ay, az) || (InBounds(x, y, z) && AlwaysAllFaces(At(s.blocks, x, y, z)))
  }

  /** A water block's face is emitted unless water lies across it. */
  predicate EmitsWaterFace(reg: Registry, s: ChunkState, f: Face, x: int, y: int, z: int)
    requires ValidRegistry(reg) && ValidState(s)
  {
    var (ax, ay, az) := Across(f, x, y, z);
    !WaterAt(reg, s, ax, ay, az)
  }

  const LEAF_GREEN: Color := Color(0.3, 0.8, 0.3)
  const WHITE_COLOR: Color := Color(1.0, 1.0, 1.0)

  /** Leaves are tinted green, everything else is drawn white. */
  function ColorOf(b: Block): Color
  {
    if b == GREY_LEAVES then LEAF_GREEN else WHITE_COLOR
  }

  /** The atlas pixel offset used for face f: top and bottom have their own, the four sides share one. */
  function TextureOf(b: Block, f: Face): (int, int)
  {
    match f
    case Top => (TopX(b), TopY(b))
    case Bottom => (BottomX(b), BottomY(b))
    case _ => (SideX(b), SideY(b))
  }

  /** Where the chunk's origin lies in world space; cell (x, y, z) is drawn at (ox + x, oy - y, oz + z). */
  datatype Origin = Origin(ox: real, oy: real, oz: real)

  /** Face f of block b at cell (x, y, z): drawn at the cell's world position with the kind's tile and colour. */
  function FaceQuad(o: Origin, b: Block, f: Face, x: int, y: int, z: int): Quad
  {
    var (u, v) := TextureOf(b, f);
    Quad(f, o.ox + x as real, o.oy - y as real, o.oz + z as real, u as real, v as real, ColorOf(b))
  }

  /** Face f of block b at cell (x, y, z) when it is emitted, and nothing otherwise. */
  function FaceIf(emit: bool, o: Origin, b: Block, f: Face, x: int, y: int, z: int): (r: seq<Quad>)
    ensures |r| == if emit then 1 else 0
  {
    if emit then [FaceQuad(o, b, f, x, y, z)] else []
  }

  /** Which of a block's six faces are drawn. */
  datatype FaceFlags = FaceFlags(top: bool, bottom: bool, front: bool, back: bool, left: bool, right: bool)

  /** The faces a block emits, given which of them are drawn, in the order top, bottom, front, back, left, right. */
  function SixFaces(o: Origin, b: Block, x: int, y: int, z: int, d: FaceFlags): seq<Quad>
  {
    FaceIf(d.top, o, b, Top, x, y, z) + FaceIf(d.bottom, o, b, Bottom, x, y, z)
    + FaceIf(d.front, o, b, Front, x, y, z) + FaceIf(d.back, o, b, Back, x, y, z)
    + FaceIf(d.left, o, b, Left, x, y, z) + FaceIf(d.right, o, b, Right, x, y, z)
  }

  /** The faces an opaque block draws. */
  function OpaqueFlags(reg: Registry, s: ChunkState, solid: Solidity, x: int, y: int, z: int): FaceFlags
    requires ValidRegistry(reg) && ValidState(s)
  {
    FaceFlags(
      EmitsOpaqueFace(reg, s, solid, Top, x, y, z), EmitsOpaqueFace(reg, s, solid, Bottom, x, y, z),
      EmitsOpaqueFace(reg, s, solid, Front, x, y, z), EmitsOpaqueFace(reg, s, solid, Back, x, y, z),
      EmitsOpaqueFace(reg, s, solid, Left, x, y, z), EmitsOpaqueFace(reg, s, solid, Right, x, y, z))
  }

  /** The faces a water block draws. */
  function WaterFlags(reg: Registry, s: ChunkState, x: int, y: int, z: int): FaceFlags
    requires ValidRegistry(reg) && ValidState(s)
  {
    FaceFlags(
      EmitsWaterFace(reg, s, Top, x, y, z), EmitsWaterFace(reg, s, Bottom, x, y, z),
      EmitsWaterFace(reg, s, Front, x, y, z), EmitsWaterFace(reg, s, Back, x, y, z),
      EmitsWaterFace(reg, s, Left, x, y, z), EmitsWaterFace(reg, s, Right, x, y, z))
  }

  /** The faces of an opaque block. */
  function OpaqueCellFaces(reg: Registry, s: ChunkState, solid: Solidity, o: Origin, b: Block, x: int, y: int, z: int): seq<Quad>
    requires ValidRegistry(reg) && ValidState(s)
  {
    SixFaces(o, b, x, y, z, OpaqueFlags(reg, s, solid, x, y, z))
  }

  /** The faces of a water block. */
  function WaterCellFaces(reg: Registry, s: ChunkState, o: Origin, b: Block, x: int, y: int, z: int): seq<Quad>
    requires ValidRegistry(reg) && ValidState(s)
  {
    SixFaces(o, b, x, y, z, WaterFlags(reg, s, x, y, z))
  }

  /** The faces of a mesh, per buffer: opaque geometry (`solids`) and water geometry. */
  datatype Buffers = Buffers(solids: seq<Quad>, water: seq<Quad>)
  {
    function Then(b: Buffers): Buffers
    {
      Buffers(solids + b.solids, water + b.water)
    }
  }

  const NO_GEOMETRY: Buffers := Buffers([], [])

  /** What a block at (x, y, z) adds: nothing for an empty cell, water faces for water, opaque faces otherwise. */
  function BlockMesh(reg: Registry, s: ChunkState, solid: Solidity, o: Origin, block: Cell, x: int, y: int, z: int): Buffers
    requires ValidRegistry(reg) && ValidState(s)
  {
    match block
    case None => NO_GEOMETRY
    case Some(b) =>
      if b == WATER1 then Buffers([], WaterCellFaces(reg, s, o, b, x, y, z))
      else Buffers(OpaqueCellFaces(reg, s, solid, o, b, x, y, z), [])
  }

  /** What cell (x, y, z) adds, given the block stored there. */
  function CellMesh(reg: Registry, s: ChunkState, solid: Solidity, o: Origin, x: int, y: int, z: int): Buffers
    requires ValidRegistry(reg) && ValidState(s) && InBounds(x, y, z)
  {
    BlockMesh(reg, s, solid, o, At(s.blocks, x, y, z), x, y, z)
  }

  /** Cells z' < z of row x in layer y, in order. */
  function RowMesh(reg: Registry, s: ChunkState, solid: Solidity, o: Origin, y: int, x: int, z: int): Buffers
    requires ValidRegistry(reg) && ValidState(s)
    requires 0 <= y < CHUNK_Y && 0 <= x < CHUNK_X && 0 <= z <= CHUNK_Z
  {
    if z == 0 then NO_GEOMETRY
    else RowMesh(reg, s, solid, o, y, x, z - 1).Then(CellMesh(reg, s, solid, o, x, y, z - 1))
  }

  /** Rows x' < x of layer y, in order. */
  function LayerMesh(reg: Registry, s: ChunkState, solid: Solidity, o: Origin, y: int, x: int): Buffers
    requires ValidRegistry(reg) && ValidState(s)
    requires 0 <= y < CHUNK_Y && 0 <= x <= CHUNK_X
  {
    if x == 0 then NO_GEOMETRY
    else LayerMesh(reg, s, solid, o, y, x - 1).Then(RowMesh(reg, s, solid, o, y, x - 1, CHUNK_Z))
  }

  /**
   * Layers y' < y, in order: the mesher walks y outermost, then x, then z.
   * The full mesh is `Mesh(..., CHUNK_Y)`.
   */
  function Mesh(reg: Registry, s: ChunkState, solid: Solidity, o: Origin, y: int): Buffers
    requires ValidRegistry(reg) && ValidState(s)
    requires 0 <= y <= CHUNK_Y
  {
    if y == 0 then NO_GEOMETRY
    else Mesh(reg, s, solid, o, y - 1).Then(LayerMesh(reg, s, solid, o, y - 1, CHUNK_X))
  }
}
