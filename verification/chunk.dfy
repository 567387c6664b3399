/**
 * A chunk: a 16 x 256 x 16 block array, four lateral neighbour links, a
 * dirty flag, two decoration flags, and the two vertex buffers its mesh is
 * built into. Each operation is proved against the rules in ChunkSpec on
 * the chunk's observable state.
 */
module Chunks {
  import opened Wrappers
  import opened Blocks
  import opened ChunkGrid
  import opened FloatArrays
  import opened Vertex
  import opened ChunkSpec
  import opened MeshTable

  const INITIAL_CAPACITY: nat := 1024

  class Chunk {
    const blocks: array<Cell>
    var front: Option<ChunkCoordinate>
    var back: Option<ChunkCoordinate>
    var left: Option<ChunkCoordinate>
    var right: Option<ChunkCoordinate>
    var isDirty: bool
    var isOreDecorated: bool
    var treeDecorated: bool
    const xcoord: real
    const ycoord: real
    const zcoord: real
    const opaqueVertices: FloatArray<real>
    const waterVertices: FloatArray<real>
    var opaqueVertexCount: int
    var waterVertexCount: int

    /**
     * Object invariant: a full-size grid and two valid vertex buffers that
     * share no storage. (A buffer's footprint is itself and its backing
     * array, so it cannot include the chunk or the grid.)
     */
    ghost predicate Valid()
      reads this, blocks, opaqueVertices, waterVertices, opaqueVertices.Repr, waterVertices.Repr
    {
      && blocks.Length == VOLUME
      && opaqueVertices.Valid() && waterVertices.Valid()
      && opaqueVertices.Repr !! waterVertices.Repr
      && this !in opaqueVertices.Repr && this !in waterVertices.Repr
      && blocks !in opaqueVertices.Repr && blocks !in waterVertices.Repr
    }

    /** The chunk's observable state. */
    ghost function State(): (s: ChunkState)
      reads this, blocks
      requires blocks.Length == VOLUME
      ensures ValidState(s)
    {
      ChunkState(blocks[..], Links(front, back, left, right), isDirty, isOreDecorated, treeDecorated)
    }

    function Position(): Origin
    {
      Origin(xcoord, ycoord, zcoord)
    }

    /** A new chunk at the given world position: empty, unlinked, dirty, with empty buffers. */
    constructor (xpos: real, ypos: real, zpos: real)
      ensures Valid() && fresh(blocks) && fresh(opaqueVertices.Repr) && fresh(waterVertices.Repr)
      ensures State() == NewState() && Position() == Origin(xpos, ypos, zpos)
      ensures opaqueVertices.Contents() == [] && waterVertices.Contents() == []
    {
      blocks := new Cell[VOLUME](_ => None);
      xcoord, ycoord, zcoord := xpos, ypos, zpos;
      front, back, left, right := None, None, None, None;
      isDirty := true;
      isOreDecorated, treeDecorated := false, false;
      var o := new FloatArray<real>(INITIAL_CAPACITY);
      var w := new FloatArray<real>(INITIAL_CAPACITY);
      opaqueVertices, waterVertices := o, w;
      new;
      assert blocks[..] == EmptyGrid();
    }

    method GetBlockAt(x: int, y: int, z: int) returns (c: Cell)
      requires Valid()
      ensures c == ChunkSpec.GetBlockAt(State(), x, y, z)
    {
      if !InBounds(x, y, z) {
        return None;
      }
      c := blocks[Idx(x, y, z)];
    }

    /** A fresh array equal cell for cell to the grid. */
    method CopyBlockData() returns (copy: array<Cell>)
      requires Valid()
      ensures fresh(copy) && copy[..] == State().blocks
    {
      copy := new Cell[VOLUME](_ => None);
      var i := 0;
      while i < VOLUME
        invariant 0 <= i <= VOLUME
        invariant copy[..i] == blocks[..i]
      {
        copy[i] := blocks[i];
        i := i + 1;
      }
    }

    /** Whether the grid equals the given data, cell for cell. */
    method IsDataEqual(data: array<Cell>) returns (eq: bool)
      requires Valid() && data.Length == VOLUME
      ensures eq <==> data[..] == State().blocks
    {
      var i := 0;
      while i < VOLUME
        invariant 0 <= i <= VOLUME
        invariant blocks[..i] == data[..i]
      {
        if blocks[i] != data[i] {
          assert blocks[..][i] != data[..][i];
          return false;
        }
        i := i + 1;
      }
      assert blocks[..] == blocks[..VOLUME];
      assert data[..] == data[..VOLUME];
      return true;
    }

    /** Loads data into the grid; when it equals the current grid nothing changes, the dirty flag included. */
    method SetBlockData(data: array<Cell>)
      requires Valid() && data.Length == VOLUME
      modifies this, blocks
      ensures Valid()
      ensures State() == ChunkSpec.SetBlockData(old(State()), old(data[..]))
    {
      var same := IsDataEqual(data);
      if same {
        return;
      }
      ghost var incoming := data[..];
      var i := 0;
      while i < VOLUME
        invariant 0 <= i <= VOLUME
        invariant data != blocks && data[..] == incoming
        invariant blocks[..i] == incoming[..i]
        invariant blocks[i..] == old(blocks[..])[i..]
        modifies blocks
      {
        blocks[i] := data[i];
        i := i + 1;
      }
      assert blocks[..] == blocks[..VOLUME];
      isDirty := true;
    }

    method SetOreDecorated(decorated: bool)
      requires Valid()
      modifies this
      ensures Valid()
      ensures State() == old(State()).(oreDecorated := decorated)
    {
      isOreDecorated := decorated;
    }

    method SetTreeDecorated(decorated: bool)
      requires Valid()
      modifies this
      ensures Valid()
      ensures State() == old(State()).(treeDecorated := decorated)
    {
      treeDecorated := decorated;
    }

    /** Writes one cell and marks the chunk dirty; a position outside the chunk is ignored. */
    method SetBlockAt(x: int, y: int, z: int, block: Cell)
      requires Valid()
      modifies this, blocks
      ensures Valid()
      ensures State() == ChunkSpec.SetBlockAt(old(State()), x, y, z, block)
    {
      if !InBounds(x, y, z) {
        return;
      }
      blocks[Idx(x, y, z)] := block;
      isDirty := true;
    }

    /** Sets one link; only a non-null neighbour marks the chunk dirty. */
    method SetNeighbor(direction: Direction, neighbor: Option<ChunkCoordinate>)
      requires Valid()
      modifies this
      ensures Valid()
      ensures State() == ChunkSpec.SetNeighbor(old(State()), direction, neighbor)
    {
      match direction {
        case FORWARD => front := neighbor;
        case BACKWARD => back := neighbor;
        case LEFT => left := neighbor;
        case RIGHT => right := neighbor;
      }
      if neighbor.Some? {
        isDirty := true;
      }
    }

    // -------------------------------------------------------------------
    // Mesh building
    // -------------------------------------------------------------------

    /**
     * Solid-block lookup: false outside the vertical range; a position past
     * a lateral edge is answered by SolidAt on the linked neighbour's state
     * in the registry (false when the link is missing), as the program
     * delegates to that neighbour; otherwise the local cell decides.
     */
    method BlockExistsAndNotTransparentAt(reg: Registry, solid: Solidity, x: int, y: int, z: int) returns (r: bool)
      requires Valid() && ValidRegistry(reg)
      ensures r == SolidAt(reg, State(), solid, x, y, z)
    {
      if !(0 <= y < CHUNK_Y) {
        return false;
      }
      if x < 0 {
        return left.Some? && left.value in reg && SolidAt(reg, reg[left.value], solid, x + CHUNK_X, y, z);
      } else if x >= CHUNK_X {
        return right.Some? && right.value in reg && SolidAt(reg, reg[right.value], solid, x - CHUNK_X, y, z);
      }
      if z < 0 {
        return back.Some? && back.value in reg && SolidAt(reg, reg[back.value], solid, x, y, z + CHUNK_Z);
      } else if z >= CHUNK_Z {
        return front.Some? && front.value in reg && SolidAt(reg, reg[front.value], solid, x, y, z - CHUNK_Z);
      }
      var c := blocks[Idx(x, y, z)];
      r := c.Some? && solid(c.value);
    }

    /**
     * Water lookup, resolved the same way: a position past a lateral edge is
     * answered by WaterAt on the linked neighbour's state in the registry.
     */
    method WaterExistsAt(reg: Registry, x: int, y: int, z: int) returns (r: bool)
      requires Valid() && ValidRegistry(reg)
      ensures r == WaterAt(reg, State(), x, y, z)
    {
      if !(0 <= y < CHUNK_Y) {
        return false;
      }
      if x < 0 {
        return left.Some? && left.value in reg && WaterAt(reg, reg[left.value], x + CHUNK_X, y, z);
      } else if x >= CHUNK_X {
        return right.Some? && right.value in reg && WaterAt(reg, reg[right.value], x - CHUNK_X, y, z);
      }
      if z < 0 {
        return back.Some? && back.value in reg && WaterAt(reg, reg[back.value], x, y, z + CHUNK_Z);
      } else if z >= CHUNK_Z {
        return front.Some? && front.value in reg && WaterAt(reg, reg[front.value], x, y, z - CHUNK_Z);
      }
      r := blocks[Idx(x, y, z)] == Some(WATER1);
    }

    /** Whether the cell holds one of the kinds that are always drawn with all six faces. */
    method DebugBoolean(x: int, y: int, z: int) returns (r: bool)
      requires Valid()
      ensures r == (InBounds(x, y, z) && AlwaysAllFaces(At(State().blocks, x, y, z)))
    {
      r := InBounds(x, y, z) && AlwaysAllFaces(blocks[Idx(x, y, z)]);
    }

    /** Which faces of the opaque block at (x, y, z) are drawn: those with no solid block across, or all six for the always-drawn ores. */
    method OpaqueFaceFlags(reg: Registry, solid: Solidity, x: int, y: int, z: int) returns (d: FaceFlags)
      requires Valid() && ValidRegistry(reg)
      ensures d == OpaqueFlags(reg, State(), solid, x, y, z)
    {
      var debug := DebugBoolean(x, y, z);
      var coverTop := BlockExistsAndNotTransparentAt(reg, solid, x, y - 1, z);
      var coverBottom := BlockExistsAndNotTransparentAt(reg, solid, x, y + 1, z);
      var coverFront := BlockExistsAndNotTransparentAt(reg, solid, x, y, z + 1);
      var coverBack := BlockExistsAndNotTransparentAt(reg, solid, x, y, z - 1);
      var coverLeft := BlockExistsAndNotTransparentAt(reg, solid, x - 1, y, z);
      var coverRight := BlockExistsAndNotTransparentAt(reg, solid, x + 1, y, z);
      d := FaceFlags(!coverTop || debug, !coverBottom || debug, !coverFront || debug,
                     !coverBack || debug, !coverLeft || debug, !coverRight || debug);
    }

    /** Which faces of the water block at (x, y, z) are drawn: those with no water across. */
    method WaterFaceFlags(reg: Registry, x: int, y: int, z: int) returns (d: FaceFlags)
      requires Valid() && ValidRegistry(reg)
      ensures d == WaterFlags(reg, State(), x, y, z)
    {
      var wetTop := WaterExistsAt(reg, x, y - 1, z);
      var wetBottom := WaterExistsAt(reg, x, y + 1, z);
      var wetFront := WaterExistsAt(reg, x, y, z + 1);
      var wetBack := WaterExistsAt(reg, x, y, z - 1);
      var wetLeft := WaterExistsAt(reg, x - 1, y, z);
      var wetRight := WaterExistsAt(reg, x + 1, y, z);
      d := FaceFlags(!wetTop, !wetBottom, !wetFront, !wetBack, !wetLeft, !wetRight);
    }

    /**
     * Appends the opaque block's emitted faces, in the order top, bottom,
     * front, back, left, right. The neighbour queries read only blocks and
     * links, so they are all made before the buffer grows.
     */
    method AddOpaqueBlockFaces(reg: Registry, solid: Solidity, x: int, y: int, z: int, block: Block)
      requires Valid() && ValidRegistry(reg)
      modifies opaqueVertices.Repr
      ensures Valid() && State() == old(State()) && fresh(opaqueVertices.Repr - old(opaqueVertices.Repr))
      ensures opaqueVertices.Contents()
           == old(opaqueVertices.Contents()) + Flatten(OpaqueCellFaces(reg, State(), solid, Position(), block, x, y, z))
    {
      var d := OpaqueFaceFlags(reg, solid, x, y, z);
      AddSixFaces(opaqueVertices, Position(), block, x, y, z, d);
    }

    /** Appends the water block's emitted faces, in the same order. */
    method AddWaterBlockToMesh(reg: Registry, x: int, y: int, z: int, block: Block)
      requires Valid() && ValidRegistry(reg)
      modifies waterVertices.Repr
      ensures Valid() && State() == old(State()) && fresh(waterVertices.Repr - old(waterVertices.Repr))
      ensures waterVertices.Contents()
           == old(waterVertices.Contents()) + Flatten(WaterCellFaces(reg, State(), Position(), block, x, y, z))
    {
      var d := WaterFaceFlags(reg, x, y, z);
      AddSixFaces(waterVertices, Position(), block, x, y, z, d);
    }

    /** Adds one block to the mesh: nothing for an empty cell, water faces for water, opaque faces otherwise. */
    method AddBlockToMesh(reg: Registry, solid: Solidity, x: int, y: int, z: int, block: Cell)
      requires Valid() && ValidRegistry(reg)
      modifies opaqueVertices.Repr, waterVertices.Repr
      ensures Valid() && State() == old(State())
      ensures fresh(opaqueVertices.Repr - old(opaqueVertices.Repr)) && fresh(waterVertices.Repr - old(waterVertices.Repr))
      ensures opaqueVertices.Contents() == old(opaqueVertices.Contents()) + Flatten(BlockMesh(reg, State(), solid, Position(), block, x, y, z).solids)
      ensures waterVertices.Contents() == old(waterVertices.Contents()) + Flatten(BlockMesh(reg, State(), solid, Position(), block, x, y, z).water)
    {
      if block == None {
        FlattenEmpty(old(opaqueVertices.Contents()));
        FlattenEmpty(old(waterVertices.Contents()));
        return;
      }
      var b := block.value;
      if b == WATER1 {
        AddWaterBlockToMesh(reg, x, y, z, b);
        FlattenEmpty(old(opaqueVertices.Contents()));
      } else {
        AddOpaqueBlockFaces(reg, solid, x, y, z, b);
        FlattenEmpty(old(waterVertices.Contents()));
      }
    }

    /**
     * Rebuilds both buffers when the chunk is dirty: clears them, walks every
     * cell (y outermost, then x, then z), records the vertex counts and clears
     * the dirty flag. A clean chunk is left as it is.
     */
    method BuildMesh(reg: Registry, solid: Solidity)
      requires Valid() && ValidRegistry(reg)
      modifies this, opaqueVertices.Repr, waterVertices.Repr
      ensures Valid()
      ensures !old(isDirty) ==>
                && State() == old(State())
                && opaqueVertices.Contents() == old(opaqueVertices.Contents())
                && waterVertices.Contents() == old(waterVertices.Contents())
                && opaqueVertexCount == old(opaqueVertexCount) && waterVertexCount == old(waterVertexCount)
      ensures old(isDirty) ==>
                && State() == old(State()).(dirty := false)
                && opaqueVertices.Contents() == Flatten(Mesh(reg, old(State()), solid, Position(), CHUNK_Y).solids)
                && waterVertices.Contents() == Flatten(Mesh(reg, old(State()), solid, Position(), CHUNK_Y).water)
                && opaqueVertexCount == |opaqueVertices.Contents()| / FLOATS_PER_VERTEX
                && waterVertexCount == |waterVertices.Contents()| / FLOATS_PER_VERTEX
    {
      if !isDirty {
        return;
      }
      ghost var s := State();
      ghost var o := Position();
      opaqueVertices.Clear();
      waterVertices.Clear();
      ghost var t := CellTable(reg, s, solid, o);
      CellTableTabulates(reg, s, solid, o);

      MeshLayers(reg, solid, t);
      MeshFloatsFlatten(reg, s, solid, o, t, [], false, CHUNK_Y);
      MeshFloatsFlatten(reg, s, solid, o, t, [], true, CHUNK_Y);
      FinishMesh();
    }

    /** The tail of the mesher: records each buffer's vertex count and marks the chunk clean. */
    method FinishMesh()
      requires Valid()
      modifies this
      ensures Valid() && State() == old(State()).(dirty := false)
      ensures opaqueVertices.Contents() == old(opaqueVertices.Contents()) && waterVertices.Contents() == old(waterVertices.Contents())
      ensures opaqueVertexCount == |opaqueVertices.Contents()| / FLOATS_PER_VERTEX
      ensures waterVertexCount == |waterVertices.Contents()| / FLOATS_PER_VERTEX
    {
      var n := opaqueVertices.Size();
      opaqueVertexCount := n / FLOATS_PER_VERTEX;
      n := waterVertices.Size();
      waterVertexCount := n / FLOATS_PER_VERTEX;
      isDirty := false;
    }

    /** The outer loop of the mesher: adds the layers of the chunk, y ascending. */
    method MeshLayers(reg: Registry, solid: Solidity, ghost t: seq<Geometry>)
      requires Valid() && ValidRegistry(reg)
      requires Tabulates(reg, State(), solid, Position(), t)
      modifies opaqueVertices.Repr, waterVertices.Repr
      ensures Valid() && State() == old(State())
      ensures fresh(opaqueVertices.Repr - old(opaqueVertices.Repr)) && fresh(waterVertices.Repr - old(waterVertices.Repr))
      ensures opaqueVertices.Contents() == MeshFloats(old(opaqueVertices.Contents()), t, false, CHUNK_Y)
      ensures waterVertices.Contents() == MeshFloats(old(waterVertices.Contents()), t, true, CHUNK_Y)
    {
      ghost var s := State();
      var y := 0;
      while y < CHUNK_Y
        invariant 0 <= y <= CHUNK_Y
        invariant fresh(opaqueVertices.Repr - old(opaqueVertices.Repr)) && fresh(waterVertices.Repr - old(waterVertices.Repr))
        invariant Valid() && State() == s
        invariant opaqueVertices.Contents() == MeshFloats(old(opaqueVertices.Contents()), t, false, y)
        invariant waterVertices.Contents() == MeshFloats(old(waterVertices.Contents()), t, true, y)
      {
        MeshLayer(reg, solid, y, t);
        y := y + 1;
      }
    }

    /** The middle loop of the mesher: adds the rows of layer y, x ascending. */
    method MeshLayer(reg: Registry, solid: Solidity, y: int, ghost t: seq<Geometry>)
      requires Valid() && ValidRegistry(reg) && 0 <= y < CHUNK_Y
      requires Tabulates(reg, State(), solid, Position(), t)
      modifies opaqueVertices.Repr, waterVertices.Repr
      ensures Valid() && State() == old(State())
      ensures fresh(opaqueVertices.Repr - old(opaqueVertices.Repr)) && fresh(waterVertices.Repr - old(waterVertices.Repr))
      ensures opaqueVertices.Contents() == LayerFloats(old(opaqueVertices.Contents()), t, false, y, CHUNK_X)
      ensures waterVertices.Contents() == LayerFloats(old(waterVertices.Contents()), t, true, y, CHUNK_X)
    {
      ghost var s := State();
      var x := 0;
      while x < CHUNK_X
        invariant 0 <= x <= CHUNK_X
        invariant fresh(opaqueVertices.Repr - old(opaqueVertices.Repr)) && fresh(waterVertices.Repr - old(waterVertices.Repr))
        invariant Valid() && State() == s
        invariant opaqueVertices.Contents() == LayerFloats(old(opaqueVertices.Contents()), t, false, y, x)
        invariant waterVertices.Contents() == LayerFloats(old(waterVertices.Contents()), t, true, y, x)
      {
        MeshRow(reg, solid, y, x, t);
        x := x + 1;
      }
    }

    /** The innermost loop of the mesher: adds the cells of row x in layer y, z ascending. */
    method MeshRow(reg: Registry, solid: Solidity, y: int, x: int, ghost t: seq<Geometry>)
      requires Valid() && ValidRegistry(reg) && 0 <= y < CHUNK_Y && 0 <= x < CHUNK_X
      requires Tabulates(reg, State(), solid, Position(), t)
      modifies opaqueVertices.Repr, waterVertices.Repr
      ensures Valid() && State() == old(State())
      ensures fresh(opaqueVertices.Repr - old(opaqueVertices.Repr)) && fresh(waterVertices.Repr - old(waterVertices.Repr))
      ensures opaqueVertices.Contents() == RowFloats(old(opaqueVertices.Contents()), t, false, y, x, CHUNK_Z)
      ensures waterVertices.Contents() == RowFloats(old(waterVertices.Contents()), t, true, y, x, CHUNK_Z)
    {
      ghost var s := State();
      var z := 0;
      while z < CHUNK_Z
        invariant 0 <= z <= CHUNK_Z
        invariant fresh(opaqueVertices.Repr - old(opaqueVertices.Repr)) && fresh(waterVertices.Repr - old(waterVertices.Repr))
        invariant Valid() && State() == s
        invariant opaqueVertices.Contents() == RowFloats(old(opaqueVertices.Contents()), t, false, y, x, z)
        invariant waterVertices.Contents() == RowFloats(old(waterVertices.Contents()), t, true, y, x, z)
      {
        MeshCell(reg, solid, x, y, z, t);
        z := z + 1;
      }
    }

    /** The body of the innermost loop: adds cell (x, y, z), whose values the table holds. */
    method MeshCell(reg: Registry, solid: Solidity, x: int, y: int, z: int, ghost t: seq<Geometry>)
      requires Valid() && ValidRegistry(reg) && InBounds(x, y, z)
      requires Tabulates(reg, State(), solid, Position(), t)
      modifies opaqueVertices.Repr, waterVertices.Repr
      ensures Valid() && State() == old(State())
      ensures fresh(opaqueVertices.Repr - old(opaqueVertices.Repr)) && fresh(waterVertices.Repr - old(waterVertices.Repr))
      ensures opaqueVertices.Contents() == old(opaqueVertices.Contents()) + t[Idx(x, y, z)].solids
      ensures waterVertices.Contents() == old(waterVertices.Contents()) + t[Idx(x, y, z)].water
    {
      AddBlockToMesh(reg, solid, x, y, z, blocks[Idx(x, y, z)]);
      assert CellMesh(reg, State(), solid, Position(), x, y, z)
          == BlockMesh(reg, State(), solid, Position(), blocks[Idx(x, y, z)], x, y, z);
    }
  }

  /** Appends the six faces of the block at (x, y, z) that are to be drawn, top to right. */
  method AddSixFaces(vertices: FloatArray<real>, o: Origin, block: Block, x: int, y: int, z: int, d: FaceFlags)
    requires vertices.Valid()
    modifies vertices.Repr
    ensures vertices.Valid() && fresh(vertices.Repr - old(vertices.Repr))
    ensures vertices.Contents()
         == old(vertices.Contents()) + Flatten(SixFaces(o, block, x, y, z, d))
  {
    ghost var before := vertices.Contents();
    AddThreeFaces(vertices, o, block, x, y, z, Top, d.top, Bottom, d.bottom, Front, d.front);
    AddThreeFaces(vertices, o, block, x, y, z, Back, d.back, Left, d.left, Right, d.right);
    SixFacesFlat(before, o, block, x, y, z, d);
  }

  /** The flattened six faces are the six flattened faces, appended one after another. */
  lemma SixFacesFlat(before: seq<real>, o: Origin, block: Block, x: int, y: int, z: int, d: FaceFlags)
    ensures before + Flatten(SixFaces(o, block, x, y, z, d))
         == before + Flatten(FaceIf(d.top, o, block, Top, x, y, z)) + Flatten(FaceIf(d.bottom, o, block, Bottom, x, y, z))
            + Flatten(FaceIf(d.front, o, block, Front, x, y, z)) + Flatten(FaceIf(d.back, o, block, Back, x, y, z))
            + Flatten(FaceIf(d.left, o, block, Left, x, y, z)) + Flatten(FaceIf(d.right, o, block, Right, x, y, z))
  {
    var top, bottom := FaceIf(d.top, o, block, Top, x, y, z), FaceIf(d.bottom, o, block, Bottom, x, y, z);
    var front, back := FaceIf(d.front, o, block, Front, x, y, z), FaceIf(d.back, o, block, Back, x, y, z);
    var left, right := FaceIf(d.left, o, block, Left, x, y, z), FaceIf(d.right, o, block, Right, x, y, z);
    FlattenStep(before, top, bottom);
    FlattenStep(before, top + bottom, front);
    FlattenStep(before, top + bottom + front, back);
    FlattenStep(before, top + bottom + front + back, left);
    FlattenStep(before, top + bottom + front + back + left, right);
  }

  /** Appends three faces of the block at (x, y, z), each when it is emitted. */
  method AddThreeFaces(vertices: FloatArray<real>, o: Origin, block: Block, x: int, y: int, z: int,
                       f1: Face, e1: bool, f2: Face, e2: bool, f3: Face, e3: bool)
    requires vertices.Valid()
    modifies vertices.Repr
    ensures vertices.Valid() && fresh(vertices.Repr - old(vertices.Repr))
    ensures vertices.Contents()
         == old(vertices.Contents()) + Flatten(FaceIf(e1, o, block, f1, x, y, z))
            + Flatten(FaceIf(e2, o, block, f2, x, y, z)) + Flatten(FaceIf(e3, o, block, f3, x, y, z))
  {
    AddFaceIf(vertices, e1, o, block, f1, x, y, z);
    AddFaceIf(vertices, e2, o, block, f2, x, y, z);
    AddFaceIf(vertices, e3, o, block, f3, x, y, z);
  }

  /** Appends face f of the block at (x, y, z) when it is emitted. */
  method AddFaceIf(vertices: FloatArray<real>, emit: bool, o: Origin, block: Block, f: Face, x: int, y: int, z: int)
    requires vertices.Valid()
    modifies vertices.Repr
    ensures vertices.Valid() && fresh(vertices.Repr - old(vertices.Repr))
    ensures vertices.Contents() == old(vertices.Contents()) + Flatten(FaceIf(emit, o, block, f, x, y, z))
  {
    if emit {
      EmitQuad(vertices, FaceQuad(o, block, f, x, y, z));
    } else {
      FlattenEmpty(old(vertices.Contents()));
    }
  }

  /** Appends one face through the vertex-buffer call for its side of the cube. */
  method EmitQuad(vertices: FloatArray<real>, q: Quad)
    requires vertices.Valid()
    modifies vertices.Repr
    ensures vertices.Valid() && fresh(vertices.Repr - old(vertices.Repr))
    ensures vertices.Contents() == old(vertices.Contents()) + Flatten([q])
  {
    match q.face {
      case Top => AddNormalTopFaceWithTexture(vertices, q.x, q.y, q.z, q.u, q.v, q.color);
      case Bottom => AddNormalBottomFaceWithTexture(vertices, q.x, q.y, q.z, q.u, q.v, q.color);
      case Front => AddNormalFrontFaceWithTexture(vertices, q.x, q.y, q.z, q.u, q.v, q.color);
      case Back => AddNormalBackFaceWithTexture(vertices, q.x, q.y, q.z, q.u, q.v, q.color);
      case Left => AddNormalLeftFaceWithTexture(vertices, q.x, q.y, q.z, q.u, q.v, q.color);
      case Right => AddNormalRightFaceWithTexture(vertices, q.x, q.y, q.z, q.u, q.v, q.color);
    }
    FlattenOne(old(vertices.Contents()), q);
  }

  lemma FlattenOne(before: seq<real>, q: Quad)
    ensures before + QuadFloats(q) == before + Flatten([q])
  {
    FlatMapOne(QuadFloats, q);
  }

  lemma FlattenEmpty(before: seq<real>)
    ensures before == before + Flatten([])
  {
    FlatMapEmpty(QuadFloats, before);
  }

  /** Appending one more group of faces keeps the buffer equal to the flattened faces so far. */
  lemma FlattenStep(before: seq<real>, emitted: seq<Quad>, more: seq<Quad>)
    ensures before + Flatten(emitted) + Flatten(more) == before + Flatten(emitted + more)
  {
    FlatMapStep(QuadFloats, before, emitted, more);
  }

  lemma FlatMapOne<T>(g: T -> seq<real>, t: T)
    ensures FlatMap(g, [t]) == g(t)
  {
    assert [t][..0] == [];
  }

  lemma FlatMapEmpty<T>(g: T -> seq<real>, before: seq<real>)
    ensures before == before + FlatMap(g, [])
  {
    assert before + [] == before;
  }

  lemma FlatMapStep<T>(g: T -> seq<real>, before: seq<real>, emitted: seq<T>, more: seq<T>)
    ensures before + FlatMap(g, emitted) + FlatMap(g, more) == before + FlatMap(g, emitted + more)
  {
    FlatMapAppend(g, emitted, more);
    assert before + FlatMap(g, emitted) + FlatMap(g, more) == before + (FlatMap(g, emitted) + FlatMap(g, more));
  }
}
