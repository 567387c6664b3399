/**
 * The mesher's three nested loops are proved against a table that holds,
 * for every cell, the values that cell contributes to each vertex buffer.
 * `Tabulates` pins the table to `CellMesh`; the `...Floats` functions read
 * the concatenation of table entries in the mesher's order, and the
 * `...Flatten` lemmas show that this concatenation is the flattened `Mesh`.
 */
module MeshTable {
  import opened Blocks
  import opened ChunkGrid
  import opened Vertex
  import opened ChunkSpec

  /** The values one cell adds to the opaque buffer and to the water buffer. */
  datatype Geometry = Geometry(solids: seq<real>, water: seq<real>)

  /** One buffer's share: the water values when `water`, the opaque ones otherwise. */
  function Part(g: Geometry, water: bool): seq<real>
  {
    if water then g.water else g.solids
  }

  /** One buffer of a mesh, as faces. */
  function Faces(b: Buffers, water: bool): seq<Quad>
  {
    if water then b.water else b.solids
  }

  /** The flattened geometry of cell (x, y, z). */
  ghost function CellGeometry(reg: Registry, s: ChunkState, solid: Solidity, o: Origin, x: int, y: int, z: int): Geometry
    requires ValidRegistry(reg) && ValidState(s) && InBounds(x, y, z)
  {
    var m := CellMesh(reg, s, solid, o, x, y, z);
    Geometry(Flatten(m.solids), Flatten(m.water))
  }

  /** Entry Idx(x, y, z) of `t` is the flattened geometry of cell (x, y, z). */
  ghost predicate Tabulates(reg: Registry, s: ChunkState, solid: Solidity, o: Origin, t: seq<Geometry>)
    requires ValidRegistry(reg) && ValidState(s)
  {
    && |t| == VOLUME
    && forall x, y, z {:trigger CellMesh(reg, s, solid, o, x, y, z)} :: InBounds(x, y, z) ==>
         t[Idx(x, y, z)] == CellGeometry(reg, s, solid, o, x, y, z)
  }

  /** The table of a chunk, indexed like its grid. */
  ghost function CellTable(reg: Registry, s: ChunkState, solid: Solidity, o: Origin): (t: seq<Geometry>)
    requires ValidRegistry(reg) && ValidState(s)
    ensures |t| == VOLUME
  {
    seq(VOLUME, i requires 0 <= i < VOLUME => var c := CellOf(i); CellGeometry(reg, s, solid, o, c.0, c.1, c.2))
  }

  lemma CellTableTabulates(reg: Registry, s: ChunkState, solid: Solidity, o: Origin)
    requires ValidRegistry(reg) && ValidState(s)
    ensures Tabulates(reg, s, solid, o, CellTable(reg, s, solid, o))
  {
    var t := CellTable(reg, s, solid, o);
    forall x, y, z | InBounds(x, y, z)
      ensures t[Idx(x, y, z)] == CellGeometry(reg, s, solid, o, x, y, z)
    {
      var c := CellOf(Idx(x, y, z));
      IdxInjective(x, y, z, c.0, c.1, c.2);
    }
  }

  /** `pre` followed by the entries of cells z' < z of row x in layer y, in order. */
  function RowFloats(pre: seq<real>, t: seq<Geometry>, water: bool, y: int, x: int, z: int): seq<real>
    requires |t| == VOLUME && 0 <= y < CHUNK_Y && 0 <= x < CHUNK_X && 0 <= z <= CHUNK_Z
  {
    if z == 0 then pre else RowFloats(pre, t, water, y, x, z - 1) + Part(t[Idx(x, y, z - 1)], water)
  }

  /** `pre` followed by the entries of rows x' < x of layer y, in order. */
  function LayerFloats(pre: seq<real>, t: seq<Geometry>, water: bool, y: int, x: int): seq<real>
    requires |t| == VOLUME && 0 <= y < CHUNK_Y && 0 <= x <= CHUNK_X
  {
    if x == 0 then pre else RowFloats(LayerFloats(pre, t, water, y, x - 1), t, water, y, x - 1, CHUNK_Z)
  }

  /** `pre` followed by the entries of layers y' < y, in order. */
  function MeshFloats(pre: seq<real>, t: seq<Geometry>, water: bool, y: int): seq<real>
    requires |t| == VOLUME && 0 <= y <= CHUNK_Y
  {
    if y == 0 then pre else LayerFloats(MeshFloats(pre, t, water, y - 1), t, water, y - 1, CHUNK_X)
  }

  lemma FacesThen(a: Buffers, b: Buffers, water: bool)
    ensures Flatten(Faces(a.Then(b), water)) == Flatten(Faces(a, water)) + Flatten(Faces(b, water))
  {
    FlattenAppend(Faces(a, water), Faces(b, water));
  }

  lemma {:induction false} RowFloatsFlatten(reg: Registry, s: ChunkState, solid: Solidity, o: Origin, t: seq<Geometry>,
                                             pre: seq<real>, water: bool, y: int, x: int, z: int)
    requires ValidRegistry(reg) && ValidState(s) && Tabulates(reg, s, solid, o, t)
    requires 0 <= y < CHUNK_Y && 0 <= x < CHUNK_X && 0 <= z <= CHUNK_Z
    ensures RowFloats(pre, t, water, y, x, z) == pre + Flatten(Faces(RowMesh(reg, s, solid, o, y, x, z), water))
    decreases z
  {
    if z == 0 {
      assert pre + Flatten([]) == pre;
    } else {
      var before := RowMesh(reg, s, solid, o, y, x, z - 1);
      var cell := CellMesh(reg, s, solid, o, x, y, z - 1);
      calc {
        pre + Flatten(Faces(RowMesh(reg, s, solid, o, y, x, z), water));
        { FacesThen(before, cell, water); }
        pre + (Flatten(Faces(before, water)) + Flatten(Faces(cell, water)));
        { AppendAssoc(pre, Flatten(Faces(before, water)), Flatten(Faces(cell, water))); }
        pre + Flatten(Faces(before, water)) + Flatten(Faces(cell, water));
        { RowFloatsFlatten(reg, s, solid, o, t, pre, water, y, x, z - 1); }
        RowFloats(pre, t, water, y, x, z - 1) + Part(t[Idx(x, y, z - 1)], water);
      }
    }
  }

  lemma {:induction false} LayerFloatsFlatten(reg: Registry, s: ChunkState, solid: Solidity, o: Origin, t: seq<Geometry>,
                                               pre: seq<real>, water: bool, y: int, x: int)
    requires ValidRegistry(reg) && ValidState(s) && Tabulates(reg, s, solid, o, t)
    requires 0 <= y < CHUNK_Y && 0 <= x <= CHUNK_X
    ensures LayerFloats(pre, t, water, y, x) == pre + Flatten(Faces(LayerMesh(reg, s, solid, o, y, x), water))
    decreases x
  {
    if x == 0 {
      assert pre + Flatten([]) == pre;
    } else {
      var before := LayerMesh(reg, s, solid, o, y, x - 1);
      var row := RowMesh(reg, s, solid, o, y, x - 1, CHUNK_Z);
      var mid := LayerFloats(pre, t, water, y, x - 1);
      calc {
        pre + Flatten(Faces(LayerMesh(reg, s, solid, o, y, x), water));
        { FacesThen(before, row, water); }
        pre + (Flatten(Faces(before, water)) + Flatten(Faces(row, water)));
        { AppendAssoc(pre, Flatten(Faces(before, water)), Flatten(Faces(row, water))); }
        pre + Flatten(Faces(before, water)) + Flatten(Faces(row, water));
        { LayerFloatsFlatten(reg, s, solid, o, t, pre, water, y, x - 1); }
        mid + Flatten(Faces(row, water));
        { RowFloatsFlatten(reg, s, solid, o, t, mid, water, y, x - 1, CHUNK_Z); }
        RowFloats(mid, t, water, y, x - 1, CHUNK_Z);
      }
    }
  }

  /** The table walked in the mesher's order, after `pre`, is `pre` followed by the flattened mesh. */
  lemma {:induction false} MeshFloatsFlatten(reg: Registry, s: ChunkState, solid: Solidity, o: Origin, t: seq<Geometry>,
                                              pre: seq<real>, water: bool, y: int)
    requires ValidRegistry(reg) && ValidState(s) && Tabulates(reg, s, solid, o, t)
    requires 0 <= y <= CHUNK_Y
    ensures MeshFloats(pre, t, water, y) == pre + Flatten(Faces(Mesh(reg, s, solid, o, y), water))
    decreases y
  {
    if y == 0 {
      assert pre + Flatten([]) == pre;
    } else {
      var before := Mesh(reg, s, solid, o, y - 1);
      var layer := LayerMesh(reg, s, solid, o, y - 1, CHUNK_X);
      var mid := MeshFloats(pre, t, water, y - 1);
      calc {
        pre + Flatten(Faces(Mesh(reg, s, solid, o, y), water));
        { FacesThen(before, layer, water); }
        pre + (Flatten(Faces(before, water)) + Flatten(Faces(layer, water)));
        { AppendAssoc(pre, Flatten(Faces(before, water)), Flatten(Faces(layer, water))); }
        pre + Flatten(Faces(before, water)) + Flatten(Faces(layer, water));
        { MeshFloatsFlatten(reg, s, solid, o, t, pre, water, y - 1); }
        mid + Flatten(Faces(layer, water));
        { LayerFloatsFlatten(reg, s, solid, o, t, mid, water, y - 1, CHUNK_X); }
        LayerFloats(mid, t, water, y - 1, CHUNK_X);
      }
    }
  }

  lemma AppendAssoc(a: seq<real>, b: seq<real>, c: seq<real>)
    ensures a + b + c == a + (b + c)
  {
  }
}
