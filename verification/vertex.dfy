/**
 * Appending textured unit-cube faces to a vertex buffer. Each face is a
 * quad given by four corners, sent as two triangles (corners 0, 1, 2 and
 * 2, 3, 0); each vertex is eight values: x, y, z, u, v and the three colour
 * components. Coordinates are exact reals here.
 */
module Vertex {
  import opened FloatArrays

  const ATLAS: real := 256.0
  const NORMAL_TILE: real := 16.0
  const NORMAL_FACE_OFFSET: real := 0.5
  const FLOATS_PER_VERTEX: int := 8
  const FLOATS_PER_FACE: int := 48

  datatype Color = Color(r: real, g: real, b: real)

  /** One quad corner: position and texture coordinate. */
  datatype Corner = Corner(x: real, y: real, z: real, u: real, v: real)

  datatype Face = Top | Bottom | Front | Back | Left | Right

  /** The eight values of one vertex, in buffer order. */
  function VertexValues(c: Corner, color: Color): seq<real>
  {
    [c.x, c.y, c.z, c.u, c.v, color.r, color.g, color.b]
  }

  /** The order in which a quad's corners are sent: the triangles (0, 1, 2) and (2, 3, 0). */
  const TRIANGLE_ORDER: seq<nat> := [0, 1, 2, 2, 3, 0]

  /** The values of the corners picked by order, one vertex after another. */
  function VertexRun(c: seq<Corner>, order: seq<nat>, color: Color): seq<real>
    requires forall i :: 0 <= i < |order| ==> order[i] < |c|
  {
    if order == [] then [] else VertexValues(c[order[0]], color) + VertexRun(c, order[1..], color)
  }

  /** The four corners are emitted as the triangles (0, 1, 2) and (2, 3, 0). */
  function QuadValues(c: seq<Corner>, color: Color): seq<real>
    requires |c| == 4
  {
    VertexRun(c, TRIANGLE_ORDER, color)
  }

  /** The quad's values written out vertex by vertex. */
  lemma QuadValuesUnrolled(c: seq<Corner>, color: Color)
    requires |c| == 4
    ensures QuadValues(c, color)
         == VertexValues(c[0], color) + (VertexValues(c[1], color) + (VertexValues(c[2], color)
            + (VertexValues(c[2], color) + (VertexValues(c[3], color) + (VertexValues(c[0], color) + [])))))
  {
    var o := TRIANGLE_ORDER;
    assert o[1..] == [1, 2, 2, 3, 0] && o[2..] == [2, 2, 3, 0] && o[3..] == [2, 3, 0];
    assert o[4..] == [3, 0] && o[5..] == [0] && o[6..] == [];
    assert VertexRun(c, o[5..], color) == VertexValues(c[0], color) + VertexRun(c, o[6..], color);
    assert VertexRun(c, o[4..], color) == VertexValues(c[3], color) + VertexRun(c, o[5..], color);
    assert VertexRun(c, o[3..], color) == VertexValues(c[2], color) + VertexRun(c, o[4..], color);
    assert VertexRun(c, o[2..], color) == VertexValues(c[2], color) + VertexRun(c, o[3..], color);
    assert VertexRun(c, o[1..], color) == VertexValues(c[1], color) + VertexRun(c, o[2..], color);
  }

  /** The texture tile whose top-left pixel is (u, v), as atlas fractions. */
  datatype Tile = Tile(u0: real, u1: real, v0: real, v1: real)

  function TileOf(u: real, v: real): Tile
  {
    Tile(u / ATLAS, (u + NORMAL_TILE) / ATLAS, v / ATLAS, (v + NORMAL_TILE) / ATLAS)
  }

  /** The four corners of each face of the unit cube centred on (x, y, z), with their texture coordinates. */
  function Corners(f: Face, x: real, y: real, z: real, u: real, v: real): (c: seq<Corner>)
    ensures |c| == 4
  {
    var t := TileOf(u, v);
    var lo, hi := -NORMAL_FACE_OFFSET, NORMAL_FACE_OFFSET;
    match f
    case Top =>
      [Corner(x + lo, y + hi, z + lo, t.u0, t.v0), Corner(x + hi, y + hi, z + lo, t.u1, t.v0),
       Corner(x + hi, y + hi, z + hi, t.u1, t.v1), Corner(x + lo, y + hi, z + hi, t.u0, t.v1)]
    case Bottom =>
      [Corner(x + lo, y + lo, z + lo, t.u0, t.v0), Corner(x + hi, y + lo, z + lo, t.u1, t.v0),
       Corner(x + hi, y + lo, z + hi, t.u1, t.v1), Corner(x + lo, y + lo, z + hi, t.u0, t.v1)]
    case Front =>
      [Corner(x + lo, y + lo, z + hi, t.u0, t.v1), Corner(x + hi, y + lo, z + hi, t.u1, t.v1),
       Corner(x + hi, y + hi, z + hi, t.u1, t.v0), Corner(x + lo, y + hi, z + hi, t.u0, t.v0)]
    case Back =>
      [Corner(x + lo, y + lo, z + lo, t.u1, t.v1), Corner(x + hi, y + lo, z + lo, t.u0, t.v1),
       Corner(x + hi, y + hi, z + lo, t.u0, t.v0), Corner(x + lo, y + hi, z + lo, t.u1, t.v0)]
    case Left =>
      [Corner(x + lo, y + lo, z + lo, t.u0, t.v1), Corner(x + lo, y + lo, z + hi, t.u1, t.v1),
       Corner(x + lo, y + hi, z + hi, t.u1, t.v0), Corner(x + lo, y + hi, z + lo, t.u0, t.v0)]
    case Right =>
      [Corner(x + hi, y + lo, z + hi, t.u1, t.v1), Corner(x + hi, y + lo, z + lo, t.u0, t.v1),
       Corner(x + hi, y + hi, z + lo, t.u0, t.v0), Corner(x + hi, y + hi, z + hi, t.u1, t.v0)]
  }

  /** The 48 values one face appends. */
  function FaceValues(f: Face, x: real, y: real, z: real, u: real, v: real, color: Color): seq<real>
  {
    QuadValues(Corners(f, x, y, z, u, v), color)
  }

  /** The coordinate a corner has along the axis the face is perpendicular to. */
  function AxisCoord(f: Face, c: Corner): real
  {
    match f
    case Top => c.y
    case Bottom => c.y
    case Front => c.z
    case Back => c.z
    case Left => c.x
    case Right => c.x
  }

  /** Where that axis coordinate lies: half a unit from the centre, on the face's side. */
  function PlaneOf(f: Face, x: real, y: real, z: real): real
  {
    match f
    case Top => y + 0.5
    case Bottom => y - 0.5
    case Front => z + 0.5
    case Back => z - 0.5
    case Left => x - 0.5
    case Right => x + 0.5
  }

  /** The two in-plane coordinates of a corner, relative to the cube centre. */
  function InPlane(f: Face, c: Corner, x: real, y: real, z: real): (real, real)
  {
    match f
    case Top => (c.x - x, c.z - z)
    case Bottom => (c.x - x, c.z - z)
    case Front => (c.x - x, c.y - y)
    case Back => (c.x - x, c.y - y)
    case Left => (c.z - z, c.y - y)
    case Right => (c.z - z, c.y - y)
  }

  predicate IsHalf(r: real)
  {
    r == 0.5 || r == -0.5
  }

  /** A corner lies on the face's plane, half a unit from the centre in both in-plane directions. */
  predicate OnFaceSquare(f: Face, c: Corner, x: real, y: real, z: real)
  {
    AxisCoord(f, c) == PlaneOf(f, x, y, z) && IsHalf(InPlane(f, c, x, y, z).0) && IsHalf(InPlane(f, c, x, y, z).1)
  }

  /** Two consecutive corners differ in exactly one in-plane direction: they share an edge of the square. */
  predicate SquareEdge(f: Face, p: Corner, q: Corner, x: real, y: real, z: real)
  {
    (InPlane(f, p, x, y, z).0 == InPlane(f, q, x, y, z).0) != (InPlane(f, p, x, y, z).1 == InPlane(f, q, x, y, z).1)
  }

  /** A corner uses one of the tile's edges in u and one in v. */
  predicate OnTileEdge(c: Corner, t: Tile)
  {
    (c.u == t.u0 || c.u == t.u1) && (c.v == t.v0 || c.v == t.v1)
  }

  /** Two consecutive corners differ in exactly one texture coordinate. */
  predicate TileEdge(p: Corner, q: Corner)
  {
    (p.u == q.u) != (p.v == q.v)
  }

  /**
   * Every face is a unit square on its own side of the cube: all four corners
   * lie on the face's plane at half a unit from the centre, and consecutive
   * corners (cyclically) share an edge, so the corners go round the square
   * rather than across it.
   */
  lemma FaceIsUnitSquare(f: Face, x: real, y: real, z: real, u: real, v: real)
    ensures var c := Corners(f, x, y, z, u, v);
      && OnFaceSquare(f, c[0], x, y, z) && OnFaceSquare(f, c[1], x, y, z)
      && OnFaceSquare(f, c[2], x, y, z) && OnFaceSquare(f, c[3], x, y, z)
      && SquareEdge(f, c[0], c[1], x, y, z) && SquareEdge(f, c[1], c[2], x, y, z)
      && SquareEdge(f, c[2], c[3], x, y, z) && SquareEdge(f, c[3], c[0], x, y, z)
  {
  }

  /**
   * Every face maps the whole texture tile: each corner takes one of the
   * tile's edges in u and in v, and consecutive corners change exactly one.
   */
  lemma FaceCoversTile(f: Face, x: real, y: real, z: real, u: real, v: real)
    ensures var c, t := Corners(f, x, y, z, u, v), TileOf(u, v);
      && OnTileEdge(c[0], t) && OnTileEdge(c[1], t) && OnTileEdge(c[2], t) && OnTileEdge(c[3], t)
      && TileEdge(c[0], c[1]) && TileEdge(c[1], c[2]) && TileEdge(c[2], c[3]) && TileEdge(c[3], c[0])
  {
  }

  /** The top face pairs corners (-,-), (+,-), (+,+), (-,+) in (x, z) with UVs (u0,v0), (u1,v0), (u1,v1), (u0,v1). */
  lemma TopFaceLayout(x: real, y: real, z: real, u: real, v: real)
    ensures var c, t := Corners(Top, x, y, z, u, v), TileOf(u, v);
      && c[0] == Corner(x - 0.5, y + 0.5, z - 0.5, t.u0, t.v0)
      && c[1] == Corner(x + 0.5, y + 0.5, z - 0.5, t.u1, t.v0)
      && c[2] == Corner(x + 0.5, y + 0.5, z + 0.5, t.u1, t.v1)
      && c[3] == Corner(x - 0.5, y + 0.5, z + 0.5, t.u0, t.v1)
  {
  }

  /**
   * A face is 48 values: six vertices of eight values, vertex j being corner
   * [0, 1, 2, 2, 3, 0][j] followed by the colour.
   */
  lemma {:induction false} FaceValuesLayout(f: Face, x: real, y: real, z: real, u: real, v: real, color: Color)
    ensures var s, c := FaceValues(f, x, y, z, u, v, color), Corners(f, x, y, z, u, v);
      && |s| == FLOATS_PER_FACE
      && s[0..8] == VertexValues(c[0], color) && s[8..16] == VertexValues(c[1], color)
      && s[16..24] == VertexValues(c[2], color) && s[24..32] == VertexValues(c[2], color)
      && s[32..40] == VertexValues(c[3], color) && s[40..48] == VertexValues(c[0], color)
  {
    var s, c := FaceValues(f, x, y, z, u, v, color), Corners(f, x, y, z, u, v);
    var v0, v1, v2, v3 := VertexValues(c[0], color), VertexValues(c[1], color), VertexValues(c[2], color), VertexValues(c[3], color);
    QuadValuesUnrolled(c, color);
    assert s == v0 + v1 + v2 + v2 + v3 + v0;
  }

  /** All six vertices of a face carry the face's colour. */
  lemma FaceColor(f: Face, x: real, y: real, z: real, u: real, v: real, color: Color)
    ensures var s := FaceValues(f, x, y, z, u, v, color);
      |s| == FLOATS_PER_FACE && forall j :: 0 <= j < 6 ==> s[8 * j + 5] == color.r && s[8 * j + 6] == color.g && s[8 * j + 7] == color.b
  {
    var s, c := FaceValues(f, x, y, z, u, v, color), Corners(f, x, y, z, u, v);
    FaceValuesLayout(f, x, y, z, u, v, color);
    var w := [VertexValues(c[0], color), VertexValues(c[1], color), VertexValues(c[2], color),
              VertexValues(c[2], color), VertexValues(c[3], color), VertexValues(c[0], color)];
    forall j | 0 <= j < 6
      ensures s[8 * j + 5] == color.r && s[8 * j + 6] == color.g && s[8 * j + 7] == color.b
    {
      var k := TRIANGLE_ORDER[j];
      assert w[j] == VertexValues(c[k], color);
      assert s[8 * j .. 8 * j + 8] == VertexValues(c[k], color);
      assert s[8 * j + 5] == s[8 * j .. 8 * j + 8][5];
      assert s[8 * j + 6] == s[8 * j .. 8 * j + 8][6];
      assert s[8 * j + 7] == s[8 * j .. 8 * j + 8][7];
    }
  }

  /** One emitted face: which face of the unit cube centred on (x, y, z), its atlas pixel offset and its colour. */
  datatype Quad = Quad(face: Face, x: real, y: real, z: real, u: real, v: real, color: Color)

  function QuadFloats(q: Quad): seq<real>
  {
    FaceValues(q.face, q.x, q.y, q.z, q.u, q.v, q.color)
  }

  /** The values of f applied to each element, concatenated in order. */
  function FlatMap<T>(f: T -> seq<real>, ts: seq<T>): seq<real>
  {
    if ts == [] then [] else FlatMap(f, ts[..|ts| - 1]) + f(ts[|ts| - 1])
  }

  /** Flattening distributes over concatenation. */
  lemma {:induction false} FlatMapAppend<T>(f: T -> seq<real>, a: seq<T>, b: seq<T>)
    ensures FlatMap(f, a + b) == FlatMap(f, a) + FlatMap(f, b)
    decreases |b|
  {
    if b == [] {
      assert a + b == a;
    } else {
      var b' := b[..|b| - 1];
      assert (a + b)[..|a + b| - 1] == a + b';
      FlatMapAppend(f, a, b');
    }
  }

  lemma {:induction false} FlatMapLength<T>(f: T -> seq<real>, ts: seq<T>)
    requires forall t :: |f(t)| == FLOATS_PER_FACE
    ensures |FlatMap(f, ts)| == FLOATS_PER_FACE * |ts|
    decreases |ts|
  {
    if ts != [] {
      FlatMapLength(f, ts[..|ts| - 1]);
    }
  }

  /** The buffer contents a sequence of emitted faces produces, in order. */
  function Flatten(qs: seq<Quad>): seq<real>
  {
    FlatMap(QuadFloats, qs)
  }

  /** Flattening one more face appends its 48 values. */
  lemma FlattenSnoc(qs: seq<Quad>, q: Quad)
    ensures Flatten(qs + [q]) == Flatten(qs) + QuadFloats(q)
  {
    assert (qs + [q])[..|qs + [q]| - 1] == qs;
  }

  lemma FlattenAppend(a: seq<Quad>, b: seq<Quad>)
    ensures Flatten(a + b) == Flatten(a) + Flatten(b)
  {
    FlatMapAppend(QuadFloats, a, b);
  }

  /** Every face is exactly 48 values, so a buffer of n faces holds 6n vertices of 8 values. */
  lemma FlattenLength(qs: seq<Quad>)
    ensures |Flatten(qs)| == FLOATS_PER_FACE * |qs|
  {
    forall q: Quad ensures |QuadFloats(q)| == FLOATS_PER_FACE {
      FaceValuesLayout(q.face, q.x, q.y, q.z, q.u, q.v, q.color);
    }
    FlatMapLength(QuadFloats, qs);
  }

  /** Appends the eight values of one vertex. */
  method AddVertex(vertices: FloatArray<real>, c: Corner, color: Color)
    requires vertices.Valid()
    modifies vertices.Repr
    ensures vertices.Valid() && (vertices.data == old(vertices.data) || fresh(vertices.data))
    ensures vertices.Contents() == old(vertices.Contents()) + VertexValues(c, color)
  {
    ghost var before := vertices.Contents();
    vertices.Add(c.x);
    vertices.Add(c.y);
    vertices.Add(c.z);
    vertices.Add(c.u);
    vertices.Add(c.v);
    vertices.Add(color.r);
    vertices.Add(color.g);
    vertices.Add(color.b);
    AppendVertexValues(before, c, color);
  }

  /** Appending the eight values one at a time appends the vertex. */
  lemma AppendVertexValues(s: seq<real>, c: Corner, color: Color)
    ensures s + [c.x] + [c.y] + [c.z] + [c.u] + [c.v] + [color.r] + [color.g] + [color.b] == s + VertexValues(c, color)
  {
  }

  /** Appends a quad as the triangles (c0, c1, c2) and (c2, c3, c0). */
  method AddFace(vertices: FloatArray<real>, c: seq<Corner>, color: Color)
    requires vertices.Valid() && |c| == 4
    modifies vertices.Repr
    ensures vertices.Valid() && (vertices.data == old(vertices.data) || fresh(vertices.data))
    ensures vertices.Contents() == old(vertices.Contents()) + QuadValues(c, color)
  {
    ghost var before := vertices.Contents();
    AddVertex(vertices, c[0], color);
    AddVertex(vertices, c[1], color);
    AddVertex(vertices, c[2], color);
    AddVertex(vertices, c[2], color);
    AddVertex(vertices, c[3], color);
    AddVertex(vertices, c[0], color);
    AppendQuadValues(before, c, color);
  }

  /** Appending the six vertices one at a time appends the quad. */
  lemma AppendQuadValues(s: seq<real>, c: seq<Corner>, color: Color)
    requires |c| == 4
    ensures s + VertexValues(c[0], color) + VertexValues(c[1], color) + VertexValues(c[2], color)
            + VertexValues(c[2], color) + VertexValues(c[3], color) + VertexValues(c[0], color)
         == s + QuadValues(c, color)
  {
    QuadValuesUnrolled(c, color);
  }

  method AddNormalTopFaceWithTexture(vertices: FloatArray<real>, x: real, y: real, z: real, u: real, v: real, color: Color)
    requires vertices.Valid()
    modifies vertices.Repr
    ensures vertices.Valid() && (vertices.data == old(vertices.data) || fresh(vertices.data))
    ensures vertices.Contents() == old(vertices.Contents()) + FaceValues(Top, x, y, z, u, v, color)
  {
    AddFace(vertices, Corners(Top, x, y, z, u, v), color);
  }

  method AddNormalBottomFaceWithTexture(vertices: FloatArray<real>, x: real, y: real, z: real, u: real, v: real, color: Color)
    requires vertices.Valid()
    modifies vertices.Repr
    ensures vertices.Valid() && (vertices.data == old(vertices.data) || fresh(vertices.data))
    ensures vertices.Contents() == old(vertices.Contents()) + FaceValues(Bottom, x, y, z, u, v, color)
  {
    AddFace(vertices, Corners(Bottom, x, y, z, u, v), color);
  }

  method AddNormalFrontFaceWithTexture(vertices: FloatArray<real>, x: real, y: real, z: real, u: real, v: real, color: Color)
    requires vertices.Valid()
    modifies vertices.Repr
    ensures vertices.Valid() && (vertices.data == old(vertices.data) || fresh(vertices.data))
    ensures vertices.Contents() == old(vertices.Contents()) + FaceValues(Front, x, y, z, u, v, color)
  {
    AddFace(vertices, Corners(Front, x, y, z, u, v), color);
  }

  method AddNormalBackFaceWithTexture(vertices: FloatArray<real>, x: real, y: real, z: real, u: real, v: real, color: Color)
    requires vertices.Valid()
    modifies vertices.Repr
    ensures vertices.Valid() && (vertices.data == old(vertices.data) || fresh(vertices.data))
    ensures vertices.Contents() == old(vertices.Contents()) + FaceValues(Back, x, y, z, u, v, color)
  {
    AddFace(vertices, Corners(Back, x, y, z, u, v), color);
  }

  method AddNormalLeftFaceWithTexture(vertices: FloatArray<real>, x: real, y: real, z: real, u: real, v: real, color: Color)
    requires vertices.Valid()
    modifies vertices.Repr
    ensures vertices.Valid() && (vertices.data == old(vertices.data) || fresh(vertices.data))
    ensures vertices.Contents() == old(vertices.Contents()) + FaceValues(Left, x, y, z, u, v, color)
  {
    AddFace(vertices, Corners(Left, x, y, z, u, v), color);
  }

  method AddNormalRightFaceWithTexture(vertices: FloatArray<real>, x: real, y: real, z: real, u: real, v: real, color: Color)
    requires vertices.Valid()
    modifies vertices.Repr
    ensures vertices.Valid() && (vertices.data == old(vertices.data) || fresh(vertices.data))
    ensures vertices.Contents() == old(vertices.Contents()) + FaceValues(Right, x, y, z, u, v, color)
  {
    AddFace(vertices, Corners(Right, x, y, z, u, v), color);
  }
}
