/**
 * Chunk coordinates and the block grid of one chunk. A Java
 * `Blocks[16][256][16]` array is held flat, in the same x-major order:
 * cell (x, y, z) sits at index (x * 256 + y) * 16 + z. y grows downward:
 * y = 0 is the top of the world.
 */
module ChunkGrid {
  import opened Wrappers
  import opened Blocks

  const CHUNK_X: int := 16
  const CHUNK_Y: int := 256
  const CHUNK_Z: int := 16
  const VOLUME: int := 65536

  /** Identifies a chunk in the unbounded grid of chunks; equality is by value. */
  datatype ChunkCoordinate = ChunkCoordinate(x: int, z: int)

  /** One cell of a grid: a block kind, or None for Java's null (empty). */
  type Cell = Option<Block>

  /** The block data of one chunk as a value. */
  type Grid = seq<Cell>

  predicate WellSized(g: Grid)
  {
    |g| == VOLUME
  }

  predicate InBounds(x: int, y: int, z: int)
  {
    0 <= x < 16 && 0 <= y < 256 && 0 <= z < 16
  }

  function Idx(x: int, y: int, z: int): (i: int)
    requires InBounds(x, y, z)
    ensures 0 <= i < VOLUME
  {
    (x * 256 + y) * 16 + z
  }

  /** Distinct in-bounds cells occupy distinct indices. */
  lemma IdxInjective(x: int, y: int, z: int, x': int, y': int, z': int)
    requires InBounds(x, y, z) && InBounds(x', y', z')
    requires Idx(x, y, z) == Idx(x', y', z')
    ensures x == x' && y == y' && z == z'
  {
  }

  /** The coordinates of the cell stored at index i: the inverse of Idx. */
  function CellOf(i: int): (c: (int, int, int))
    requires 0 <= i < VOLUME
    ensures InBounds(c.0, c.1, c.2) && Idx(c.0, c.1, c.2) == i
  {
    var x := i / 4096;
    var r := i % 4096;
    assert i == x * 4096 + r;
    (x, r / 16, r % 16)
  }

  /** The grid cell at (x, y, z); the caller checks the bounds. */
  function At(g: Grid, x: int, y: int, z: int): Cell
    requires WellSized(g) && InBounds(x, y, z)
  {
    g[Idx(x, y, z)]
  }

  /** A grid with every cell empty. */
  function EmptyGrid(): (g: Grid)
    ensures WellSized(g)
    ensures forall i :: 0 <= i < VOLUME ==> g[i] == None
  {
    seq(VOLUME, _ => None)
  }
}
