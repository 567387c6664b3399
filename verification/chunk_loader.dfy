/**
 * The two stand-alone terrain fillers of the chunk loader: a flat world of
 * bedrock, dirt and one grass layer, and a noise-driven "natural" world
 * whose columns are grass, three rows of dirt, stone and bedrock.
 *
 * y grows downward (y = 0 is the top). The random dirt offset and the noise
 * sample of a column are inputs.
 */
module TerrainFill {
  import opened Wrappers
  import opened Blocks
  import opened ChunkGrid
  import opened JavaInt

  /** Counts the rows y < n of a column that hold block b. */
  function CountRows(column: int -> Cell, b: Block, n: int): (k: nat)
    ensures k <= if n < 0 then 0 else n
    decreases n
  {
    if n <= 0 then 0 else CountRows(column, b, n - 1) + (if column(n - 1) == Some(b) then 1 else 0)
  }

  // ---------------------------------------------------------------- flat

  /** The dirt line of a flat chunk, from the random draw k = nextInt(6). */
  function DirtHeight(k: int): int
  {
    CHUNK_Y - (60 + k)
  }

  lemma DirtHeightRange(k: int)
    requires 0 <= k < 6
    ensures 191 <= DirtHeight(k) <= 196
  {
  }

  /** The column rule of the flat filler, branch by branch; a row no branch assigns stays null. */
  function FlatColumnCell(dirtHeight: int, y: int): Cell
  {
    if y >= CHUNK_Y - 5 then Some(BEDROCK)
    else if y >= dirtHeight then Some(DIRT)
    else if y >= CHUNK_Y - 60 then Some(STONE)
    else if y == dirtHeight - 1 then Some(GRASS)
    else None
  }

  predicate IsCorner(x: int, z: int)
  {
    (x == 0 || x == CHUNK_X - 1) && (z == 0 || z == CHUNK_Z - 1)
  }

  /** A cell of a flat chunk: the column rule, with bedrock patched in at the four corners of the grass row. */
  function FlatCell(dirtHeight: int, x: int, y: int, z: int): Cell
  {
    if IsCorner(x, z) && y == dirtHeight - 1 then Some(BEDROCK) else FlatColumnCell(dirtHeight, y)
  }

  function FlatColumn(dirtHeight: int, x: int, z: int): int -> Cell
  {
    y => FlatCell(dirtHeight, x, y, z)
  }

  /**
   * For every draw the flat column is bedrock in its bottom five rows, dirt
   * from the dirt line down to them, grass just above the dirt line (bedrock
   * at a corner) and null above: the stone branch is never taken.
   */
  lemma FlatCellShape(k: int, x: int, y: int, z: int)
    requires 0 <= k < 6
    ensures var dh := DirtHeight(k);
      FlatCell(dh, x, y, z) ==
        if y >= CHUNK_Y - 5 then Some(BEDROCK)
        else if y >= dh then Some(DIRT)
        else if y == dh - 1 then (if IsCorner(x, z) then Some(BEDROCK) else Some(GRASS))
        else None
  {
    DirtHeightRange(k);
  }

  /** The rows y < n of a flat column hold no stone. */
  lemma {:induction false} FlatStoneCount(k: int, x: int, z: int, n: int)
    requires 0 <= k < 6
    ensures CountRows(FlatColumn(DirtHeight(k), x, z), STONE, n) == 0
    decreases n
  {
    if n > 0 {
      FlatStoneCount(k, x, z, n - 1);
      FlatCellShape(k, x, n - 1, z);
    }
  }

  /** The rows y < n of a flat column hold one grass cell once n passes the grass row, except at a corner. */
  lemma {:induction false} FlatGrassCount(k: int, x: int, z: int, n: int)
    requires 0 <= k < 6
    ensures CountRows(FlatColumn(DirtHeight(k), x, z), GRASS, n) ==
              if IsCorner(x, z) || n < DirtHeight(k) then 0 else 1
    decreases n
  {
    if n > 0 {
      FlatGrassCount(k, x, z, n - 1);
      FlatCellShape(k, x, n - 1, z);
    }
  }

  /** A whole flat column has no stone, and one grass cell unless it is a corner column. */
  lemma FlatColumnCounts(k: int, x: int, z: int)
    requires 0 <= k < 6
    ensures CountRows(FlatColumn(DirtHeight(k), x, z), STONE, CHUNK_Y) == 0
    ensures CountRows(FlatColumn(DirtHeight(k), x, z), GRASS, CHUNK_Y) == if IsCorner(x, z) then 0 else 1
  {
    FlatStoneCount(k, x, z, CHUNK_Y);
    FlatGrassCount(k, x, z, CHUNK_Y);
  }

  /** Fills a fresh 16 x 256 x 16 array with the flat rule, then patches the four corners. */
  method GenerateFlatTerrainAt(coord: ChunkCoordinate, k: int) returns (blocks: array3<Cell>)
    requires 0 <= k < 6
    ensures fresh(blocks)
    ensures blocks.Length0 == CHUNK_X && blocks.Length1 == CHUNK_Y && blocks.Length2 == CHUNK_Z
    ensures forall x, y, z :: 0 <= x < CHUNK_X && 0 <= y < CHUNK_Y && 0 <= z < CHUNK_Z ==>
              blocks[x, y, z] == FlatCell(DirtHeight(k), x, y, z)
  {
    blocks := new Cell[CHUNK_X, CHUNK_Y, CHUNK_Z]((x, y, z) => None);
    var dirtHeight := CHUNK_Y - (60 + k);
    DirtHeightRange(k);
    for x := 0 to CHUNK_X
      invariant forall i, j, l :: 0 <= i < CHUNK_X && 0 <= j < CHUNK_Y && 0 <= l < CHUNK_Z ==>
                  blocks[i, j, l] == if i < x then FlatColumnCell(dirtHeight, j) else None
    {
      for z := 0 to CHUNK_Z
        invariant forall i, j, l :: 0 <= i < CHUNK_X && 0 <= j < CHUNK_Y && 0 <= l < CHUNK_Z ==>
                    blocks[i, j, l] == if i < x || (i == x && l < z) then FlatColumnCell(dirtHeight, j) else None
      {
        FlatColumnFill(blocks, x, z, dirtHeight);
      }
    }
    blocks[0, dirtHeight - 1, 0] := Some(BEDROCK);
    blocks[0, dirtHeight - 1, 15] := Some(BEDROCK);
    blocks[15, dirtHeight - 1, 15] := Some(BEDROCK);
    blocks[15, dirtHeight - 1, 0] := Some(BEDROCK);
  }

  /** The innermost loop of the flat filler: one column, assigning only the rows a branch covers. */
  method FlatColumnFill(blocks: array3<Cell>, x: int, z: int, dirtHeight: int)
    requires blocks.Length0 == CHUNK_X && blocks.Length1 == CHUNK_Y && blocks.Length2 == CHUNK_Z
    requires 0 <= x < CHUNK_X && 0 <= z < CHUNK_Z
    requires forall j :: 0 <= j < CHUNK_Y ==> blocks[x, j, z] == None
    modifies blocks
    ensures forall j :: 0 <= j < CHUNK_Y ==> blocks[x, j, z] == FlatColumnCell(dirtHeight, j)
    ensures forall i, j, l :: 0 <= i < CHUNK_X && 0 <= j < CHUNK_Y && 0 <= l < CHUNK_Z && (i != x || l != z) ==>
              blocks[i, j, l] == old(blocks[i, j, l])
  {
    for y := 0 to CHUNK_Y
      invariant forall j :: 0 <= j < CHUNK_Y ==> blocks[x, j, z] == if j < y then FlatColumnCell(dirtHeight, j) else None
      invariant forall i, j, l :: 0 <= i < CHUNK_X && 0 <= j < CHUNK_Y && 0 <= l < CHUNK_Z && (i != x || l != z) ==>
                  blocks[i, j, l] == old(blocks[i, j, l])
    {
      if y >= CHUNK_Y - 5 {
        blocks[x, y, z] := Some(BEDROCK);
      } else if y >= dirtHeight {
        blocks[x, y, z] := Some(DIRT);
      } else if y >= CHUNK_Y - 60 {
        blocks[x, y, z] := Some(STONE);
      } else if y == dirtHeight - 1 {
        blocks[x, y, z] := Some(GRASS);
      }
    }
  }

  // ------------------------------------------------------------- natural

  const BASE_HEIGHT: int := 70
  const AMPLITUDE: int := 15

  /**
   * The noise source of the natural filler: the value sampled for the chunk
   * at coord (whose hash seeds the generator) at world column (worldX,
   * worldZ). The scaling of the sample position by the frequency 0.1 is
   * part of the source.
   */
  type ColumnNoise = (ChunkCoordinate, int, int) -> real

  /** The surface height of a column: 70 plus the truncated noise times 15, clamped into [1, 255]. */
  function SurfaceHeight(noise: real): (s: int)
    ensures 1 <= s <= CHUNK_Y - 1
    ensures var raw := BASE_HEIGHT + Truncate(noise * AMPLITUDE as real);
      (1 <= raw <= CHUNK_Y - 1 ==> s == raw) && (raw < 1 ==> s == 1) && (raw > CHUNK_Y - 1 ==> s == CHUNK_Y - 1)
  {
    var raw := BASE_HEIGHT + Truncate(noise * AMPLITUDE as real);
    if raw < 1 then 1 else if raw > CHUNK_Y - 1 then CHUNK_Y - 1 else raw
  }

  /** The column rule of the natural filler for surface height s. */
  function NaturalCell(s: int, y: int): Cell
  {
    if y < CHUNK_Y - s then None
    else if y == CHUNK_Y - s then Some(GRASS)
    else if y < CHUNK_Y - s + 3 then Some(DIRT)
    else if y < CHUNK_Y - 5 then Some(STONE)
    else Some(BEDROCK)
  }

  function NaturalColumn(s: int): int -> Cell
  {
    y => NaturalCell(s, y)
  }

  /** The rows y < n of a natural column hold one grass cell once n passes row 256 - s. */
  lemma {:induction false} NaturalGrassCount(s: int, n: int)
    requires s <= CHUNK_Y
    ensures CountRows(NaturalColumn(s), GRASS, n) == if n <= CHUNK_Y - s then 0 else 1
    decreases n
  {
    if n > 0 {
      NaturalGrassCount(s, n - 1);
    }
  }

  /** Every natural column, whatever its clamped surface height, holds exactly one grass cell, at row 256 - s. */
  lemma ExactlyOneGrass(s: int)
    requires 1 <= s <= CHUNK_Y - 1
    ensures CountRows(NaturalColumn(s), GRASS, CHUNK_Y) == 1
    ensures NaturalCell(s, CHUNK_Y - s) == Some(GRASS)
  {
    NaturalGrassCount(s, CHUNK_Y);
  }

  /** The cell at (x, y, z) of the natural chunk at coord. */
  function NaturalAt(coord: ChunkCoordinate, noise: ColumnNoise, x: int, y: int, z: int): Cell
  {
    NaturalCell(SurfaceHeight(noise(coord, x + coord.x * CHUNK_X, z + coord.z * CHUNK_Z)), y)
  }

  /** Fills a fresh 16 x 256 x 16 array column by column from the clamped noise surface. */
  method GenerateNaturalTerrainAt(coord: ChunkCoordinate, noise: ColumnNoise) returns (blocks: array3<Cell>)
    ensures fresh(blocks)
    ensures blocks.Length0 == CHUNK_X && blocks.Length1 == CHUNK_Y && blocks.Length2 == CHUNK_Z
    ensures forall x, y, z :: 0 <= x < CHUNK_X && 0 <= y < CHUNK_Y && 0 <= z < CHUNK_Z ==>
              blocks[x, y, z] == NaturalAt(coord, noise, x, y, z)
  {
    blocks := new Cell[CHUNK_X, CHUNK_Y, CHUNK_Z]((x, y, z) => None);
    for x := 0 to CHUNK_X
      invariant forall i, j, l :: 0 <= i < x && 0 <= j < CHUNK_Y && 0 <= l < CHUNK_Z ==>
                  blocks[i, j, l] == NaturalAt(coord, noise, i, j, l)
    {
      for z := 0 to CHUNK_Z
        invariant forall i, j, l :: 0 <= i < x && 0 <= j < CHUNK_Y && 0 <= l < CHUNK_Z ==>
                    blocks[i, j, l] == NaturalAt(coord, noise, i, j, l)
        invariant forall j, l :: 0 <= j < CHUNK_Y && 0 <= l < z ==> blocks[x, j, l] == NaturalAt(coord, noise, x, j, l)
      {
        var noiseValue := noise(coord, x + coord.x * CHUNK_X, z + coord.z * CHUNK_Z);
        var surfaceHeight := BASE_HEIGHT + Truncate(noiseValue * AMPLITUDE as real);
        surfaceHeight := Min(Max(surfaceHeight, 1), CHUNK_Y - 1);
        NaturalColumnFill(blocks, x, z, surfaceHeight);
      }
    }
  }

  /** The innermost loop of the natural filler: one column for surface height s. */
  method NaturalColumnFill(blocks: array3<Cell>, x: int, z: int, s: int)
    requires blocks.Length0 == CHUNK_X && blocks.Length1 == CHUNK_Y && blocks.Length2 == CHUNK_Z
    requires 0 <= x < CHUNK_X && 0 <= z < CHUNK_Z
    modifies blocks
    ensures forall j :: 0 <= j < CHUNK_Y ==> blocks[x, j, z] == NaturalCell(s, j)
    ensures forall i, j, l :: 0 <= i < CHUNK_X && 0 <= j < CHUNK_Y && 0 <= l < CHUNK_Z && (i != x || l != z) ==>
              blocks[i, j, l] == old(blocks[i, j, l])
  {
    for y := 0 to CHUNK_Y
      invariant forall j :: 0 <= j < y ==> blocks[x, j, z] == NaturalCell(s, j)
      invariant forall i, j, l :: 0 <= i < CHUNK_X && 0 <= j < CHUNK_Y && 0 <= l < CHUNK_Z && (i != x || l != z) ==>
                  blocks[i, j, l] == old(blocks[i, j, l])
    {
      if y < CHUNK_Y - s {
        blocks[x, y, z] := None;
      } else if y == CHUNK_Y - s {
        blocks[x, y, z] := Some(GRASS);
      } else if y < CHUNK_Y - s + 3 {
        blocks[x, y, z] := Some(DIRT);
      } else if y < CHUNK_Y - 5 {
        blocks[x, y, z] := Some(STONE);
      } else {
        blocks[x, y, z] := Some(BEDROCK);
      }
    }
  }
}
