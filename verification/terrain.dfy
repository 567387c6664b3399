/**
 * Biome-blended terrain generation for one chunk. Each column picks the
 * dominant biome from a biome-noise sample, derives its surface height, and
 * fills its cells from the top (y = 0) down: air above the surface, the
 * biome's blocks below it, bedrock at the bottom. Caves then clear some
 * cells, and cells below the upper ore limit (a larger y, since y grows
 * downward) become the biome's inner block.
 *
 * All noise is an input: the generator only compares and combines the
 * sampled values.
 */
module TerrainGen {
  import opened Wrappers
  import opened Blocks
  import opened ChunkGrid
  import opened JavaInt

  datatype Biome = OCEAN | PLAINS | DESERT | MOUNTAIN

  /** What a biome contributes to a column. */
  datatype BiomeParameters = BiomeParameters(
    biome: Biome,
    baseHeight: int,
    amplitude: int,
    surfaceBlock: Block,
    subsurfaceBlock: Block,
    innerUpperBlock: Block)

  /** A blending candidate: its parameters, the biome-noise value it is centred on, and its fall-off range. */
  datatype BiomeOption = BiomeOption(params: BiomeParameters, center: real, range: real)

  /** Since y grows downward, the sea surface sits 60 rows above the bottom. */
  const SEA_LEVEL: int := CHUNK_Y - 60

  /** The four candidates, in the order the blending loop visits them. */
  const OPTIONS: seq<BiomeOption> := [
    BiomeOption(BiomeParameters(OCEAN, CHUNK_Y - 60, 3, WATER1, SAND, STONE), -0.5, 0.3),
    BiomeOption(BiomeParameters(PLAINS, CHUNK_Y - 60, 6, GRASS, DIRT, STONE), -0.1, 0.3),
    BiomeOption(BiomeParameters(DESERT, CHUNK_Y - 60, 4, SAND, SAND, STONE), 0.2, 0.3),
    BiomeOption(BiomeParameters(MOUNTAIN, CHUNK_Y - 85, 15, GRASS, DIRT, STONE), 0.6, 0.3)
  ]

  /**
   * The sampled noise, as functions of world coordinates: the biome-selection
   * value and the height-map value of a column, the surface an ocean column
   * ends up with after its depth adjustment (given the unadjusted surface),
   * and whether the cave noise at a cell exceeds the cave threshold.
   */
  datatype Noise = Noise(
    biome: (int, int) -> real,
    terrain: (int, int) -> real,
    oceanSurface: (int, int, int) -> int,
    cave: (int, int, int) -> bool)

  /** y grows downward, so "beneath" means a larger y. */
  predicate HeightIsBeneath(height: int, limit: int)
  {
    height > limit
  }

  // ---------------------------------------------------------------- bands

  /** The first row of bedrock is the one after this limit. */
  function BedrockTop(surface: int): int
  {
    CHUNK_Y - (JavaRem(surface, 5) + 2)
  }

  function SubsurfaceTop(surface: int): int
  {
    BedrockTop(surface) - (JavaRem(surface, 15) + 32)
  }

  function UpperOreTop(surface: int): int
  {
    BedrockTop(surface) - (JavaRem(surface, 10) + 42)
  }

  /**
   * For a non-negative surface the bedrock band is two to six rows thick, and
   * the upper-ore band starts no lower than the subsurface band. For a
   * negative surface Java's remainder is not positive and the bedrock limit
   * moves down instead.
   */
  lemma {:induction false} BandLimits(surface: int)
    ensures surface >= 0 ==> 250 <= BedrockTop(surface) <= 254
    ensures surface >= 0 ==> UpperOreTop(surface) <= SubsurfaceTop(surface)
    ensures surface < 0 ==> 254 <= BedrockTop(surface) <= 258
  {
    if surface >= 0 {
      // the two remainders differ by a multiple of 5 that lies in (-10, 15)
      var a := surface / 10;
      var b := surface / 15;
      assert surface == 10 * a + surface % 10;
      assert surface == 15 * b + surface % 15;
      var k := 2 * a - 3 * b;
      assert surface % 15 - surface % 10 == 5 * k;
    }
  }

  // ---------------------------------------------------------------- blocks

  /**
   * An ocean column: empty down to the surface, then the surface block (water)
   * only from sea level down, the subsurface block (sand) below the
   * subsurface limit, bedrock below the bedrock limit.
   */
  function OceanBlock(height: int, bp: BiomeParameters, surface: int, bedrockTop: int, subsurfaceTop: int): (r: Cell)
    ensures height <= surface ==> r == None
    ensures height > surface && height > bedrockTop ==> r == Some(BEDROCK)
    ensures height > surface && subsurfaceTop < height <= bedrockTop ==> r == Some(bp.subsurfaceBlock)
    ensures height > surface && height <= bedrockTop && height <= subsurfaceTop ==>
              r == (if height >= SEA_LEVEL then Some(bp.surfaceBlock) else None)
  {
    if !HeightIsBeneath(height, surface) then None
    else if HeightIsBeneath(height, bedrockTop) then Some(BEDROCK)
    else if HeightIsBeneath(height, subsurfaceTop) then Some(bp.subsurfaceBlock)
    else if HeightIsBeneath(height, surface) && HeightIsBeneath(height, SEA_LEVEL - 1) then Some(bp.surfaceBlock)
    else None
  }

  /**
   * A plains, mountain or desert column (the three biomes share one rule):
   * the surface block at the surface, empty above it, the subsurface block
   * down to the bedrock limit and bedrock below.
   */
  function LandBlock(height: int, bp: BiomeParameters, surface: int, bedrockTop: int): (r: Cell)
    ensures height == surface ==> r == Some(bp.surfaceBlock)
    ensures height < surface ==> r == None
    ensures surface < height <= bedrockTop ==> r == Some(bp.subsurfaceBlock)
    ensures height > surface && height > bedrockTop ==> r == Some(BEDROCK)
  {
    if height == surface then Some(bp.surfaceBlock)
    else if !HeightIsBeneath(height, surface) then None
    else if !HeightIsBeneath(height, bedrockTop) then Some(bp.subsurfaceBlock)
    else Some(BEDROCK)
  }

  /** Dispatches on the column's biome. */
  function GenerateBlockBasedOn(height: int, bp: BiomeParameters, surface: int, bedrockTop: int, subsurfaceTop: int): (r: Cell)
    ensures bp.biome == OCEAN ==> r == OceanBlock(height, bp, surface, bedrockTop, subsurfaceTop)
    ensures bp.biome != OCEAN ==> r == LandBlock(height, bp, surface, bedrockTop)
  {
    match bp.biome
    case OCEAN => OceanBlock(height, bp, surface, bedrockTop, subsurfaceTop)
    case PLAINS => LandBlock(height, bp, surface, bedrockTop)
    case MOUNTAIN => LandBlock(height, bp, surface, bedrockTop)
    case DESERT => LandBlock(height, bp, surface, bedrockTop)
  }

  /** Cave carving: a cell strictly below the surface is cleared when the cave noise hits, unless it is bedrock or water. */
  function Carve(block: Cell, height: int, surface: int, caveHit: bool): (r: Cell)
    ensures r == block || r == None
    ensures r != block <==> HeightIsBeneath(height, surface) && caveHit && block.Some? && block != Some(BEDROCK) && block != Some(WATER1)
  {
    if HeightIsBeneath(height, surface) && caveHit && block != Some(BEDROCK) && block != Some(WATER1) then None else block
  }

  /**
   * Ore banding: a surviving solid-ground cell below the upper ore limit
   * (height > UpperOreTop(surface)) becomes the biome's inner block, except
   * in the ocean's subsurface band.
   */
  function OreBand(block: Cell, height: int, bp: BiomeParameters, surface: int): (r: Cell)
    ensures r == block || r == Some(bp.innerUpperBlock)
    ensures r != block ==>
              block.Some? && block != Some(WATER1) && block != Some(BEDROCK)
              && HeightIsBeneath(height, UpperOreTop(surface))
              && !(bp.biome == OCEAN && HeightIsBeneath(height, SubsurfaceTop(surface)))
  {
    if block == None || block == Some(WATER1) || block == Some(BEDROCK) then block
    else if bp.biome == OCEAN && HeightIsBeneath(height, SubsurfaceTop(surface)) then block
    else if HeightIsBeneath(height, UpperOreTop(surface)) then Some(bp.innerUpperBlock)
    else block
  }

  /** The final content of row `height` of a column. */
  function TerrainCell(height: int, bp: BiomeParameters, surface: int, caveHit: bool): Cell
  {
    var block := GenerateBlockBasedOn(height, bp, surface, BedrockTop(surface), SubsurfaceTop(surface));
    OreBand(Carve(block, height, surface, caveHit), height, bp, surface)
  }

  /**
   * Nothing is generated above the surface, and every cell below both the
   * surface and the bedrock limit is bedrock: caves and ore banding never
   * touch the bedrock floor.
   */
  lemma TerrainCellShape(height: int, bp: BiomeParameters, surface: int, caveHit: bool)
    ensures height < surface ==> TerrainCell(height, bp, surface, caveHit) == None
    ensures bp.biome == OCEAN && height == surface ==> TerrainCell(height, bp, surface, caveHit) == None
    ensures height > surface && height > BedrockTop(surface) ==> TerrainCell(height, bp, surface, caveHit) == Some(BEDROCK)
  {
  }

  /** The cell is empty exactly when the biome leaves it empty or a cave clears it. */
  lemma TerrainCellEmpty(height: int, bp: BiomeParameters, surface: int, caveHit: bool)
    ensures var block := GenerateBlockBasedOn(height, bp, surface, BedrockTop(surface), SubsurfaceTop(surface));
            TerrainCell(height, bp, surface, caveHit) == None <==>
              block == None
              || (HeightIsBeneath(height, surface) && caveHit && block != Some(BEDROCK) && block != Some(WATER1))
  {
  }

  // ---------------------------------------------------------------- blending

  function RealAbs(r: real): real
  {
    if r < 0.0 then -r else r
  }

  /** Linear fall-off: 1 at the option's centre, 0 from `range` away on. */
  function Weight(option: BiomeOption, noise: real): (w: real)
    requires option.range > 0.0
    ensures 0.0 <= w <= 1.0
  {
    var distance := RealAbs(noise - option.center);
    var fall := 1.0 - distance / option.range;
    if fall > 0.0 then fall else 0.0
  }

  /** An option weighs something exactly when the noise is less than its range from its centre. */
  lemma WeightPositive(option: BiomeOption, noise: real)
    requires option.range > 0.0
    ensures Weight(option, noise) > 0.0 <==> RealAbs(noise - option.center) < option.range
  {
    DivBelowOne(RealAbs(noise - option.center), option.range);
  }

  lemma DivBelowOne(a: real, r: real)
    requires a >= 0.0 && r > 0.0
    ensures a / r < 1.0 <==> a < r
  {
    var q := a / r;
    assert q * r == a;
    if q < 1.0 {
      MulLt(q, 1.0, r);
    }
    if a < r && q >= 1.0 {
      MulLe(1.0, q, r);
    }
  }

  lemma MulLt(x: real, y: real, r: real)
    requires r > 0.0 && x < y
    ensures x * r < y * r
  {
  }

  lemma MulLe(x: real, y: real, r: real)
    requires r >= 0.0 && x <= y
    ensures x * r <= y * r
  {
  }

  lemma MulCancelLe(x: real, y: real, r: real)
    requires r > 0.0 && x * r <= y * r
    ensures x <= y
  {
    if x > y {
      MulLt(y, x, r);
    }
  }

  /** The weights of the options from the i-th on at a biome-noise value, in option order. */
  function WeightsFrom(noise: real, i: nat): (ws: seq<real>)
    requires i <= |OPTIONS|
    ensures |ws| == |OPTIONS| - i
    decreases |OPTIONS| - i
  {
    if i == |OPTIONS| then [] else [Weight(OPTIONS[i], noise)] + WeightsFrom(noise, i + 1)
  }

  /** The weights of all options at a biome-noise value. */
  function Weights(noise: real): seq<real>
  {
    WeightsFrom(noise, 0)
  }

  /** The k-th weight from the i-th option on is option i + k's weight. */
  lemma {:induction false} WeightsFromAt(noise: real, i: nat, k: nat)
    requires i + k < |OPTIONS|
    ensures WeightsFrom(noise, i)[k] == Weight(OPTIONS[i + k], noise)
    decreases k
  {
    if k > 0 {
      WeightsFromAt(noise, i + 1, k - 1);
    }
  }

  /** There is one weight per option, each that option's weight. */
  lemma WeightsAre(noise: real)
    ensures |Weights(noise)| == |OPTIONS|
    ensures forall i :: 0 <= i < |OPTIONS| ==> Weights(noise)[i] == Weight(OPTIONS[i], noise)
  {
    forall i | 0 <= i < |OPTIONS|
      ensures Weights(noise)[i] == Weight(OPTIONS[i], noise)
    {
      WeightsFromAt(noise, 0, i);
    }
  }

  /** Weights as the blending sees them: one per option, none negative. */
  predicate ValidWeights(ws: seq<real>)
  {
    |ws| == |OPTIONS| && forall i :: 0 <= i < |ws| ==> ws[i] >= 0.0
  }

  /** The first n weights, summed. */
  function TotalWeight(ws: seq<real>, n: int): real
    requires 0 <= n <= |ws|
  {
    if n == 0 then 0.0 else TotalWeight(ws, n - 1) + ws[n - 1]
  }

  /** One step of a weighted sum: `acc + value * weight`. */
  function AddWeighted(acc: real, value: int, weight: real): real
  {
    acc + value as real * weight
  }

  /** The first n options' base heights, weighted and summed. */
  function WeightedBase(ws: seq<real>, n: int): real
    requires 0 <= n <= |ws| <= |OPTIONS|
  {
    if n == 0 then 0.0 else AddWeighted(WeightedBase(ws, n - 1), OPTIONS[n - 1].params.baseHeight, ws[n - 1])
  }

  /** The first n options' amplitudes, weighted and summed. */
  function WeightedAmplitude(ws: seq<real>, n: int): real
    requires 0 <= n <= |ws| <= |OPTIONS|
  {
    if n == 0 then 0.0 else AddWeighted(WeightedAmplitude(ws, n - 1), OPTIONS[n - 1].params.amplitude, ws[n - 1])
  }

  /** The option the loop holds after visiting the first n: replaced only by a strictly greater weight. */
  function Dominant(ws: seq<real>, n: int): (d: int)
    requires 1 <= n <= |ws|
    ensures 0 <= d < n
  {
    if n == 1 then 0
    else if ws[n - 1] > ws[Dominant(ws, n - 1)] then n - 1
    else Dominant(ws, n - 1)
  }

  /** The blend for given option weights: truncated weighted averages, categorical fields from the dominant option. */
  function Blend(ws: seq<real>): BiomeParameters
    requires |ws| == |OPTIONS|
  {
    var total := TotalWeight(ws, |OPTIONS|);
    if total == 0.0 then OPTIONS[1].params
    else
      var d := OPTIONS[Dominant(ws, |OPTIONS|)].params;
      BiomeParameters(d.biome,
                      Truncate(WeightedBase(ws, |OPTIONS|) / total),
                      Truncate(WeightedAmplitude(ws, |OPTIONS|) / total),
                      d.surfaceBlock, d.subsurfaceBlock, d.innerUpperBlock)
  }

  /** The blended parameters of a column whose biome noise is `noise`. */
  function Blended(noise: real): BiomeParameters
  {
    Blend(Weights(noise))
  }

  /**
   * The dominant option is the first one with the largest weight: no option
   * weighs more, and every option before it weighs strictly less.
   */
  lemma {:induction false} DominantIsFirstMax(ws: seq<real>, n: int)
    requires 1 <= n <= |ws|
    ensures forall j :: 0 <= j < n ==> ws[j] <= ws[Dominant(ws, n)]
    ensures forall j :: 0 <= j < Dominant(ws, n) ==> ws[j] < ws[Dominant(ws, n)]
  {
    if n > 1 {
      DominantIsFirstMax(ws, n - 1);
    }
  }

  /** For non-negative weights, the total is zero exactly when every weight is zero. */
  lemma {:induction false} TotalWeightZero(ws: seq<real>, n: int)
    requires ValidWeights(ws) && 0 <= n <= |ws|
    ensures TotalWeight(ws, n) >= 0.0
    ensures TotalWeight(ws, n) == 0.0 <==> forall j :: 0 <= j < n ==> ws[j] == 0.0
  {
    if n > 0 {
      TotalWeightZero(ws, n - 1);
    }
  }

  /**
   * No option covers a noise value at or below -0.8 or at or above 0.9; there
   * the blending falls back to the plains parameters unchanged. Everywhere in
   * between some option has a positive weight.
   */
  lemma PlainsFallback(noise: real)
    ensures TotalWeight(Weights(noise), |OPTIONS|) == 0.0 <==> noise <= -0.8 || noise >= 0.9
    ensures noise <= -0.8 || noise >= 0.9 ==> Blended(noise) == OPTIONS[1].params
  {
    var ws := Weights(noise);
    WeightsAre(noise);
    TotalWeightZero(ws, |OPTIONS|);
    WeightPositive(OPTIONS[0], noise);
    WeightPositive(OPTIONS[1], noise);
    WeightPositive(OPTIONS[2], noise);
    WeightPositive(OPTIONS[3], noise);
    assert ws[0] == 0.0 <==> RealAbs(noise + 0.5) >= 0.3;
    assert ws[1] == 0.0 <==> RealAbs(noise + 0.1) >= 0.3;
    assert ws[2] == 0.0 <==> RealAbs(noise - 0.2) >= 0.3;
    assert ws[3] == 0.0 <==> RealAbs(noise - 0.6) >= 0.3;
  }

  /** Weighted sums of values between lo and hi lie between lo and hi times the total weight. */
  lemma {:induction false} WeightedBounds(ws: seq<real>, n: int)
    requires ValidWeights(ws) && 0 <= n <= |ws|
    ensures 171.0 * TotalWeight(ws, n) <= WeightedBase(ws, n) <= 196.0 * TotalWeight(ws, n)
    ensures 3.0 * TotalWeight(ws, n) <= WeightedAmplitude(ws, n) <= 15.0 * TotalWeight(ws, n)
  {
    if n > 0 {
      WeightedBounds(ws, n - 1);
      var p := OPTIONS[n - 1].params;
      assert 171 <= p.baseHeight <= 196 && 3 <= p.amplitude <= 15;
      MulLe(171.0, p.baseHeight as real, ws[n - 1]);
      MulLe(p.baseHeight as real, 196.0, ws[n - 1]);
      MulLe(3.0, p.amplitude as real, ws[n - 1]);
      MulLe(p.amplitude as real, 15.0, ws[n - 1]);
    }
  }

  /**
   * For any non-negative weights, the blended base height and amplitude stay
   * within the candidates' range, and the categorical fields come from an
   * option of largest weight (the first such).
   */
  lemma BlendInRange(ws: seq<real>)
    requires ValidWeights(ws)
    ensures 171 <= Blend(ws).baseHeight <= 196
    ensures 3 <= Blend(ws).amplitude <= 15
    ensures TotalWeight(ws, |OPTIONS|) > 0.0 ==>
              exists i :: 0 <= i < |OPTIONS| && Blend(ws).biome == OPTIONS[i].params.biome
                && (forall j :: 0 <= j < |OPTIONS| ==> ws[j] <= ws[i])
                && (forall j :: 0 <= j < i ==> ws[j] < ws[i])
  {
    var total := TotalWeight(ws, |OPTIONS|);
    TotalWeightZero(ws, |OPTIONS|);
    if total > 0.0 {
      WeightedBounds(ws, |OPTIONS|);
      DivideBounds(WeightedBase(ws, |OPTIONS|), total, 171, 196);
      DivideBounds(WeightedAmplitude(ws, |OPTIONS|), total, 3, 15);
      DominantIsFirstMax(ws, |OPTIONS|);
      var d := Dominant(ws, |OPTIONS|);
      assert Blend(ws).biome == OPTIONS[d].params.biome;
    }
  }

  /** The weights of a noise value are valid, so every column's blend is in range. */
  lemma BlendedInRange(noise: real)
    ensures 171 <= Blended(noise).baseHeight <= 196
    ensures 3 <= Blended(noise).amplitude <= 15
  {
    WeightsAre(noise);
    BlendInRange(Weights(noise));
  }

  /** Dividing a sum bounded by lo*t and hi*t by t > 0 and truncating stays within [lo, hi]. */
  lemma DivideBounds(sum: real, t: real, lo: int, hi: int)
    requires t > 0.0 && 0 <= lo <= hi
    requires lo as real * t <= sum <= hi as real * t
    ensures lo <= Truncate(sum / t) <= hi
  {
    var q := sum / t;
    assert q * t == sum;
    MulCancelLe(lo as real, q, t);
    MulCancelLe(q, hi as real, t);
  }

  /** Java's blending loop: accumulates the weights and weighted sums and keeps the first strictly heaviest option. */
  method GetBlendedBiomeParameters(noise: real) returns (bp: BiomeParameters)
    ensures bp == Blended(noise)
  {
    ghost var ws := Weights(noise);
    WeightsAre(noise);
    var totalWeight := 0.0;
    var blendedBaseHeight := 0.0;
    var blendedAmplitude := 0.0;
    var maxWeight := -1.0;
    var dominant: Option<int> := None;
    var i := 0;
    while i < |OPTIONS|
      invariant 0 <= i <= |OPTIONS|
      invariant totalWeight == TotalWeight(ws, i)
      invariant blendedBaseHeight == WeightedBase(ws, i)
      invariant blendedAmplitude == WeightedAmplitude(ws, i)
      invariant i == 0 ==> maxWeight == -1.0 && dominant == None
      invariant i > 0 ==> dominant == Some(Dominant(ws, i)) && maxWeight == ws[Dominant(ws, i)]
    {
      var option := OPTIONS[i];
      var weight := Weight(option, noise);
      assert weight == ws[i];
      totalWeight := totalWeight + weight;
      blendedBaseHeight := AddWeighted(blendedBaseHeight, option.params.baseHeight, weight);
      blendedAmplitude := AddWeighted(blendedAmplitude, option.params.amplitude, weight);
      if weight > maxWeight {
        maxWeight := weight;
        dominant := Some(i);
      }
      i := i + 1;
    }
    if totalWeight == 0.0 {
      return OPTIONS[1].params;
    }
    var d := OPTIONS[dominant.value].params;
    bp := BiomeParameters(d.biome,
                          Truncate(blendedBaseHeight / totalWeight),
                          Truncate(blendedAmplitude / totalWeight),
                          d.surfaceBlock, d.subsurfaceBlock, d.innerUpperBlock);
  }

  // ---------------------------------------------------------------- chunk

  /** The surface row of a column: the base height plus the scaled height-map noise, then the ocean's depth adjustment. */
  function ColumnSurface(bp: BiomeParameters, noise: Noise, worldX: int, worldZ: int): int
  {
    var surface := bp.baseHeight + Truncate(noise.terrain(worldX, worldZ) * bp.amplitude as real);
    if bp.biome == OCEAN then noise.oceanSurface(worldX, worldZ, surface) else surface
  }

  /** The blended parameters and the surface of column (x, z) of the chunk at coord. */
  function ColumnOf(coord: ChunkCoordinate, noise: Noise, x: int, z: int): (BiomeParameters, int)
  {
    var worldX := x + coord.x * CHUNK_X;
    var worldZ := z + coord.z * CHUNK_Z;
    var bp := Blended(noise.biome(worldX, worldZ));
    (bp, ColumnSurface(bp, noise, worldX, worldZ))
  }

  /** The generated content of cell (x, y, z) of the chunk at coord. */
  function TerrainAt(coord: ChunkCoordinate, noise: Noise, x: int, y: int, z: int): Cell
  {
    var column := ColumnOf(coord, noise, x, z);
    TerrainCell(y, column.0, column.1, noise.cave(x + coord.x * CHUNK_X, y, z + coord.z * CHUNK_Z))
  }

  /** Fills a fresh 16 x 256 x 16 array, column by column. */
  method GenerateTerrainsAt(coord: ChunkCoordinate, noise: Noise) returns (blocks: array3<Cell>)
    ensures fresh(blocks)
    ensures blocks.Length0 == CHUNK_X && blocks.Length1 == CHUNK_Y && blocks.Length2 == CHUNK_Z
    ensures forall x, y, z :: 0 <= x < CHUNK_X && 0 <= y < CHUNK_Y && 0 <= z < CHUNK_Z ==>
              blocks[x, y, z] == TerrainAt(coord, noise, x, y, z)
  {
    blocks := new Cell[CHUNK_X, CHUNK_Y, CHUNK_Z]((x, y, z) => None);
    for x := 0 to CHUNK_X
      invariant forall i, j, k :: 0 <= i < x && 0 <= j < CHUNK_Y && 0 <= k < CHUNK_Z ==>
                  blocks[i, j, k] == TerrainAt(coord, noise, i, j, k)
    {
      for z := 0 to CHUNK_Z
        invariant forall i, j, k :: 0 <= i < x && 0 <= j < CHUNK_Y && 0 <= k < CHUNK_Z ==>
                    blocks[i, j, k] == TerrainAt(coord, noise, i, j, k)
        invariant forall j, k :: 0 <= j < CHUNK_Y && 0 <= k < z ==> blocks[x, j, k] == TerrainAt(coord, noise, x, j, k)
      {
        GenerateColumn(blocks, coord, noise, x, z);
      }
    }
  }

  /** One column of the generator: its biome and surface, then its cells. */
  method GenerateColumn(blocks: array3<Cell>, coord: ChunkCoordinate, noise: Noise, x: int, z: int)
    requires blocks.Length0 == CHUNK_X && blocks.Length1 == CHUNK_Y && blocks.Length2 == CHUNK_Z
    requires 0 <= x < CHUNK_X && 0 <= z < CHUNK_Z
    modifies blocks
    ensures forall j :: 0 <= j < CHUNK_Y ==> blocks[x, j, z] == TerrainAt(coord, noise, x, j, z)
    ensures forall i, j, k :: 0 <= i < CHUNK_X && 0 <= j < CHUNK_Y && 0 <= k < CHUNK_Z && (i != x || k != z) ==>
              blocks[i, j, k] == old(blocks[i, j, k])
  {
    var worldX := x + coord.x * CHUNK_X;
    var worldZ := z + coord.z * CHUNK_Z;
    var bp := GetBlendedBiomeParameters(noise.biome(worldX, worldZ));
    var surface := SurfaceOf(bp, noise, worldX, worldZ);
    FillColumn(blocks, x, z, worldX, worldZ, bp, surface, noise);
    ColumnOfIs(coord, noise, x, z, bp, surface);
  }

  /** Column (x, z) of the chunk is its parameters' column. */
  lemma ColumnOfIs(coord: ChunkCoordinate, noise: Noise, x: int, z: int, bp: BiomeParameters, surface: int)
    requires bp == Blended(noise.biome(x + coord.x * CHUNK_X, z + coord.z * CHUNK_Z))
    requires surface == ColumnSurface(bp, noise, x + coord.x * CHUNK_X, z + coord.z * CHUNK_Z)
    ensures ColumnOf(coord, noise, x, z) == (bp, surface)
  {
  }

  /** The surface row of a column with parameters bp. */
  method SurfaceOf(bp: BiomeParameters, noise: Noise, worldX: int, worldZ: int) returns (surface: int)
    ensures surface == ColumnSurface(bp, noise, worldX, worldZ)
  {
    surface := bp.baseHeight + Truncate(noise.terrain(worldX, worldZ) * bp.amplitude as real);
    if bp.biome == OCEAN {
      surface := noise.oceanSurface(worldX, worldZ, surface);
    }
  }

  /** The inner loop of the generator: one column from the top down, carving caves and banding ore as it goes. */
  method FillColumn(blocks: array3<Cell>, x: int, z: int, worldX: int, worldZ: int, bp: BiomeParameters, surface: int, noise: Noise)
    requires blocks.Length0 == CHUNK_X && blocks.Length1 == CHUNK_Y && blocks.Length2 == CHUNK_Z
    requires 0 <= x < CHUNK_X && 0 <= z < CHUNK_Z
    modifies blocks
    ensures forall j :: 0 <= j < CHUNK_Y ==> blocks[x, j, z] == TerrainCell(j, bp, surface, noise.cave(worldX, j, worldZ))
    ensures forall i, j, k :: 0 <= i < CHUNK_X && 0 <= j < CHUNK_Y && 0 <= k < CHUNK_Z && (i != x || k != z) ==>
              blocks[i, j, k] == old(blocks[i, j, k])
  {
    var bedrockTopLimit := BedrockTop(surface);
    var subsurfaceTopLimit := SubsurfaceTop(surface);
    var upperOreTopLimit := UpperOreTop(surface);
    for y := 0 to CHUNK_Y
      invariant forall j :: 0 <= j < y ==> blocks[x, j, z] == TerrainCell(j, bp, surface, noise.cave(worldX, j, worldZ))
      invariant forall i, j, k :: 0 <= i < CHUNK_X && 0 <= j < CHUNK_Y && 0 <= k < CHUNK_Z && (i != x || k != z) ==>
                  blocks[i, j, k] == old(blocks[i, j, k])
    {
      var block := GenerateBlockBasedOn(y, bp, surface, bedrockTopLimit, subsurfaceTopLimit);
      if HeightIsBeneath(y, surface) && noise.cave(worldX, y, worldZ) && block != Some(BEDROCK) && block != Some(WATER1) {
        block := None;
      }
      blocks[x, y, z] := block;
      if block != None && block != Some(WATER1) && block != Some(BEDROCK) {
        if !(bp.biome == OCEAN && HeightIsBeneath(y, subsurfaceTopLimit)) {
          if HeightIsBeneath(y, upperOreTopLimit) {
            block := Some(bp.innerUpperBlock);
          }
          blocks[x, y, z] := block;
        }
      }
    }
  }
}
