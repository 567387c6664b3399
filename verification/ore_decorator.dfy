/**
 * The ore pass: the active chunks that are not yet ore-decorated are merged
 * into one region; under the surface of every column each STONE, DIRT or
 * SAND cell may seed, with probability 0.001, a vein of an ore chosen by
 * the cell's depth band; a vein is a bounded flood fill that replaces only
 * STONE, DIRT and SAND, stays within a Manhattan radius of its seed and
 * converts at most its drawn size. Every merged chunk is written back and
 * flagged as ore-decorated, so the pass runs once per chunk.
 *
 * Randomness is an oracle: Math.random() and Random.nextInt draws are taken
 * from two streams indexed by one running draw counter.
 */
module OreDecorator {
  import opened Wrappers
  import opened Blocks
  import opened ChunkGrid
  import opened ChunkSpec
  import opened JavaInt
  import opened Region

  const SEED_PROBABILITY: real := 0.001
  const PROPAGATION_CHANCE: real := 0.3

  /**
   * The random sources: unit(k) is the k-th value of Math.random(), in
   * [0, 1) in the program and unconstrained here; below(k) is the k-th raw
   * draw behind Random.nextInt, reduced modulo the bound.
   */
  datatype Random = Random(unit: nat -> real, below: nat -> nat)

  // ------------------------------------------------------------ block kinds

  predicate IsEligibleForOre(c: Cell)
  {
    c == Some(STONE) || c == Some(DIRT) || c == Some(SAND)
  }

  predicate IsOre(c: Cell)
  {
    c == Some(COAL_ORE) || c == Some(IRON_ORE) || c == Some(GOLD_ORE) || c == Some(DIAMOND_ORE)
  }

  /** What the pass may do to one cell: keep it, or turn a STONE, DIRT or SAND cell into an ore. */
  predicate OreStep(before: Cell, after: Cell)
  {
    after == before || (IsEligibleForOre(before) && IsOre(after))
  }

  // -------------------------------------------------------------- settings

  /** An ore to place, the strict maximum size of its vein and its Manhattan radius. */
  datatype OreSettings = OreSettings(oreType: Block, maxVeinSize: int, maxRadius: int)

  /** The largest vein each ore may draw. */
  function OreCap(b: Block): int
  {
    match b
    case DIAMOND_ORE => 6
    case GOLD_ORE => 10
    case IRON_ORE => 12
    case COAL_ORE => 20
    case _ => 0
  }

  /** The Manhattan radius of each ore's veins. */
  function OreRadius(b: Block): int
  {
    match b
    case DIAMOND_ORE => 2
    case GOLD_ORE => 3
    case IRON_ORE => 3
    case COAL_ORE => 4
    case _ => 0
  }

  /** randomBetween: a value in [min, max] taken from one nextInt draw. */
  function RandomBetween(min: int, max: int, draw: nat): (r: int)
    requires min <= max
    ensures min <= r <= max
  {
    draw % (max - min + 1) + min
  }

  /** The OreSettings constructor: the vein size is drawn from [1, cap]. */
  function NewOreSettings(oreType: Block, cap: int, radius: int, draw: nat): (s: OreSettings)
    requires 1 <= cap
    ensures s.oreType == oreType && s.maxRadius == radius && 1 <= s.maxVeinSize <= cap
  {
    OreSettings(oreType, RandomBetween(1, cap, draw), radius)
  }

  /**
   * determineOreSettings. The y axis grows downward, so a larger threshold
   * lies deeper. Below the deeper limit any ore can appear and DIAMOND only
   * there; between the middle and deeper limits GOLD, IRON or COAL; between
   * the upper and middle limits only COAL; at or above all three limits
   * nothing. Each ore keeps its own radius and a size in [1, its cap].
   */
  function DetermineOreSettings(y: int, upperOre: int, middleOre: int, deeperOre: int, r: real, sizeDraw: nat)
    : (s: Option<OreSettings>)
    ensures s.None? <==> y <= deeperOre && y <= middleOre && y <= upperOre
    ensures s.Some? ==> IsOre(Some(s.value.oreType)) && s.value.maxRadius == OreRadius(s.value.oreType) &&
                        1 <= s.value.maxVeinSize <= OreCap(s.value.oreType)
    ensures s.Some? && s.value.oreType == DIAMOND_ORE ==> y > deeperOre && r < 0.05
    ensures s.Some? && y > deeperOre ==> (s.value.oreType == DIAMOND_ORE <==> r < 0.05)
    ensures s.Some? && y <= deeperOre && y <= middleOre ==> s.value.oreType == COAL_ORE
  {
    if y > deeperOre then
      if r < 0.05 then Some(NewOreSettings(DIAMOND_ORE, 6, 2, sizeDraw))
      else if r < 0.15 then Some(NewOreSettings(GOLD_ORE, 10, 3, sizeDraw))
      else if r < 0.50 then Some(NewOreSettings(IRON_ORE, 12, 3, sizeDraw))
      else Some(NewOreSettings(COAL_ORE, 20, 4, sizeDraw))
    else if y > middleOre then
      if r < 0.10 then Some(NewOreSettings(GOLD_ORE, 10, 3, sizeDraw))
      else if r < 0.45 then Some(NewOreSettings(IRON_ORE, 12, 3, sizeDraw))
      else Some(NewOreSettings(COAL_ORE, 20, 4, sizeDraw))
    else if y > upperOre then
      Some(NewOreSettings(COAL_ORE, 20, 4, sizeDraw))
    else
      None
  }

  /** The vertical limits of one column, all measured from the region's height and the column's surface. */
  datatype Thresholds = Thresholds(bedrockTop: int, subsurfaceTop: int, upperOreTop: int, middleOreTop: int, deeperOreTop: int)

  /**
   * The thresholds of a column whose surface is at surfaceY >= 0 (so the
   * remainders are those of Java). The three ore limits are strictly
   * ordered, upper above middle above deeper, with 17 and 13 layers between
   * them, and all lie above the bedrock limit, which is 2 to 6 layers above
   * the bottom. The subsurface limit is computed but never used.
   */
  function ColumnThresholds(surfaceY: int, height: int): (t: Thresholds)
    requires 0 <= surfaceY
    ensures t.upperOreTop + 17 == t.middleOreTop && t.middleOreTop + 13 == t.deeperOreTop
    ensures t.deeperOreTop < t.bedrockTop && height - 6 <= t.bedrockTop <= height - 2
  {
    var bedrockTop := height - (surfaceY % 5 + 2);
    Thresholds(bedrockTop,
               bedrockTop - (surfaceY % 15 + 32),
               bedrockTop - (surfaceY % 10 + 42),
               bedrockTop - (surfaceY % 10 + 25),
               bedrockTop - (surfaceY % 10 + 12))
  }

  /** An eligible cell is never an ore, so the program's second check, isOre after isEligibleForOre, never skips. */
  lemma EligibleIsNotOre(c: Cell)
    requires IsEligibleForOre(c)
    ensures !IsOre(c)
  {
  }

  /**
   * With a column's thresholds the bands nest as intended: the upper band
   * holds only COAL, DIAMOND needs the deep band, and nothing is placed at
   * or above the upper limit.
   */
  lemma ColumnBands(surfaceY: int, height: int, y: int, r: real, sizeDraw: nat)
    requires 0 <= surfaceY
    ensures var t := ColumnThresholds(surfaceY, height);
            var s := DetermineOreSettings(y, t.upperOreTop, t.middleOreTop, t.deeperOreTop, r, sizeDraw);
            (s.None? <==> y <= t.upperOreTop) &&
            (t.upperOreTop < y <= t.middleOreTop ==> s == Some(NewOreSettings(COAL_ORE, 20, 4, sizeDraw))) &&
            (s.Some? && s.value.oreType == DIAMOND_ORE ==> y > t.middleOreTop + 13)
  {
    var t := ColumnThresholds(surfaceY, height);
    assert t.upperOreTop < t.middleOreTop < t.deeperOreTop;
  }

  /**
   * The first y of the band in which an ore can be seeded: DIAMOND below the
   * deeper limit, GOLD and IRON below the middle limit, COAL below the upper
   * limit.
   */
  function BandTop(o: Block, t: Thresholds): int
  {
    match o
    case DIAMOND_ORE => t.deeperOreTop + 1
    case GOLD_ORE => t.middleOreTop + 1
    case IRON_ORE => t.middleOreTop + 1
    case _ => t.upperOreTop + 1
  }

  /** With a column's thresholds, a seed at y gets an ore whose band holds y. */
  lemma SeedInBand(surfaceY: int, height: int, y: int, r: real, sizeDraw: nat)
    requires 0 <= surfaceY
    ensures var t := ColumnThresholds(surfaceY, height);
            var s := DetermineOreSettings(y, t.upperOreTop, t.middleOreTop, t.deeperOreTop, r, sizeDraw);
            s.Some? ==> BandTop(s.value.oreType, t) <= y && s.value.maxRadius <= 4
  {
    var t := ColumnThresholds(surfaceY, height);
    assert t.upperOreTop < t.middleOreTop < t.deeperOreTop;
  }

  /**
   * (x, y, z) lies within Manhattan distance radius of some cell (cx, y0, cz)
   * of a column with y0 >= top, that is, of a seed at or below top.
   */
  predicate NearSeed(x: int, y: int, z: int, cx: int, cz: int, top: int, radius: int)
  {
    Abs(x - cx) + Abs(z - cz) + Max(top - y, 0) <= radius
  }

  /**
   * What a changed cell of column (cx, cz) with surface surfaceY satisfies:
   * it holds an ore o, and lies within o's radius of a seed strictly below
   * the surface and inside o's band.
   */
  predicate SeededFrom(c: Cell, x: int, y: int, z: int, cx: int, cz: int, surfaceY: int, height: int)
    requires 0 <= surfaceY
  {
    c.Some? &&
    NearSeed(x, y, z, cx, cz, Max(surfaceY + 1, BandTop(c.value, ColumnThresholds(surfaceY, height))), OreRadius(c.value))
  }

  // ------------------------------------------------------------------ veins

  function Manhattan(p: Pos, x: int, y: int, z: int): int
  {
    Abs(p.x - x) + Abs(p.y - y) + Abs(p.z - z)
  }

  /** The six directions a vein spreads in, in the order they are tried: +x, -x, +y, -y, +z, -z. */
  function DirectionX(i: int): int requires 0 <= i < 6 { if i == 0 then 1 else if i == 1 then -1 else 0 }
  function DirectionY(i: int): int requires 0 <= i < 6 { if i == 2 then 1 else if i == 3 then -1 else 0 }
  function DirectionZ(i: int): int requires 0 <= i < 6 { if i == 4 then 1 else if i == 5 then -1 else 0 }

  /**
   * generateOreVein: a flood fill from (sx, sy, sz) that turns eligible
   * cells into the settings' ore. A cell is converted only if it lies in the
   * region, within maxRadius of the seed and is STONE, DIRT or SAND; at most
   * maxVeinSize cells are converted; each in-bounds neighbour of a converted
   * cell is queued with probability 0.3. changed is the set of converted cells.
   */
  method GenerateOreVein(region: array3<Cell>, sx: int, sy: int, sz: int, settings: OreSettings,
                         seedX: int, seedY: int, seedZ: int, rng: Random, n: nat)
    returns (n': nat, ghost changed: set<Pos>)
    modifies region
    ensures n <= n'
    ensures forall x, y, z :: InArray3(region, x, y, z) ==> region[x, y, z] == old(region[x, y, z]) || Pos(x, y, z) in changed
    ensures forall p :: p in changed ==>
              InArray3(region, p.x, p.y, p.z) && IsEligibleForOre(old(region[p.x, p.y, p.z])) &&
              region[p.x, p.y, p.z] == Some(settings.oreType) && Manhattan(p, seedX, seedY, seedZ) <= settings.maxRadius
    ensures |changed| <= if settings.maxVeinSize < 0 then 0 else settings.maxVeinSize
  {
    n' := n;
    changed := {};
    if !InArray3(region, sx, sy, sz) {
      return;
    }
    if !IsEligibleForOre(region[sx, sy, sz]) {
      return;
    }
    var count := 0;
    var queue := [Pos(sx, sy, sz)];
    while queue != [] && count < settings.maxVeinSize
      invariant n <= n' && |changed| <= count && 0 <= count && (count == 0 || count <= settings.maxVeinSize)
      invariant forall x, y, z :: InArray3(region, x, y, z) ==> region[x, y, z] == old(region[x, y, z]) || Pos(x, y, z) in changed
      invariant forall p :: p in changed ==>
                  InArray3(region, p.x, p.y, p.z) && IsEligibleForOre(old(region[p.x, p.y, p.z])) &&
                  region[p.x, p.y, p.z] == Some(settings.oreType) && Manhattan(p, seedX, seedY, seedZ) <= settings.maxRadius
      decreases settings.maxVeinSize - count, |queue|
    {
      var pos := queue[0];
      queue := queue[1..];
      var x, y, z := pos.x, pos.y, pos.z;
      if !InArray3(region, x, y, z) {
        continue;
      }
      var dist := Abs(x - seedX) + Abs(y - seedY) + Abs(z - seedZ);
      if dist > settings.maxRadius {
        continue;
      }
      if !IsEligibleForOre(region[x, y, z]) {
        continue;
      }
      region[x, y, z] := Some(settings.oreType);
      changed := changed + {pos};
      count := count + 1;
      for i := 0 to 6
        invariant n <= n'
      {
        var nx, ny, nz := x + DirectionX(i), y + DirectionY(i), z + DirectionZ(i);
        if InArray3(region, nx, ny, nz) {
          var r := rng.unit(n');
          n' := n' + 1;
          if r < PROPAGATION_CHANCE {
            queue := queue + [Pos(nx, ny, nz)];
          }
        }
      }
    }
  }

  // ------------------------------------------------------------ region pass

  /**
   * The seeding loop over one column, below its surface: each eligible cell
   * seeds with probability 0.001 a vein whose settings come from its depth
   * band. The program's isOre test after the eligibility test never holds
   * (EligibleIsNotOre) and is not repeated here. Every changed cell holds an
   * ore and lies within that ore's radius of a seed strictly below surfaceY
   * and inside the ore's band (so a DIAMOND cell is within 2 of a seed below
   * the deeper limit).
   */
  method DecorateColumn(region: array3<Cell>, rx: int, rz: int, surfaceY: int, rng: Random, n: nat) returns (n': nat)
    requires 0 <= rx < region.Length0 && 0 <= rz < region.Length2 && 0 <= surfaceY < region.Length1
    modifies region
    ensures n <= n'
    ensures forall x, y, z :: InArray3(region, x, y, z) ==> OreStep(old(region[x, y, z]), region[x, y, z])
    ensures forall x, y, z :: InArray3(region, x, y, z) && region[x, y, z] != old(region[x, y, z]) ==>
              SeededFrom(region[x, y, z], x, y, z, rx, rz, surfaceY, region.Length1)
  {
    n' := n;
    var t := ColumnThresholds(surfaceY, region.Length1);
    for y := surfaceY + 1 to region.Length1
      invariant n <= n'
      invariant forall i, j, k :: InArray3(region, i, j, k) ==> OreStep(old(region[i, j, k]), region[i, j, k])
      invariant forall i, j, k :: InArray3(region, i, j, k) && region[i, j, k] != old(region[i, j, k]) ==>
                  SeededFrom(region[i, j, k], i, j, k, rx, rz, surfaceY, region.Length1)
    {
      if !IsEligibleForOre(region[rx, y, rz]) {
        continue;
      }
      var seed := rng.unit(n');
      n' := n' + 1;
      if seed > SEED_PROBABILITY {
        continue;
      }
      var r := rng.unit(n');
      n' := n' + 1;
      var settings := DetermineOreSettings(y, t.upperOreTop, t.middleOreTop, t.deeperOreTop, r, rng.below(n'));
      if settings == None {
        continue;
      }
      SeedInBand(surfaceY, region.Length1, y, r, rng.below(n'));
      n' := n' + 1;
      ghost var changed;
      n', changed := GenerateOreVein(region, rx, y, rz, settings.value, rx, y, rz, rng, n');
    }
  }

  /**
   * The column loop of the pass: every column with a surface is decorated
   * below it. Each changed cell holds an ore and lies within that ore's
   * radius of a seed strictly below the first block of some column and
   * inside the ore's band; the surfaces themselves never move, because the
   * pass keeps every empty cell empty.
   */
  method DecorateOresRegion(region: array3<Cell>, rng: Random, n: nat) returns (n': nat)
    modifies region
    ensures n <= n'
    ensures forall x, y, z :: InArray3(region, x, y, z) ==> OreStep(old(region[x, y, z]), region[x, y, z])
    ensures forall x, y, z :: InArray3(region, x, y, z) && region[x, y, z] != old(region[x, y, z]) ==>
              exists cx, cz, s :: old(IsSurfaceAt(region, cx, cz, s)) && SeededFrom(region[x, y, z], x, y, z, cx, cz, s, region.Length1)
  {
    n' := n;
    for rx := 0 to region.Length0
      invariant n <= n'
      invariant forall i, j, k :: InArray3(region, i, j, k) ==> OreStep(old(region[i, j, k]), region[i, j, k])
      invariant forall i, j, k :: InArray3(region, i, j, k) && region[i, j, k] != old(region[i, j, k]) ==>
                  exists cx, cz, s :: old(IsSurfaceAt(region, cx, cz, s)) && SeededFrom(region[i, j, k], i, j, k, cx, cz, s, region.Length1)
    {
      for rz := 0 to region.Length2
        invariant n <= n'
        invariant forall i, j, k :: InArray3(region, i, j, k) ==> OreStep(old(region[i, j, k]), region[i, j, k])
        invariant forall i, j, k :: InArray3(region, i, j, k) && region[i, j, k] != old(region[i, j, k]) ==>
                    exists cx, cz, s :: old(IsSurfaceAt(region, cx, cz, s)) && SeededFrom(region[i, j, k], i, j, k, cx, cz, s, region.Length1)
      {
        var surfaceY := FindSurfaceY(region, rx, rz);
        if surfaceY < 0 {
          continue;
        }
        assert old(IsSurfaceAt(region, rx, rz, surfaceY));
        label column:
        n' := DecorateColumn(region, rx, rz, surfaceY, rng, n');
        forall i, j, k | InArray3(region, i, j, k) && region[i, j, k] != old(region[i, j, k])
          ensures exists cx, cz, s :: old(IsSurfaceAt(region, cx, cz, s)) && SeededFrom(region[i, j, k], i, j, k, cx, cz, s, region.Length1)
        {
          if region[i, j, k] != old@column(region[i, j, k]) {
            assert SeededFrom(region[i, j, k], i, j, k, rx, rz, surfaceY, region.Length1);
          }
        }
      }
    }
  }

  /**
   * decorateOresForActiveRegion. Chunks already ore-decorated are left as
   * they are. Every other chunk is flagged as ore-decorated, keeps its links
   * and tree flag, and each of its cells is kept or turned from STONE, DIRT
   * or SAND into an ore; it is marked dirty exactly when its grid changed
   * (or it already was).
   */
  method DecorateOresForActiveRegion(active: Registry, rng: Random, n: nat) returns (active': Registry, n': nat)
    requires ValidRegistry(active) && IntCoordinates(active.Keys)
    ensures n <= n' && active'.Keys == active.Keys && ValidRegistry(active')
    ensures forall c :: c in active && active[c].oreDecorated ==> active'[c] == active[c]
    ensures forall c :: c in active && !active[c].oreDecorated ==>
              active'[c].oreDecorated && active'[c].treeDecorated == active[c].treeDecorated &&
              active'[c].links == active[c].links &&
              active'[c].dirty == (active[c].dirty || active'[c].blocks != active[c].blocks)
    ensures forall c, i :: c in active && 0 <= i < VOLUME ==> OreStep(active[c].blocks[i], active'[c].blocks[i])
  {
    var snapshot := Undecorated(active, OreFlag);
    if snapshot == map[] {
      return active, n;
    }
    var b := RegionBounds(snapshot.Keys);
    var regionBlocks := MergeRegion(snapshot, b);
    label merged:
    n' := DecorateOresRegion(regionBlocks, rng, n);
    assert forall rx, y, rz :: InRegion(b, rx, y, rz) ==> OreStep(MergedCell(snapshot, b, rx, y, rz), regionBlocks[rx, y, rz]) by {
      forall rx, y, rz | InRegion(b, rx, y, rz)
        ensures OreStep(MergedCell(snapshot, b, rx, y, rz), regionBlocks[rx, y, rz])
      {
        assert old@merged(regionBlocks[rx, y, rz]) == MergedCell(snapshot, b, rx, y, rz);
      }
    }
    active' := Writeback(active, snapshot.Keys, regionBlocks, b, Some(OreFlag));
    WritebackRelates(active, snapshot, b, regionBlocks, Some(OreFlag), OreStep, active');
    forall c | c in active && !active[c].oreDecorated
      ensures active'[c].oreDecorated && active'[c].treeDecorated == active[c].treeDecorated
    {
      assert c in snapshot;
      assert IsDecorated(active'[c], OreFlag);
      assert IsDecorated(active'[c], TreeFlag) == IsDecorated(active[c], TreeFlag);
    }
  }
}
