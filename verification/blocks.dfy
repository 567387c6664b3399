/**
 * The block catalog: every kind of block with its texture-atlas offsets and
 * its solidity flag.
 */
module Blocks {
  import opened JavaInt

  /**
   * The kinds of block. WATER1 and GREY_LEAVES are used by the mesher and the
   * decoration passes but are not declared in this revision of the catalog;
   * they are added here so that those passes can be modelled.
   */
  datatype Block =
    | GRASS | DIRT | CLAY | GRAVEL | SAND | STONE | BEDROCK | OBSIDIAN
    | COBBLESTONE | MOSS_COBBLESTONE | GOLD_ORE | IRON_ORE | COAL_ORE
    | DIAMOND_ORE | LAPIS_ORE | REDSTONE_ORE | OAKWOOD | WATER1 | GREY_LEAVES

  /** Pixel size of one atlas tile; each constructor argument is multiplied by it. */
  const PIXEL_OFFSET: int := 16

  /** The six constructor arguments of a kind: atlas tile column/row of its top, bottom and side faces. */
  datatype AtlasArgs = AtlasArgs(topX: int, topY: int, bottomX: int, bottomY: int, sideX: int, sideY: int)

  function Args(b: Block): AtlasArgs
  {
    match b
    case GRASS => AtlasArgs(14, 1, 2, 0, 3, 0)
    case DIRT => AtlasArgs(2, 0, 2, 0, 2, 0)
    case CLAY => AtlasArgs(8, 4, 8, 4, 8, 4)
    case GRAVEL => AtlasArgs(3, 1, 3, 1, 3, 1)
    case SAND => AtlasArgs(2, 1, 2, 1, 2, 1)
    case STONE => AtlasArgs(1, 0, 1, 0, 1, 0)
    case BEDROCK => AtlasArgs(1, 1, 1, 1, 1, 1)
    case OBSIDIAN => AtlasArgs(5, 2, 5, 2, 5, 2)
    case COBBLESTONE => AtlasArgs(0, 1, 0, 1, 0, 1)
    case MOSS_COBBLESTONE => AtlasArgs(4, 2, 4, 2, 4, 2)
    case GOLD_ORE => AtlasArgs(0, 2, 0, 2, 0, 2)
    case IRON_ORE => AtlasArgs(1, 2, 1, 2, 1, 2)
    case COAL_ORE => AtlasArgs(2, 2, 2, 2, 2, 2)
    case DIAMOND_ORE => AtlasArgs(2, 3, 2, 3, 2, 3)
    case LAPIS_ORE => AtlasArgs(0, 10, 0, 10, 0, 10)
    case REDSTONE_ORE => AtlasArgs(3, 3, 3, 3, 3, 3)
    case OAKWOOD => AtlasArgs(5, 1, 5, 1, 4, 1)
    // placeholder tiles: these two kinds are not declared in this revision
    case WATER1 => AtlasArgs(13, 12, 13, 12, 13, 12)
    case GREY_LEAVES => AtlasArgs(4, 3, 4, 3, 4, 3)
  }

  /** The offsets as the constructor stores them: each argument times 16, cast to a signed byte. */
  datatype StoredOffsets = StoredOffsets(topX: int, topY: int, bottomX: int, bottomY: int, sideX: int, sideY: int)

  function Stored(b: Block): (s: StoredOffsets)
    ensures -128 <= s.topX < 128 && -128 <= s.topY < 128
    ensures -128 <= s.bottomX < 128 && -128 <= s.bottomY < 128
    ensures -128 <= s.sideX < 128 && -128 <= s.sideY < 128
  {
    var a := Args(b);
    StoredOffsets(
      ToByte(a.topX * PIXEL_OFFSET), ToByte(a.topY * PIXEL_OFFSET),
      ToByte(a.bottomX * PIXEL_OFFSET), ToByte(a.bottomY * PIXEL_OFFSET),
      ToByte(a.sideX * PIXEL_OFFSET), ToByte(a.sideY * PIXEL_OFFSET))
  }

  // The six getters read the stored byte back as an unsigned value.

  function TopX(b: Block): (u: int)
    ensures u == (Args(b).topX * PIXEL_OFFSET) % 256
  {
    ToUnsignedInt(Stored(b).topX)
  }

  function TopY(b: Block): (u: int)
    ensures u == (Args(b).topY * PIXEL_OFFSET) % 256
  {
    ToUnsignedInt(Stored(b).topY)
  }

  function BottomX(b: Block): (u: int)
    ensures u == (Args(b).bottomX * PIXEL_OFFSET) % 256
  {
    ToUnsignedInt(Stored(b).bottomX)
  }

  function BottomY(b: Block): (u: int)
    ensures u == (Args(b).bottomY * PIXEL_OFFSET) % 256
  {
    ToUnsignedInt(Stored(b).bottomY)
  }

  function SideX(b: Block): (u: int)
    ensures u == (Args(b).sideX * PIXEL_OFFSET) % 256
  {
    ToUnsignedInt(Stored(b).sideX)
  }

  function SideY(b: Block): (u: int)
    ensures u == (Args(b).sideY * PIXEL_OFFSET) % 256
  {
    ToUnsignedInt(Stored(b).sideY)
  }

  predicate ArgsInTileRange(a: AtlasArgs)
  {
    && 0 <= a.topX <= 14 && 0 <= a.topY <= 14
    && 0 <= a.bottomX <= 14 && 0 <= a.bottomY <= 14
    && 0 <= a.sideX <= 14 && 0 <= a.sideY <= 14
  }

  /** Every declared kind's arguments lie in 0..14, so no offset wraps and each getter returns exactly argument * 16. */
  lemma OffsetsDoNotWrap(b: Block)
    ensures ArgsInTileRange(Args(b))
    ensures TopX(b) == Args(b).topX * 16 && TopY(b) == Args(b).topY * 16
    ensures BottomX(b) == Args(b).bottomX * 16 && BottomY(b) == Args(b).bottomY * 16
    ensures SideX(b) == Args(b).sideX * 16 && SideY(b) == Args(b).sideY * 16
  {
    var a := Args(b);
    assert ArgsInTileRange(a) by {
      match b
      case _ =>
    }
    TileFits(a.topX);
    TileFits(a.topY);
    TileFits(a.bottomX);
    TileFits(a.bottomY);
    TileFits(a.sideX);
    TileFits(a.sideY);
  }

  lemma TileFits(n: int)
    requires 0 <= n <= 14
    ensures (n * PIXEL_OFFSET) % 256 == n * PIXEL_OFFSET
  {
  }

  /** The grass block's pixel offsets in the atlas. */
  lemma GrassOffsets()
    ensures TopX(GRASS) == 224 && TopY(GRASS) == 16
    ensures BottomX(GRASS) == 32 && BottomY(GRASS) == 0
    ensures SideX(GRASS) == 48 && SideY(GRASS) == 0
  {
    OffsetsDoNotWrap(GRASS);
  }

  /**
   * The solidity flag in force for every kind. The flag lives on the shared
   * kind, so it is a function of the kind alone.
   */
  type Solidity = Block -> bool

  /** Every kind is solid when the catalog is constructed. */
  function DefaultSolidity(): (s: Solidity)
    ensures forall b: Block :: s(b)
  {
    _ => true
  }

  /**
   * `setSolidStateAs(state)` on one kind: the flag changes for that kind,
   * and hence for every cell holding it; every other kind keeps its flag.
   */
  function SetSolidStateAs(s: Solidity, kind: Block, state: bool): (s': Solidity)
    ensures s'(kind) == state
    ensures forall b: Block :: b != kind ==> s'(b) == s(b)
  {
    b => if b == kind then state else s(b)
  }
}
