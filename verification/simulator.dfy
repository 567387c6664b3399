/**
 * The static Simulator of the world package. Its water pass is the same
 * code as the water-flow pass (modelled in WaterFlow); its tree pass runs
 * the same per-column tree logic as the tree pass, but over every active
 * chunk and without reading or setting the tree-decorated flag, so each
 * call may grow trees again.
 */
module Simulator {
  import opened Wrappers
  import opened ChunkGrid
  import opened ChunkSpec
  import opened Region
  import opened TreeDecorator

  /**
   * decorateTreesForActiveRegion: every active chunk is merged, decorated
   * and written back. Each chunk keeps its links and both flags, each of its
   * cells is kept or turned from empty into OAKWOOD or GREY_LEAVES, and it is
   * marked dirty exactly when its grid changed (or it already was). For no
   * active chunks the program's bounds wrap around to a 2 x 2-chunk region
   * of empty cells with nothing to write back, so nothing changes.
   */
  method DecorateTreesForActiveRegion(active: Registry, fbm: Fbm) returns (active': Registry)
    requires NoiseInRange(fbm)
    requires ValidRegistry(active) && IntCoordinates(active.Keys)
    ensures active'.Keys == active.Keys && ValidRegistry(active')
    ensures forall c :: c in active ==>
              active'[c].links == active[c].links &&
              active'[c].oreDecorated == active[c].oreDecorated &&
              active'[c].treeDecorated == active[c].treeDecorated &&
              active'[c].dirty == (active[c].dirty || active'[c].blocks != active[c].blocks)
    ensures forall c, i :: c in active && 0 <= i < VOLUME ==> TreeStep(active[c].blocks[i], active'[c].blocks[i])
  {
    if active == map[] {
      return active;
    }
    var b := RegionBounds(active.Keys);
    var regionBlocks := MergeRegion(active, b);
    label merged:
    DecorateTreesRegion(regionBlocks, fbm);
    assert forall rx, y, rz :: InRegion(b, rx, y, rz) ==> TreeStep(MergedCell(active, b, rx, y, rz), regionBlocks[rx, y, rz]) by {
      forall rx, y, rz | InRegion(b, rx, y, rz)
        ensures TreeStep(MergedCell(active, b, rx, y, rz), regionBlocks[rx, y, rz])
      {
        assert old@merged(regionBlocks[rx, y, rz]) == MergedCell(active, b, rx, y, rz);
      }
    }
    active' := Writeback(active, active.Keys, regionBlocks, b, None);
    WritebackRelates(active, active, b, regionBlocks, None, TreeStep, active');
    forall c | c in active
      ensures active'[c].oreDecorated == active[c].oreDecorated && active'[c].treeDecorated == active[c].treeDecorated
    {
      assert IsDecorated(active'[c], OreFlag) == IsDecorated(active[c], OreFlag);
      assert IsDecorated(active'[c], TreeFlag) == IsDecorated(active[c], TreeFlag);
    }
  }
}
