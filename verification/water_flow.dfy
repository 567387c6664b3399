/**
 * The water flow pass: every chunk of the active region is merged into one
 * region array, water spreads from every WATER1 cell, and the region is
 * written back. Spreading is a breadth-first fill over a deque: sideways
 * into the four horizontal neighbours up to distance 7 from the last
 * vertical drop, and downward (y + 1) without limit, resetting the distance
 * to 0 and jumping to the front of the deque. Solidity is sampled once,
 * before anything flows.
 */
module WaterFlow {
  import opened Wrappers
  import opened Blocks
  import opened ChunkGrid
  import opened ChunkSpec
  import opened JavaInt
  import opened Region

  const MAX_DISTANCE: int := 7

  /** A queued cell and its horizontal distance from the water it came from. */
  datatype FlowNode = FlowNode(x: int, y: int, z: int, distance: int)

  /** The four horizontal directions, in the order they are tried: +x, -x, +z, -z. */
  function HorizontalX(i: int): int requires 0 <= i < 4 { if i == 0 then 1 else if i == 1 then -1 else 0 }
  function HorizontalZ(i: int): int requires 0 <= i < 4 { if i == 2 then 1 else if i == 3 then -1 else 0 }

  predicate IsSolidCell(solid: Solidity, c: Cell)
  {
    c.Some? && solid(c.value)
  }

  /** What the pass may do to one cell: a solid cell keeps its block, any other keeps its block or becomes WATER1. */
  predicate WaterStep(solid: Solidity, before: Cell, after: Cell)
  {
    after == before || (after == Some(WATER1) && !IsSolidCell(solid, before))
  }

  predicate SameShape<T, U>(a: array3<T>, b: array3<U>)
  {
    a.Length0 == b.Length0 && a.Length1 == b.Length1 && a.Length2 == b.Length2
  }

  /** A queued node lies in the region and carries a distance in [0, 7]. */
  predicate NodeOk(blocks: array3<Cell>, n: FlowNode)
  {
    InArray3(blocks, n.x, n.y, n.z) && 0 <= n.distance <= MAX_DISTANCE
  }

  // ------------------------------------------------------- termination measure

  /**
   * How many more times a cell's recorded distance can still drop: an
   * unvisited cell (-1) can still take any of the values 7..0, a cell at d
   * any of d-1..0, and each update lowers it strictly.
   */
  function Level(f: int): int
  {
    if f < 0 then MAX_DISTANCE + 2 else f + 1
  }

  /**
   * The tokens left: one (cell, k) pair for each k below the cell's level.
   * Every update of flow removes at least one token, so the number of
   * tokens plus the deque's length bounds the remaining iterations.
   */
  ghost predicate TokensMatch(tokens: set<(Pos, int)>, flow: array3<int>)
    reads flow
  {
    (forall t :: t in tokens ==> InArray3(flow, t.0.x, t.0.y, t.0.z) && 0 <= t.1 < Level(flow[t.0.x, t.0.y, t.0.z])) &&
    (forall x, y, z, k :: InArray3(flow, x, y, z) && 0 <= k < Level(flow[x, y, z]) ==> (Pos(x, y, z), k) in tokens)
  }

  lemma RemoveShrinks<T>(a: set<T>, s: set<T>, e: T)
    requires e in a && e in s
    ensures |a - s| < |a|
  {
    var i := a * s;
    assert e in i;
    assert |a - s| == |a| - |i|;
  }

  /** The tokens of every cell of a flow array whose entries are -1 or in [0, 7]. */
  lemma {:induction false} AllTokens(flow: array3<int>) returns (tokens: set<(Pos, int)>)
    requires forall x, y, z :: InArray3(flow, x, y, z) ==> -1 <= flow[x, y, z] <= MAX_DISTANCE
    ensures TokensMatch(tokens, flow)
  {
    tokens := set x, y, z, k | 0 <= x < flow.Length0 && 0 <= y < flow.Length1 && 0 <= z < flow.Length2 &&
                               0 <= k < MAX_DISTANCE + 2 && k < Level(flow[x, y, z]) :: (Pos(x, y, z), k);
  }

  // ------------------------------------------------------------- set-up loops

  /** The solidity loop: isSolid records, for every cell, whether it holds a block that is solid now. */
  method ComputeSolid(blocks: array3<Cell>, solid: Solidity) returns (isSolid: array3<bool>)
    ensures fresh(isSolid) && SameShape(isSolid, blocks)
    ensures forall x, y, z :: InArray3(blocks, x, y, z) ==> isSolid[x, y, z] == IsSolidCell(solid, blocks[x, y, z])
  {
    isSolid := new bool[blocks.Length0, blocks.Length1, blocks.Length2]((_, _, _) => false);
    for x := 0 to blocks.Length0
      invariant forall i, j, k :: InArray3(blocks, i, j, k) && i < x ==> isSolid[i, j, k] == IsSolidCell(solid, blocks[i, j, k])
    {
      for y := 0 to blocks.Length1
        invariant forall i, j, k :: InArray3(blocks, i, j, k) && (i < x || (i == x && j < y)) ==>
                    isSolid[i, j, k] == IsSolidCell(solid, blocks[i, j, k])
      {
        for z := 0 to blocks.Length2
          invariant forall i, j, k :: InArray3(blocks, i, j, k) && (i < x || (i == x && (j < y || (j == y && k < z)))) ==>
                      isSolid[i, j, k] == IsSolidCell(solid, blocks[i, j, k])
        {
          isSolid[x, y, z] := blocks[x, y, z] != None && solid(blocks[x, y, z].value);
        }
      }
    }
  }

  /** Whether (i, j, k) comes before (x, y, z) in the x, then y, then z order of the set-up loops. */
  predicate Before(i: int, j: int, k: int, x: int, y: int, z: int)
  {
    i < x || (i == x && (j < y || (j == y && k < z)))
  }

  /**
   * The queue loop: every WATER1 cell gets distance 0 and is queued with
   * distance 0; every other cell keeps distance -1.
   */
  method InitialQueue(blocks: array3<Cell>, flow: array3<int>) returns (queue: seq<FlowNode>)
    requires SameShape(flow, blocks)
    requires forall x, y, z :: InArray3(flow, x, y, z) ==> flow[x, y, z] == -1
    modifies flow
    ensures forall x, y, z :: InArray3(flow, x, y, z) ==> flow[x, y, z] == if blocks[x, y, z] == Some(WATER1) then 0 else -1
    ensures forall n :: n in queue ==> NodeOk(blocks, n) && n.distance == 0 && blocks[n.x, n.y, n.z] == Some(WATER1)
    ensures forall x, y, z :: InArray3(blocks, x, y, z) && blocks[x, y, z] == Some(WATER1) ==> FlowNode(x, y, z, 0) in queue
  {
    queue := [];
    for x := 0 to blocks.Length0
      invariant forall i, j, k :: InArray3(flow, i, j, k) ==>
                  flow[i, j, k] == if i < x && blocks[i, j, k] == Some(WATER1) then 0 else -1
      invariant forall n :: n in queue ==> NodeOk(blocks, n) && n.distance == 0 && blocks[n.x, n.y, n.z] == Some(WATER1)
      invariant forall i, j, k :: InArray3(blocks, i, j, k) && i < x && blocks[i, j, k] == Some(WATER1) ==>
                  FlowNode(i, j, k, 0) in queue
    {
      for y := 0 to blocks.Length1
        invariant forall i, j, k :: InArray3(flow, i, j, k) ==>
                    flow[i, j, k] == if Before(i, j, 0, x, y, 0) && blocks[i, j, k] == Some(WATER1) then 0 else -1
        invariant forall n :: n in queue ==> NodeOk(blocks, n) && n.distance == 0 && blocks[n.x, n.y, n.z] == Some(WATER1)
        invariant forall i, j, k :: InArray3(blocks, i, j, k) && Before(i, j, 0, x, y, 0) && blocks[i, j, k] == Some(WATER1) ==>
                    FlowNode(i, j, k, 0) in queue
      {
        for z := 0 to blocks.Length2
          invariant forall i, j, k :: InArray3(flow, i, j, k) ==>
                      flow[i, j, k] == if Before(i, j, k, x, y, z) && blocks[i, j, k] == Some(WATER1) then 0 else -1
          invariant forall n :: n in queue ==> NodeOk(blocks, n) && n.distance == 0 && blocks[n.x, n.y, n.z] == Some(WATER1)
          invariant forall i, j, k :: InArray3(blocks, i, j, k) && Before(i, j, k, x, y, z) && blocks[i, j, k] == Some(WATER1) ==>
                      FlowNode(i, j, k, 0) in queue
        {
          if blocks[x, y, z] == Some(WATER1) {
            flow[x, y, z] := 0;
            queue := queue + [FlowNode(x, y, z, 0)];
          }
        }
      }
    }
  }

  // -------------------------------------------------------------- the fill

  /**
   * The invariant of the fill loop: every recorded distance is -1 or in
   * [0, 7], and a cell with a recorded distance holds water.
   */
  ghost predicate FlowOk(blocks: array3<Cell>, flow: array3<int>)
    reads blocks, flow
  {
    SameShape(flow, blocks) &&
    (forall x, y, z :: InArray3(blocks, x, y, z) ==> -1 <= flow[x, y, z] <= MAX_DISTANCE) &&
    (forall x, y, z :: InArray3(blocks, x, y, z) && flow[x, y, z] != -1 ==> blocks[x, y, z] == Some(WATER1))
  }

  /** Whether (i, j, k) is a cell other than (x, y, z). */
  predicate Other(i: int, j: int, k: int, x: int, y: int, z: int)
  {
    i != x || j != y || k != z
  }

  /**
   * Offers distance d to cell (x, y, z): a non-solid cell that is unvisited
   * or recorded farther than d becomes WATER1 at distance d.
   */
  method TryFlow(blocks: array3<Cell>, flow: array3<int>, isSolid: array3<bool>, x: int, y: int, z: int, d: int,
                 ghost tokens: set<(Pos, int)>)
    returns (updated: bool, ghost tokens': set<(Pos, int)>)
    requires InArray3(blocks, x, y, z) && 0 <= d <= MAX_DISTANCE && SameShape(isSolid, blocks)
    requires FlowOk(blocks, flow) && TokensMatch(tokens, flow)
    modifies blocks, flow
    ensures FlowOk(blocks, flow) && TokensMatch(tokens', flow)
    ensures updated <==> !isSolid[x, y, z] && (old(flow[x, y, z]) == -1 || old(flow[x, y, z]) > d)
    ensures updated ==> blocks[x, y, z] == Some(WATER1) && flow[x, y, z] == d && |tokens'| < |tokens|
    ensures !updated ==> tokens' == tokens
    ensures forall i, j, k :: InArray3(blocks, i, j, k) && Other(i, j, k, x, y, z) ==>
              blocks[i, j, k] == old(blocks[i, j, k]) && flow[i, j, k] == old(flow[i, j, k])
    ensures !updated ==> blocks[x, y, z] == old(blocks[x, y, z]) && flow[x, y, z] == old(flow[x, y, z])
  {
    tokens' := tokens;
    updated := false;
    if !isSolid[x, y, z] && (flow[x, y, z] == -1 || flow[x, y, z] > d) {
      ghost var before := Level(flow[x, y, z]);
      assert (Pos(x, y, z), before - 1) in tokens;
      blocks[x, y, z] := Some(WATER1);
      flow[x, y, z] := d;
      ghost var gone := set k | d + 1 <= k < before :: (Pos(x, y, z), k);
      tokens' := tokens - gone;
      assert (Pos(x, y, z), before - 1) in gone;
      RemoveShrinks(tokens, gone, (Pos(x, y, z), before - 1));
      updated := true;
    }
  }

  /**
   * One iteration of the fill for the node taken from the front of the
   * deque: its horizontal neighbours inside the region are offered distance
   * + 1 while the distance is below 7 and are queued at the back; then the
   * cell below is offered distance 0 and is queued at the front.
   */
  method FlowStep(blocks: array3<Cell>, flow: array3<int>, isSolid: array3<bool>, node: FlowNode, rest: seq<FlowNode>,
                  ghost tokens: set<(Pos, int)>)
    returns (queue: seq<FlowNode>, ghost tokens': set<(Pos, int)>, ghost sideways: seq<FlowNode>)
    requires NodeOk(blocks, node) && forall n :: n in rest ==> NodeOk(blocks, n)
    requires SameShape(isSolid, blocks) && FlowOk(blocks, flow) && TokensMatch(tokens, flow)
    modifies blocks, flow
    ensures FlowOk(blocks, flow) && TokensMatch(tokens', flow)
    ensures forall x, y, z :: InArray3(blocks, x, y, z) ==>
              blocks[x, y, z] == old(blocks[x, y, z]) || (blocks[x, y, z] == Some(WATER1) && !isSolid[x, y, z])
    ensures forall n :: n in queue ==> NodeOk(blocks, n)
    ensures |tokens'| + |queue| <= |tokens| + |rest|
    ensures forall n :: n in sideways ==>
              n.y == node.y && n.distance == node.distance + 1 && Abs(n.x - node.x) + Abs(n.z - node.z) == 1
    ensures queue == rest + sideways ||
            (node.y + 1 < blocks.Length1 && queue == [FlowNode(node.x, node.y + 1, node.z, 0)] + rest + sideways)
  {
    queue := rest;
    tokens' := tokens;
    sideways := [];
    var x, y, z, d := node.x, node.y, node.z, node.distance;
    for i := 0 to 4
      invariant FlowOk(blocks, flow) && TokensMatch(tokens', flow)
      invariant forall x, y, z :: InArray3(blocks, x, y, z) ==>
                  blocks[x, y, z] == old(blocks[x, y, z]) || (blocks[x, y, z] == Some(WATER1) && !isSolid[x, y, z])
      invariant queue == rest + sideways
      invariant forall n :: n in queue ==> NodeOk(blocks, n)
      invariant |tokens'| + |sideways| <= |tokens|
      invariant forall n :: n in sideways ==>
                  n.y == y && n.distance == d + 1 && Abs(n.x - x) + Abs(n.z - z) == 1
    {
      var nx, ny, nz := x + HorizontalX(i), y, z + HorizontalZ(i);
      if nx < 0 || nx >= blocks.Length0 || nz < 0 || nz >= blocks.Length2 {
        continue;
      }
      if d < MAX_DISTANCE {
        var updated;
        updated, tokens' := TryFlow(blocks, flow, isSolid, nx, ny, nz, d + 1, tokens');
        if updated {
          sideways := sideways + [FlowNode(nx, ny, nz, d + 1)];
          queue := queue + [FlowNode(nx, ny, nz, d + 1)];
        }
      }
    }
    var below := y + 1;
    if below < blocks.Length1 {
      var updated;
      updated, tokens' := TryFlow(blocks, flow, isSolid, x, below, z, 0, tokens');
      if updated {
        queue := [FlowNode(x, below, z, 0)] + queue;
      }
    }
  }

  /**
   * The fill over one region. Afterwards every solid cell holds the block
   * it started with, every other cell holds its old block or WATER1, and
   * every cell that started as WATER1 still is.
   */
  method SimulateWaterFlowRegion(blocks: array3<Cell>, solid: Solidity)
    modifies blocks
    ensures forall x, y, z :: InArray3(blocks, x, y, z) ==> WaterStep(solid, old(blocks[x, y, z]), blocks[x, y, z])
  {
    var flow := new int[blocks.Length0, blocks.Length1, blocks.Length2]((_, _, _) => -1);
    var isSolid := ComputeSolid(blocks, solid);
    var queue := InitialQueue(blocks, flow);
    ghost var tokens := AllTokens(flow);
    while queue != []
      invariant FlowOk(blocks, flow) && TokensMatch(tokens, flow)
      invariant forall x, y, z :: InArray3(blocks, x, y, z) ==> isSolid[x, y, z] == IsSolidCell(solid, old(blocks[x, y, z]))
      invariant forall x, y, z :: InArray3(blocks, x, y, z) ==> WaterStep(solid, old(blocks[x, y, z]), blocks[x, y, z])
      invariant forall n :: n in queue ==> NodeOk(blocks, n)
      decreases |tokens| + |queue|
    {
      var node := queue[0];
      ghost var sideways;
      queue, tokens, sideways := FlowStep(blocks, flow, isSolid, node, queue[1..], tokens);
    }
  }

  /**
   * simulateWaterFlowForActiveRegion: snapshot the active chunks, merge
   * them, fill, and write every chunk back. Each chunk cell ends as the
   * water rule allows, its links and decoration flags are kept, and a chunk
   * is marked dirty exactly when its grid changed (or it already was).
   * With no active chunk there is nothing to write back: the bounds loop
   * then leaves the extreme values, and their 32-bit difference gives a
   * region of 2 by 2 chunks with no chunk in it.
   */
  method SimulateWaterFlowForActiveRegion(active: Registry, solid: Solidity) returns (active': Registry)
    requires ValidRegistry(active) && IntCoordinates(active.Keys)
    ensures active'.Keys == active.Keys && ValidRegistry(active')
    ensures forall c, i :: c in active && 0 <= i < VOLUME ==> WaterStep(solid, active[c].blocks[i], active'[c].blocks[i])
    ensures forall c :: c in active ==>
              active'[c].links == active[c].links && active'[c].oreDecorated == active[c].oreDecorated &&
              active'[c].treeDecorated == active[c].treeDecorated &&
              active'[c].dirty == (active[c].dirty || active'[c].blocks != active[c].blocks)
  {
    if active == map[] {
      return active;
    }
    var snapshot := active;
    var b := RegionBounds(snapshot.Keys);
    var regionBlocks := MergeRegion(snapshot, b);
    SimulateWaterFlowRegion(regionBlocks, solid);
    active' := Writeback(active, snapshot.Keys, regionBlocks, b, None);
    WritebackRelates(active, snapshot, b, regionBlocks, None, (p, q) => WaterStep(solid, p, q), active');
    forall c | c in active
      ensures active'[c].oreDecorated == active[c].oreDecorated && active'[c].treeDecorated == active[c].treeDecorated
    {
      assert IsDecorated(active'[c], OreFlag) == IsDecorated(active[c], OreFlag);
      assert IsDecorated(active'[c], TreeFlag) == IsDecorated(active[c], TreeFlag);
    }
  }
}
