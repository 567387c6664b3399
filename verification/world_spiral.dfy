/**
 * The square spiral that enumerates the chunks the world keeps loaded.
 * Starting at the origin chunk the walk goes right 1, up 1, left 2, down 2,
 * right 3, up 3, ... (two legs per leg length), and stops once it has
 * visited (2r + 1)^2 chunks: then it has covered exactly the square of
 * chunks at most r away from the origin along each axis.
 *
 * The walk's position within the spiral is a `Walk`: the current leg
 * length (`layer`), how many legs of that length are finished (`turned`)
 * and how many steps of the current leg are taken (`done`), together with
 * the chunk the walk started from (`start`).
 */
module ChunkSpiral {
  import opened ChunkGrid

  /** A displacement in chunks along x and z. */
  datatype Delta = Delta(dx: int, dz: int)

  /** The i-th entry of the walk's direction table: right, up, left, down. */
  function Direction(i: int): Delta
    requires 0 <= i < 4
  {
    if i == 0 then Delta(1, 0) else if i == 1 then Delta(0, 1) else if i == 2 then Delta(-1, 0) else Delta(0, -1)
  }

  /**
   * The current leg has length 2 * half + 1 (odd legs go right, then up)
   * or 2 * half + 2 (even legs go left, then down).
   */
  datatype Walk = Walk(start: ChunkCoordinate, half: int, even: bool, turned: int, done: int)

  /** The length of the current leg: Java's `layer`. */
  function Layer(w: Walk): int
  {
    2 * w.half + if w.even then 2 else 1
  }

  /** A reachable position of the walk: some leg, part-way done. */
  predicate Phase(w: Walk)
  {
    w.half >= 0 && 0 <= w.turned <= 1 && 0 <= w.done < Layer(w)
  }

  /** Offset and cover are also defined at the end of a leg, before the turn. */
  predicate OnLeg(w: Walk)
  {
    w.half >= 0 && 0 <= w.turned <= 1 && 0 <= w.done <= Layer(w)
  }

  /** Index into the direction table of the current leg. */
  function Heading(w: Walk): (d: int)
    requires OnLeg(w)
    ensures 0 <= d < 4
  {
    if w.even then 2 + w.turned else w.turned
  }

  /** Where the walk stands, relative to the origin. */
  function Offset(w: Walk): Delta
    requires OnLeg(w)
  {
    var m, p := w.half, w.done;
    if !w.even then
      if w.turned == 0 then Delta(-m + p, -m) else Delta(m + 1, -m + p)
    else
      if w.turned == 0 then Delta(m + 1 - p, m + 1) else Delta(-m - 1, m + 1 - p)
  }

  /**
   * The offsets visited so far: the rectangle the finished legs enclose,
   * plus the part of the current leg walked along its outside.
   */
  predicate Covered(w: Walk, dx: int, dz: int)
    requires OnLeg(w)
  {
    var m, p := w.half, w.done;
    if !w.even then
      if w.turned == 0 then
        (-m <= dx <= m && -m + 1 <= dz <= m) || (dz == -m && -m <= dx <= -m + p)
      else
        (-m <= dx <= m && -m <= dz <= m) || (dx == m + 1 && -m <= dz <= -m + p)
    else
      if w.turned == 0 then
        (-m <= dx <= m + 1 && -m <= dz <= m) || (dz == m + 1 && m + 1 - p <= dx <= m + 1)
      else
        (-m <= dx <= m + 1 && -m <= dz <= m + 1) || (dx == -m - 1 && m + 1 - p <= dz <= m + 1)
  }

  /** How many chunks have been visited. */
  function Count(w: Walk): int
  {
    var L := Layer(w);
    Pronic(L) + (if w.turned == 1 then L else 0) + w.done + 1
  }

  /** The chunks of all finished leg pairs before legs of length L: 2 + 4 + ... + 2 (L - 1). */
  function Pronic(L: int): int
  {
    if L <= 1 then 0 else Pronic(L - 1) + 2 * (L - 1)
  }

  lemma {:induction false} PronicIs(L: int)
    requires L >= 1
    ensures Pronic(L) == L * (L - 1)
  {
    if L > 1 {
      PronicIs(L - 1);
      assert L * (L - 1) == (L - 1) * (L - 2) + 2 * (L - 1);
    }
  }

  /**
   * The walk after one more step: Java's `layerProcessed++`, the turn when
   * the leg is done, and the longer leg after two turns.
   */
  function Next(w: Walk): Walk
  {
    if w.done + 1 < Layer(w) then w.(done := w.done + 1)
    else if w.turned == 0 then w.(turned := 1, done := 0)
    else if w.even then w.(half := w.half + 1, even := false, turned := 0, done := 0)
    else w.(even := true, turned := 0, done := 0)
  }

  /** The chunk at most r away from the origin along both axes. */
  predicate InSquare(origin: ChunkCoordinate, r: int, c: ChunkCoordinate)
  {
    origin.x - r <= c.x <= origin.x + r && origin.z - r <= c.z <= origin.z + r
  }

  /** The square the walk fills: (2r + 1)^2 chunks is the same target as (2R + 1)^2 with R = -r - 1 for negative r. */
  function SpiralRadius(layerLimit: int): nat
  {
    if layerLimit >= 0 then layerLimit else -layerLimit - 1
  }

  /** The loop's bound is the number of chunks in that square, and at least one. */
  lemma SpiralTarget(layerLimit: int)
    ensures var r := SpiralRadius(layerLimit);
      (2 * layerLimit + 1) * (2 * layerLimit + 1) == (2 * r + 1) * (2 * r + 1) >= 1
  {
    var r := SpiralRadius(layerLimit);
    if layerLimit < 0 {
      assert 2 * r + 1 == -(2 * layerLimit + 1);
    }
    MulMono(1, 1, 2 * r + 1, 2 * r + 1);
  }

  /** Reaching the end of a leg is the same position and cover as starting the next one. */
  lemma EndOfLeg(w: Walk, dx: int, dz: int)
    requires Phase(w) && w.done + 1 == Layer(w)
    ensures Phase(Next(w)) && Offset(Next(w)) == Offset(w.(done := Layer(w)))
    ensures Covered(Next(w), dx, dz) <==> Covered(w.(done := Layer(w)), dx, dz)
  {
  }

  /** Each step visits one more chunk. */
  lemma CountNext(w: Walk)
    requires Phase(w)
    ensures Count(Next(w)) == Count(w) + 1
  {
    if w.done + 1 == Layer(w) && w.turned == 1 {
      assert Layer(Next(w)) == Layer(w) + 1;
    }
  }

  /**
   * One step of the walk moves one chunk along the current heading and
   * turns exactly when a leg is finished.
   */
  lemma StepMoves(w: Walk)
    requires Phase(w)
    ensures Phase(Next(w))
    ensures Offset(Next(w)) == Delta(Offset(w).dx + Direction(Heading(w)).dx, Offset(w).dz + Direction(Heading(w)).dz)
    ensures Heading(Next(w)) == if w.done + 1 == Layer(w) then (Heading(w) + 1) % 4 else Heading(w)
  {
    if w.done + 1 == Layer(w) {
      EndOfLeg(w, 0, 0);
    }
  }

  /** The chunk a step moves to has not been visited before. */
  lemma StepIsNew(w: Walk)
    requires Phase(w)
    ensures Phase(Next(w)) && !Covered(w, Offset(Next(w)).dx, Offset(Next(w)).dz)
  {
    if w.done + 1 == Layer(w) {
      EndOfLeg(w, 0, 0);
    }
  }

  /** The step adds exactly the chunk it moves to. */
  lemma StepCovers(w: Walk, dx: int, dz: int)
    requires Phase(w)
    ensures Covered(Next(w), dx, dz) <==> Covered(w, dx, dz) || Delta(dx, dz) == Offset(Next(w))
  {
    if w.done + 1 == Layer(w) {
      EndOfLeg(w, dx, dz);
    }
  }

  /** The chunk c has been visited by the walk. */
  predicate CoveredAt(w: Walk, c: ChunkCoordinate)
    requires OnLeg(w)
  {
    Covered(w, c.x - w.start.x, c.z - w.start.z)
  }

  /** `result` holds exactly the chunks the walk has visited. */
  ghost predicate Visited(w: Walk, result: set<ChunkCoordinate>)
    requires OnLeg(w)
  {
    forall c {:trigger CoveredAt(w, c)} :: c in result <==> CoveredAt(w, c)
  }

  /** Adding the chunk the step moves to gives the chunks visited after the step; that chunk is new. */
  lemma StepVisits(w: Walk, result: set<ChunkCoordinate>, c: ChunkCoordinate)
    requires Phase(w) && Visited(w, result)
    requires Delta(c.x - w.start.x, c.z - w.start.z) == Offset(Next(w))
    ensures c !in result && Visited(Next(w), result + {c})
  {
    StepIsNew(w);
    assert !CoveredAt(w, c);
    forall c' ensures c' in result + {c} <==> CoveredAt(Next(w), c') {
      assert c' in result <==> CoveredAt(w, c');
      StepCovers(w, c'.x - w.start.x, c'.z - w.start.z);
    }
  }

  /** Only the last position of the first leg of length 2r + 1 has visited (2r + 1)^2 chunks. */
  lemma SpiralCount(w: Walk, r: int)
    requires Phase(w) && r >= 0 && Count(w) == (2 * r + 1) * (2 * r + 1)
    ensures w == Walk(w.start, r, false, 0, 2 * r)
  {
    var L, K := Layer(w), 2 * r + 1;
    if L <= K - 1 {
      BelowTarget(w, K);
      assert false;
    } else if L >= K + 1 {
      AboveTarget(w, K);
      assert false;
    }
    PronicIs(K);
    Pronic2(K);
  }

  /** Before legs of length K, fewer than K^2 chunks are visited. */
  lemma BelowTarget(w: Walk, K: int)
    requires Phase(w) && 1 <= Layer(w) <= K - 1
    ensures Count(w) < K * K
  {
    var L := Layer(w);
    PronicIs(L);
    Pronic2(L);
    Pronic2(K);
    MulMono(L, L + 1, K - 1, K);
    assert Count(w) <= L * (L + 1);
    assert (K - 1) * K == K * K - K;
  }

  /** Once legs are longer than K, more than K^2 chunks are visited. */
  lemma AboveTarget(w: Walk, K: int)
    requires Phase(w) && K >= 0 && Layer(w) >= K + 1
    ensures Count(w) > K * K
  {
    var L := Layer(w);
    PronicIs(L);
    MulMono(K + 1, K, L, L - 1);
    assert (K + 1) * K == K * K + K;
  }

  /** n (n + 1) is n (n - 1) + 2n, and n n is n (n - 1) + n. */
  lemma Pronic2(n: int)
    ensures n * (n + 1) == n * (n - 1) + 2 * n
    ensures n * n == n * (n - 1) + n
  {
  }

  /** When (2r + 1)^2 chunks are visited, the cover is the square of radius r. */
  lemma SpiralEnd(w: Walk, r: int, dx: int, dz: int)
    requires Phase(w) && r >= 0 && Count(w) == (2 * r + 1) * (2 * r + 1)
    ensures Covered(w, dx, dz) <==> -r <= dx <= r && -r <= dz <= r
  {
    SpiralCount(w, r);
  }

  lemma MulMono(a: int, b: int, c: int, d: int)
    requires 0 <= a <= c && 0 <= b <= d
    ensures a * b <= c * d
  {
    assert a * b <= c * b;
  }

  /** The walk starts on the origin chunk, heading right on a leg of length 1, having visited that chunk alone. */
  lemma WalkStarts(w: Walk)
    requires w == Walk(w.start, 0, false, 0, 0)
    ensures Phase(w) && Layer(w) == 1 && Heading(w) == 0 && Offset(w) == Delta(0, 0) && Count(w) == 1
    ensures Visited(w, {w.start})
  {
  }

  /** An odd square, or any square of a non-zero number, is at least one. */
  lemma SquarePositive(k: int)
    requires k != 0
    ensures k * k >= 1
  {
    if k < 0 {
      MulMono(1, 1, -k, -k);
    } else {
      MulMono(1, 1, k, k);
    }
  }

  /** Once the walk has visited the loop's target number of chunks, it has visited the square. */
  lemma SpiralDone(layerLimit: int, w: Walk, result: set<ChunkCoordinate>)
    requires Phase(w) && Visited(w, result) && Count(w) == (2 * layerLimit + 1) * (2 * layerLimit + 1)
    ensures forall c :: c in result <==> InSquare(w.start, SpiralRadius(layerLimit), c)
  {
    var R := SpiralRadius(layerLimit);
    SpiralTarget(layerLimit);
    forall c ensures c in result <==> InSquare(w.start, R, c) {
      assert c in result <==> CoveredAt(w, c);
      SpiralEnd(w, R, c.x - w.start.x, c.z - w.start.z);
    }
  }

  /**
   * The loop's bookkeeping after each step: one more step on the leg, a turn
   * when the leg is done, and a longer leg after every second turn. It moves
   * the counters to the next position of the walk.
   */
  method Advance(ghost w: Walk, layer: int, layerProcessed: int, numTurned: int, directionIndex: int)
    returns (layer': int, layerProcessed': int, numTurned': int, directionIndex': int)
    requires Phase(w) && layer == Layer(w) && numTurned == w.turned && layerProcessed == w.done
    requires directionIndex == Heading(w)
    ensures Phase(Next(w)) && layer' == Layer(Next(w)) && numTurned' == Next(w).turned && layerProcessed' == Next(w).done
    ensures directionIndex' == Heading(Next(w))
  {
    StepMoves(w);
    layer', layerProcessed', numTurned', directionIndex' := layer, layerProcessed + 1, numTurned, directionIndex;
    if layerProcessed' == layer' {
      numTurned' := numTurned' + 1;
      layerProcessed' := 0;
      directionIndex' := (directionIndex' + 1) % 4;
    }
    if numTurned' == 2 {
      numTurned' := 0;
      layer' := layer' + 1;
    }
  }

  /**
   * The chunks the world keeps loaded around `origin`: the walk of
   * World.generateChunksInSpiral, which stops once (2 * layerLimit + 1)^2
   * chunks are collected. That is the square of radius layerLimit, and for a
   * negative limit the square of radius -layerLimit - 1 (the bound is the
   * same square number).
   */
  method GenerateChunksInSpiral(origin: ChunkCoordinate, layerLimit: int) returns (result: set<ChunkCoordinate>)
    ensures forall c :: c in result <==> InSquare(origin, SpiralRadius(layerLimit), c)
    ensures |result| == (2 * layerLimit + 1) * (2 * layerLimit + 1)
  {
    ghost var N := (2 * layerLimit + 1) * (2 * layerLimit + 1);
    SquarePositive(2 * layerLimit + 1);
    result := {};
    var x := origin.x;
    var z := origin.z;
    result := result + {ChunkCoordinate(x, z)};

    var layer := 1;
    var layerProcessed := 0;
    var numTurned := 0;
    var directionIndex := 0;
    ghost var w := Walk(origin, 0, false, 0, 0);
    WalkStarts(w);
    while |result| < (2 * layerLimit + 1) * (2 * layerLimit + 1)
      invariant Phase(w) && layer == Layer(w) && numTurned == w.turned && layerProcessed == w.done
      invariant directionIndex == Heading(w)
      invariant w.start == origin && Delta(x - origin.x, z - origin.z) == Offset(w)
      invariant Visited(w, result)
      invariant |result| == Count(w) <= N
      decreases N - |result|
    {
      StepMoves(w);
      CountNext(w);
      x := x + Direction(directionIndex).dx;
      z := z + Direction(directionIndex).dz;
      var c := ChunkCoordinate(x, z);
      StepVisits(w, result, c);
      result := result + {c};

      layer, layerProcessed, numTurned, directionIndex := Advance(w, layer, layerProcessed, numTurned, directionIndex);
      w := Next(w);
    }
    SpiralDone(layerLimit, w, result);
  }
}
