/**
 * The world: the map of loaded chunks around the player, the chunk cache
 * that holds the data of recently unloaded chunks, and the player's chunk.
 * When the player enters another chunk (or the radius changes) the world
 * loads every chunk of the square around the player that is not loaded,
 * unloads every loaded chunk outside it into the cache, and rewires each
 * loaded chunk's links to its four lateral neighbours.
 *
 * Chunks are values (ChunkState) in a registry keyed by coordinate, and a
 * link names the neighbour's coordinate. What a reader of the chunk cache
 * sees (cached data, else saved data) is its View.
 */
module GameWorld {
  import opened Wrappers
  import opened ChunkGrid
  import opened ChunkSpec
  import opened ChunkLaws
  import opened LruSpec
  import Lru
  import opened PersistStorage
  import opened JavaInt
  import opened ChunkSpiral

  /** Capacity of the chunk cache. */
  const MAX_CONCURRENT_CHUNKS: int := 1
  /** The radius the world starts with. */
  const DEFAULT_LAYER_RADIUS: int := 3

  /** Every grid that can be read back is a full 16 x 256 x 16 grid. */
  predicate AllWellSized(m: map<ChunkCoordinate, Grid>)
  {
    forall c :: c in m ==> WellSized(m[c])
  }

  /** Storing a full grid keeps every stored grid full size. */
  lemma WellSizedUpdate(m: map<ChunkCoordinate, Grid>, k: ChunkCoordinate, v: Grid)
    requires AllWellSized(m) && WellSized(v)
    ensures AllWellSized(m[k := v])
  {
  }

  /** A terrain generator produces a full grid for every coordinate. */
  ghost predicate Generates(terrain: ChunkCoordinate -> Grid)
  {
    forall c :: WellSized(terrain(c))
  }

  /**
   * The chunk the player stands in: the position is cast to int (rounded
   * toward zero), then floor-divided by the chunk size.
   */
  function PlayerChunk(playerX: real, playerZ: real): (c: ChunkCoordinate)
    ensures c.x * CHUNK_X <= Truncate(playerX) < c.x * CHUNK_X + CHUNK_X
    ensures c.z * CHUNK_Z <= Truncate(playerZ) < c.z * CHUNK_Z + CHUNK_Z
  {
    ChunkCoordinate(FloorDiv(Truncate(playerX), CHUNK_X), FloorDiv(Truncate(playerZ), CHUNK_Z))
  }

  /** Each truncated position lies in exactly one chunk: the one PlayerChunk names. */
  lemma PlayerChunkUnique(playerX: real, playerZ: real, c: ChunkCoordinate)
    requires c.x * CHUNK_X <= Truncate(playerX) < c.x * CHUNK_X + CHUNK_X
    requires c.z * CHUNK_Z <= Truncate(playerZ) < c.z * CHUNK_Z + CHUNK_Z
    ensures PlayerChunk(playerX, playerZ) == c
  {
    var p := PlayerChunk(playerX, playerZ);
  }

  /** A new chunk holding the given data: dirty, unlinked, undecorated. */
  function ChunkWithData(data: Grid): ChunkState
  {
    ChunkState(data, NO_LINKS, true, false, false)
  }

  /**
   * createChunkFromSavedData builds a fresh chunk and sets its grid: that
   * is the chunk holding exactly the data, whether or not the data equals
   * the empty grid.
   */
  lemma SetBlockDataOnNew(data: Grid)
    requires WellSized(data)
    ensures SetBlockData(NewState(), data) == ChunkWithData(data)
    ensures ValidState(ChunkWithData(data))
  {
  }

  /** Where a newly loaded chunk's data comes from: the cache's view, else the terrain generator. */
  function Source(saved: map<ChunkCoordinate, Grid>, terrain: ChunkCoordinate -> Grid, c: ChunkCoordinate): Grid
  {
    if c in saved then saved[c] else terrain(c)
  }

  /** The chunk at (x, z) when it is loaded, as chunkMap.get reports it. */
  function Neighbor(keys: set<ChunkCoordinate>, x: int, z: int): (n: Option<ChunkCoordinate>)
    ensures n.Some? <==> ChunkCoordinate(x, z) in keys
    ensures n.Some? ==> n.value == ChunkCoordinate(x, z)
  {
    if ChunkCoordinate(x, z) in keys then Some(ChunkCoordinate(x, z)) else None
  }

  /** The links updateChunkNeighbors gives the chunk at c: front is z + 1, back z - 1, left x - 1, right x + 1. */
  function NeighborLinks(keys: set<ChunkCoordinate>, c: ChunkCoordinate): Links
  {
    Links(Neighbor(keys, c.x, c.z + 1), Neighbor(keys, c.x, c.z - 1),
          Neighbor(keys, c.x - 1, c.z), Neighbor(keys, c.x + 1, c.z))
  }

  /**
   * A chunk linked to the loaded chunks beside c: its links are exactly
   * the lookups, it is marked dirty when any neighbour is loaded, and
   * nothing else about it changes.
   */
  function Rewire(s: ChunkState, keys: set<ChunkCoordinate>, c: ChunkCoordinate): ChunkState
  {
    s.(links := NeighborLinks(keys, c), dirty := s.dirty || NeighborLinks(keys, c) != NO_LINKS)
  }

  /** The four setNeighbor calls of updateChunkNeighbors, in the source's order, rewire the chunk. */
  lemma FourSetNeighborsRewire(s: ChunkState, keys: set<ChunkCoordinate>, c: ChunkCoordinate)
    ensures var l := NeighborLinks(keys, c);
      SetNeighbor(SetNeighbor(SetNeighbor(SetNeighbor(s, FORWARD, l.front), BACKWARD, l.back), LEFT, l.left), RIGHT, l.right)
      == Rewire(s, keys, c)
  {
  }

  /** The old links never matter: chunks that agree apart from their links are rewired alike. */
  lemma RewireForgetsLinks(s: ChunkState, t: ChunkState, keys: set<ChunkCoordinate>, c: ChunkCoordinate)
    requires SameButLinks(s, t)
    ensures Rewire(s, keys, c) == Rewire(t, keys, c)
  {
  }

  /** updateChunkNeighbors took registry `before` to `after`: the same chunks, each rewired. */
  ghost predicate RewiredFrom(before: Registry, after: Registry)
  {
    && after.Keys == before.Keys
    && forall c :: c in after ==> after[c] == Rewire(before[c], after.Keys, c)
  }

  /** The removeIf of manageChunks took `before` to `after`: the required chunks stay, only their links change. */
  ghost predicate UnloadedFrom(before: Registry, required: set<ChunkCoordinate>, after: Registry)
  {
    && (forall c :: c in after <==> c in before && c in required)
    && (forall c :: c in after ==> SameButLinks(after[c], before[c]))
  }

  /** Every chunk of the registry is linked to exactly its loaded lateral neighbours. */
  predicate Wired(reg: Registry)
  {
    forall c :: c in reg ==> reg[c].links == NeighborLinks(reg.Keys, c)
  }

  /**
   * In a wired registry links are symmetric: when c's link in direction d
   * names n, then n is loaded and its opposite link names c. This is what
   * face culling across a chunk border relies on.
   */
  lemma WiredSymmetric(reg: Registry, c: ChunkCoordinate, d: Direction)
    requires Wired(reg) && c in reg && LinkOf(reg[c].links, d).Some?
    ensures var n := LinkOf(reg[c].links, d).value;
      n in reg && LinkOf(reg[n].links, Opposite(d)) == Some(c)
  {
    var n := LinkOf(reg[c].links, d).value;
    assert n in reg;
    match d
    case FORWARD => assert n == ChunkCoordinate(c.x, c.z + 1);
    case BACKWARD => assert n == ChunkCoordinate(c.x, c.z - 1);
    case LEFT => assert n == ChunkCoordinate(c.x - 1, c.z);
    case RIGHT => assert n == ChunkCoordinate(c.x + 1, c.z);
  }

  /**
   * The cache's view after unloading every chunk of reg outside `keep`:
   * each unloaded chunk's data overrides what the view held for it.
   */
  function SaveDropped(saved: map<ChunkCoordinate, Grid>, reg: Registry, keep: set<ChunkCoordinate>): (r: map<ChunkCoordinate, Grid>)
    ensures forall c :: c in reg && c !in keep ==> c in r && r[c] == reg[c].blocks
    ensures forall c :: c in saved && !(c in reg && c !in keep) ==> c in r && r[c] == saved[c]
    ensures forall c :: c in r ==> c in saved || (c in reg && c !in keep)
  {
    map c | c in saved.Keys + (reg.Keys - keep) :: if c in reg && c !in keep then reg[c].blocks else saved[c]
  }

  /** Only the unloaded chunks matter: registries that agree on them give the same view. */
  lemma SaveDroppedAgree(saved: map<ChunkCoordinate, Grid>, reg: Registry, reg': Registry, keep: set<ChunkCoordinate>)
    requires forall c :: c !in keep ==> (c in reg <==> c in reg')
    requires forall c :: c in reg && c !in keep ==> reg[c].blocks == reg'[c].blocks
    ensures SaveDropped(saved, reg, keep) == SaveDropped(saved, reg', keep)
  {
  }

  /** A loaded chunk before rewiring: the one already loaded, else a new chunk of the data its source provides. */
  function Loaded(reg: Registry, saved: map<ChunkCoordinate, Grid>, terrain: ChunkCoordinate -> Grid,
                  c: ChunkCoordinate): ChunkState
    requires Generates(terrain) && AllWellSized(saved)
  {
    if c in reg then reg[c] else ChunkWithData(Source(saved, terrain, c))
  }

  /**
   * `reg` is reg0 after computeIfAbsent over `keys`: exactly the chunks
   * of reg0 and the keys are loaded, each the chunk Loaded names.
   */
  ghost predicate LoadedFrom(reg0: Registry, saved0: map<ChunkCoordinate, Grid>, terrain: ChunkCoordinate -> Grid,
                             keys: set<ChunkCoordinate>, reg: Registry)
    requires Generates(terrain) && AllWellSized(saved0)
  {
    && (forall c :: c in reg <==> c in reg0 || c in keys)
    && (forall c :: c in reg ==> reg[c] == Loaded(reg0, saved0, terrain, c))
  }

  /** One computeIfAbsent more: a loaded chunk is kept, a missing one is created from its source. */
  lemma LoadedFromStep(reg0: Registry, saved0: map<ChunkCoordinate, Grid>, terrain: ChunkCoordinate -> Grid,
                       done: set<ChunkCoordinate>, reg: Registry, c: ChunkCoordinate)
    requires Generates(terrain) && AllWellSized(saved0)
    requires LoadedFrom(reg0, saved0, terrain, done, reg)
    ensures LoadedFrom(reg0, saved0, terrain, done + {c},
                       if c in reg then reg else reg[c := ChunkWithData(Source(saved0, terrain, c))])
  {
  }

  /** LoadedFrom depends on the members of `keys` only. */
  lemma LoadedFromSame(reg0: Registry, saved0: map<ChunkCoordinate, Grid>, terrain: ChunkCoordinate -> Grid,
                       keys: set<ChunkCoordinate>, keys': set<ChunkCoordinate>, reg: Registry)
    requires Generates(terrain) && AllWellSized(saved0)
    requires LoadedFrom(reg0, saved0, terrain, keys, reg)
    requires forall c :: c in keys <==> c in keys'
    ensures LoadedFrom(reg0, saved0, terrain, keys', reg)
  {
  }

  /**
   * The removeIf of manageChunks has visited every chunk of reg0 outside
   * `todo`: the visited chunks that are not required are unloaded and
   * their data overrides the view; every chunk still loaded differs from
   * reg0 only in its links.
   */
  ghost predicate UnloadProgress(reg0: Registry, saved0: map<ChunkCoordinate, Grid>, required: set<ChunkCoordinate>,
                                 todo: set<ChunkCoordinate>, reg: Registry, saved: map<ChunkCoordinate, Grid>)
  {
    && (forall c :: c in todo ==> c in reg0)
    && (forall c :: c in reg <==> c in reg0 && (c in todo || c in required))
    && (forall c :: c in reg ==> SameButLinks(reg[c], reg0[c]))
    && (forall c :: c in saved <==> c in saved0 || (c in reg0 && c !in todo && c !in required))
    && (forall c :: c in saved ==>
          saved[c] == if c in reg0 && c !in todo && c !in required then reg0[c].blocks else saved0[c])
  }

  lemma UnloadStart(reg0: Registry, saved0: map<ChunkCoordinate, Grid>, required: set<ChunkCoordinate>)
    ensures UnloadProgress(reg0, saved0, required, reg0.Keys, reg0, saved0)
  {
  }

  /** Visiting a required chunk keeps it. */
  lemma UnloadKeep(reg0: Registry, saved0: map<ChunkCoordinate, Grid>, required: set<ChunkCoordinate>,
                   todo: set<ChunkCoordinate>, reg: Registry, saved: map<ChunkCoordinate, Grid>, c: ChunkCoordinate)
    requires UnloadProgress(reg0, saved0, required, todo, reg, saved) && c in required
    ensures UnloadProgress(reg0, saved0, required, todo - {c}, reg, saved)
  {
  }

  /** Visiting a chunk that is not required: its data is saved over the view and it is removed. */
  lemma UnloadDrop(reg0: Registry, saved0: map<ChunkCoordinate, Grid>, required: set<ChunkCoordinate>,
                   todo: set<ChunkCoordinate>, reg: Registry, saved: map<ChunkCoordinate, Grid>, c: ChunkCoordinate,
                   reg': Registry, saved': map<ChunkCoordinate, Grid>)
    requires UnloadProgress(reg0, saved0, required, todo, reg, saved)
    requires c in todo && c !in required && c in reg
    requires forall k :: k in reg' <==> k in reg && k != c
    requires forall k :: k in reg' ==> SameButLinks(reg'[k], reg[k])
    requires saved' == saved[c := reg[c].blocks]
    ensures UnloadProgress(reg0, saved0, required, todo - {c}, reg', saved')
  {
  }

  /** Once every chunk is visited, the required ones remain and the view holds the data of the others. */
  lemma UnloadDone(reg0: Registry, saved0: map<ChunkCoordinate, Grid>, required: set<ChunkCoordinate>,
                   reg: Registry, saved: map<ChunkCoordinate, Grid>)
    requires UnloadProgress(reg0, saved0, required, {}, reg, saved)
    ensures UnloadedFrom(reg0, required, reg)
    ensures saved == SaveDropped(saved0, reg0, required)
  {
    assert saved.Keys == SaveDropped(saved0, reg0, required).Keys;
  }

  /**
   * What manageChunks leaves behind, from registry reg0 and cache view
   * saved0: exactly the chunks of the square of the given radius around
   * center are loaded; each is the chunk that was loaded (kept, not
   * replaced) or a new one from the view or the generator, rewired to its
   * neighbours; and every unloaded chunk's data is in the view.
   */
  ghost predicate ManagedFrom(reg0: Registry, saved0: map<ChunkCoordinate, Grid>, terrain: ChunkCoordinate -> Grid,
                              center: ChunkCoordinate, radius: int, reg: Registry, saved: map<ChunkCoordinate, Grid>)
    requires Generates(terrain) && AllWellSized(saved0)
  {
    && (forall c :: c in reg <==> InSquare(center, SpiralRadius(radius), c))
    && (forall c :: c in reg ==> reg[c] == Rewire(Loaded(reg0, saved0, terrain, c), reg.Keys, c))
    && saved == SaveDropped(saved0, reg0, reg.Keys)
  }

  /**
   * After the two passes of manageChunks over the chunk map (load the
   * required chunks, unload the others): exactly the required chunks are
   * loaded, each differs from the chunk Loaded names only in its links,
   * and the view holds the data of every unloaded chunk.
   */
  ghost predicate ReconciledFrom(reg0: Registry, saved0: map<ChunkCoordinate, Grid>, terrain: ChunkCoordinate -> Grid,
                                 required: set<ChunkCoordinate>, reg: Registry, saved: map<ChunkCoordinate, Grid>)
    requires Generates(terrain) && AllWellSized(saved0)
  {
    && (forall c :: c in reg <==> c in required)
    && (forall c :: c in reg ==> SameButLinks(reg[c], Loaded(reg0, saved0, terrain, c)))
    && saved == SaveDropped(saved0, reg0, required)
  }

  /** Loading the required chunks and then unloading the others reconciles the chunk map with them. */
  lemma LoadThenUnload(reg0: Registry, saved0: map<ChunkCoordinate, Grid>, terrain: ChunkCoordinate -> Grid,
                       required: set<ChunkCoordinate>, reg1: Registry, reg2: Registry, saved: map<ChunkCoordinate, Grid>)
    requires Generates(terrain) && AllWellSized(saved0)
    requires LoadedFrom(reg0, saved0, terrain, required, reg1)
    requires UnloadedFrom(reg1, required, reg2)
    requires saved == SaveDropped(saved0, reg1, required)
    ensures ReconciledFrom(reg0, saved0, terrain, required, reg2, saved)
  {
    SaveDroppedAgree(saved0, reg1, reg0, required);
  }

  /** Rewiring the reconciled chunk map, for the square the spiral produced, leaves the world ManagedFrom its start. */
  lemma RewireReconciled(reg0: Registry, saved0: map<ChunkCoordinate, Grid>, terrain: ChunkCoordinate -> Grid,
                         required: set<ChunkCoordinate>, center: ChunkCoordinate, radius: int,
                         reg2: Registry, reg3: Registry, saved: map<ChunkCoordinate, Grid>)
    requires Generates(terrain) && AllWellSized(saved0)
    requires forall c :: c in required <==> InSquare(center, SpiralRadius(radius), c)
    requires ReconciledFrom(reg0, saved0, terrain, required, reg2, saved)
    requires RewiredFrom(reg2, reg3)
    ensures ManagedFrom(reg0, saved0, terrain, center, radius, reg3, saved)
  {
    assert reg3.Keys == required;
    forall c | c in reg3
      ensures reg3[c] == Rewire(Loaded(reg0, saved0, terrain, c), reg3.Keys, c)
    {
      RewireForgetsLinks(reg2[c], Loaded(reg0, saved0, terrain, c), reg3.Keys, c);
    }
  }

  /** After manageChunks every loaded chunk is linked exactly to its loaded neighbours. */
  lemma ManagedWired(reg0: Registry, saved0: map<ChunkCoordinate, Grid>, terrain: ChunkCoordinate -> Grid,
                     center: ChunkCoordinate, radius: int, reg: Registry, saved: map<ChunkCoordinate, Grid>)
    requires Generates(terrain) && AllWellSized(saved0)
    requires ManagedFrom(reg0, saved0, terrain, center, radius, reg, saved)
    ensures Wired(reg)
  {
  }

  /**
   * The world's state: the loaded chunks as a registry of chunk values,
   * the chunk cache as the linked-list LRU of lru.dfy over the files of
   * persistence, the player's chunk (None until the first update) and the
   * layer radius.
   */
  class World {
    var chunkMap: Registry
    const savedChunkData: Lru.LRU
    var currentPlayerChunk: Option<ChunkCoordinate>
    var chunkLayerRadius: int

    /** The cache is a valid LRU of the world's capacity, separate from the world, and every grid it can return is full size. */
    ghost predicate CacheValid()
      reads savedChunkData, savedChunkData.Repr, savedChunkData.storage
    {
      && savedChunkData.Valid() && savedChunkData.cap == MAX_CONCURRENT_CHUNKS
      && (this as object) != savedChunkData && (this as object) != savedChunkData.storage
      && (this as object) !in savedChunkData.Repr
      && AllWellSized(Saved())
    }

    /** The loaded chunks are well formed and the cache is valid. */
    ghost predicate Valid()
      reads this, savedChunkData, savedChunkData.Repr, savedChunkData.storage
    {
      ValidRegistry(chunkMap) && CacheValid()
    }

    /** What the chunk cache shows: cached data, else the data persistence holds. */
    ghost function Saved(): map<ChunkCoordinate, Grid>
      reads savedChunkData, savedChunkData.storage
    {
      View(savedChunkData.Abstract())
    }

    /** A world with no chunks loaded, no player chunk yet, radius 3 and an empty cache over the saved files. */
    constructor (storage: Storage)
      requires AllWellSized(storage.files)
      ensures Valid() && fresh(savedChunkData) && fresh(savedChunkData.Repr) && savedChunkData.storage == storage
      ensures chunkMap == map[] && currentPlayerChunk == None && chunkLayerRadius == DEFAULT_LAYER_RADIUS
      ensures savedChunkData.Abstract() == CacheState([], map[], storage.files) && Saved() == storage.files
    {
      chunkMap := map[];
      savedChunkData := new Lru.LRU(MAX_CONCURRENT_CHUNKS, storage);
      currentPlayerChunk := None;
      chunkLayerRadius := DEFAULT_LAYER_RADIUS;
      new;
      assert Overlay(map[], storage.files) == storage.files;
    }

    /**
     * Records the player's chunk; only when it differs from the current
     * one is the set of loaded chunks recomputed.
     */
    method UpdatePlayerPosition(playerX: real, playerZ: real, terrain: ChunkCoordinate -> Grid)
      requires Valid() && Generates(terrain)
      modifies this`chunkMap, this`currentPlayerChunk
      modifies savedChunkData, savedChunkData.Repr, savedChunkData.storage`files
      ensures Valid() && (forall o :: o in savedChunkData.Repr ==> o in old(savedChunkData.Repr) || fresh(o))
      ensures currentPlayerChunk == Some(PlayerChunk(playerX, playerZ))
      ensures old(currentPlayerChunk) == currentPlayerChunk ==>
        chunkMap == old(chunkMap) && savedChunkData.Abstract() == old(savedChunkData.Abstract())
      ensures old(currentPlayerChunk) != currentPlayerChunk ==>
        ManagedFrom(old(chunkMap), old(Saved()), terrain, PlayerChunk(playerX, playerZ), old(chunkLayerRadius),
                    chunkMap, Saved())
    {
      var newPlayerChunk := PlayerChunk(playerX, playerZ);
      if Some(newPlayerChunk) != currentPlayerChunk {
        currentPlayerChunk := Some(newPlayerChunk);
        ManageChunks(terrain);
      }
    }

    /**
     * Loads the missing chunks of the square around the player, unloads
     * the chunks outside it into the cache, and rewires all links.
     */
    method ManageChunks(terrain: ChunkCoordinate -> Grid)
      requires Valid() && Generates(terrain) && currentPlayerChunk.Some?
      modifies this`chunkMap, savedChunkData, savedChunkData.Repr, savedChunkData.storage`files
      ensures Valid() && (forall o :: o in savedChunkData.Repr ==> o in old(savedChunkData.Repr) || fresh(o))
      ensures ManagedFrom(old(chunkMap), old(Saved()), terrain, old(currentPlayerChunk).value, old(chunkLayerRadius),
                          chunkMap, Saved())
    {
      ghost var reg0, saved0 := chunkMap, Saved();
      ghost var center, radius := currentPlayerChunk.value, chunkLayerRadius;
      var requiredChunks := GenerateChunksInSpiral(currentPlayerChunk.value, chunkLayerRadius);
      LoadAndUnload(requiredChunks, terrain);
      ghost var reg2 := chunkMap;
      UpdateChunkNeighbors();
      RewireReconciled(reg0, saved0, terrain, requiredChunks, center, radius, reg2, chunkMap, Saved());
    }

    /** The two passes of manageChunks over the chunk map: computeIfAbsent over the required chunks, then removeIf. */
    method LoadAndUnload(requiredChunks: set<ChunkCoordinate>, terrain: ChunkCoordinate -> Grid)
      requires Valid() && Generates(terrain)
      modifies this`chunkMap, savedChunkData, savedChunkData.Repr, savedChunkData.storage`files
      ensures Valid() && (forall o :: o in savedChunkData.Repr ==> o in old(savedChunkData.Repr) || fresh(o))
      ensures ReconciledFrom(old(chunkMap), old(Saved()), terrain, requiredChunks, chunkMap, Saved())
    {
      ghost var reg0, saved0 := chunkMap, Saved();
      LoadRequiredChunks(requiredChunks, terrain);
      ghost var reg1 := chunkMap;
      UnloadChunksOutside(requiredChunks);
      LoadThenUnload(reg0, saved0, terrain, requiredChunks, reg1, chunkMap, Saved());
    }

    /** computeIfAbsent over the required chunks: each one not loaded is created and added. */
    method LoadRequiredChunks(requiredChunks: set<ChunkCoordinate>, terrain: ChunkCoordinate -> Grid)
      requires Valid() && Generates(terrain)
      modifies this`chunkMap, savedChunkData, savedChunkData.Repr, savedChunkData.storage`files
      ensures Valid() && (forall o :: o in savedChunkData.Repr ==> o in old(savedChunkData.Repr) || fresh(o)) && Saved() == old(Saved())
      ensures LoadedFrom(old(chunkMap), old(Saved()), terrain, requiredChunks, chunkMap)
    {
      ghost var reg0, saved0 := chunkMap, Saved();
      var todo := requiredChunks;
      ghost var done: set<ChunkCoordinate> := {};
      while todo != {}
        invariant Valid() && (forall o :: o in savedChunkData.Repr ==> o in old(savedChunkData.Repr) || fresh(o)) && Saved() == saved0
        invariant forall c :: c in requiredChunks <==> c in done || c in todo
        invariant LoadedFrom(reg0, saved0, terrain, done, chunkMap)
        decreases |todo|
      {
        var coord :| coord in todo;
        LoadedFromStep(reg0, saved0, terrain, done, chunkMap, coord);
        ComputeIfAbsent(coord, terrain);
        done := done + {coord};
        todo := todo - {coord};
      }
      LoadedFromSame(reg0, saved0, terrain, done, requiredChunks, chunkMap);
    }

    /** chunkMap.computeIfAbsent(coord, this::createChunk): a chunk is created only when none is loaded at coord. */
    method ComputeIfAbsent(coord: ChunkCoordinate, terrain: ChunkCoordinate -> Grid)
      requires Valid() && Generates(terrain)
      modifies this`chunkMap, savedChunkData, savedChunkData.Repr, savedChunkData.storage`files
      ensures Valid() && (forall o :: o in savedChunkData.Repr ==> o in old(savedChunkData.Repr) || fresh(o)) && Saved() == old(Saved())
      ensures chunkMap == if coord in old(chunkMap) then old(chunkMap)
                          else old(chunkMap)[coord := ChunkWithData(Source(old(Saved()), terrain, coord))]
    {
      if coord !in chunkMap {
        var chunk := CreateChunk(coord, terrain);
        ghost var cache, saved := savedChunkData.Abstract(), Saved();
        Store(coord, chunk);
        assert savedChunkData.Abstract() == cache && Saved() == saved;
        assert Valid();
      }
    }

    /** The insertion of computeIfAbsent's new chunk into the loaded chunks. */
    method Store(coord: ChunkCoordinate, chunk: ChunkState)
      requires ValidRegistry(chunkMap) && ValidState(chunk)
      modifies this`chunkMap
      ensures chunkMap == old(chunkMap)[coord := chunk] && ValidRegistry(chunkMap)
    {
      chunkMap := chunkMap[coord := chunk];
    }

    /**
     * removeIf over the loaded chunks: each one outside the required set
     * has its data saved to the cache and is removed.
     */
    method UnloadChunksOutside(requiredChunks: set<ChunkCoordinate>)
      requires Valid()
      modifies this`chunkMap, savedChunkData, savedChunkData.Repr, savedChunkData.storage`files
      ensures Valid() && (forall o :: o in savedChunkData.Repr ==> o in old(savedChunkData.Repr) || fresh(o))
      ensures UnloadedFrom(old(chunkMap), requiredChunks, chunkMap)
      ensures Saved() == SaveDropped(old(Saved()), old(chunkMap), requiredChunks)
    {
      ghost var reg0, saved0 := chunkMap, Saved();
      var todo := chunkMap.Keys;
      UnloadStart(reg0, saved0, requiredChunks);
      while todo != {}
        invariant Valid() && (forall o :: o in savedChunkData.Repr ==> o in old(savedChunkData.Repr) || fresh(o))
        invariant UnloadProgress(reg0, saved0, requiredChunks, todo, chunkMap, Saved())
        decreases |todo|
      {
        var coord :| coord in todo;
        ghost var reg, saved := chunkMap, Saved();
        var removed := UnloadIfOutside(coord, requiredChunks);
        if removed {
          UnloadDrop(reg0, saved0, requiredChunks, todo, reg, saved, coord, chunkMap, Saved());
        } else {
          UnloadKeep(reg0, saved0, requiredChunks, todo, chunkMap, Saved(), coord);
        }
        todo := todo - {coord};
      }
      UnloadDone(reg0, saved0, requiredChunks, chunkMap, Saved());
    }

    /**
     * The predicate removeIf applies to a loaded chunk: a chunk that is not
     * required is saved to the cache and removed (the result says so); a
     * required one is left alone.
     */
    method UnloadIfOutside(coord: ChunkCoordinate, requiredChunks: set<ChunkCoordinate>) returns (removed: bool)
      requires Valid() && coord in chunkMap
      modifies this`chunkMap, savedChunkData, savedChunkData.Repr, savedChunkData.storage`files
      ensures Valid() && (forall o :: o in savedChunkData.Repr ==> o in old(savedChunkData.Repr) || fresh(o))
      ensures removed <==> coord !in requiredChunks
      ensures !removed ==> chunkMap == old(chunkMap) && Saved() == old(Saved())
      ensures removed ==> chunkMap == CleanNeighbors(old(chunkMap), coord) - {coord}
      ensures removed ==> forall k :: k in chunkMap <==> k in old(chunkMap) && k != coord
      ensures removed ==> forall k :: k in chunkMap ==> SameButLinks(chunkMap[k], old(chunkMap)[k])
      ensures removed ==> Saved() == old(Saved())[coord := old(chunkMap)[coord].blocks]
    {
      if coord !in requiredChunks {
        SaveAndRemove(coord);
        return true;
      }
      return false;
    }

    /** A chunk that is not required: its data is saved to the cache, then it is removed from the loaded chunks. */
    method SaveAndRemove(coord: ChunkCoordinate)
      requires Valid() && coord in chunkMap
      modifies this`chunkMap, savedChunkData, savedChunkData.Repr, savedChunkData.storage`files
      ensures Valid() && (forall o :: o in savedChunkData.Repr ==> o in old(savedChunkData.Repr) || fresh(o))
      ensures chunkMap == CleanNeighbors(old(chunkMap), coord) - {coord}
      ensures forall k :: k in chunkMap <==> k in old(chunkMap) && k != coord
      ensures forall k :: k in chunkMap ==> SameButLinks(chunkMap[k], old(chunkMap)[k])
      ensures Saved() == old(Saved())[coord := old(chunkMap)[coord].blocks]
      ensures WellFormed(old(savedChunkData.Abstract())) &&
              savedChunkData.Abstract() == Put(old(savedChunkData.Abstract()), MAX_CONCURRENT_CHUNKS, coord, old(chunkMap)[coord].blocks)
    {
      SaveChunkData(coord);
      ghost var cache, saved := savedChunkData.Abstract(), Saved();
      Forget(coord);
      assert savedChunkData.Abstract() == cache && Saved() == saved;
    }

    /** The removal from the loaded chunks of removeIf. */
    method Forget(coord: ChunkCoordinate)
      requires ValidRegistry(chunkMap)
      modifies this`chunkMap
      ensures chunkMap == old(chunkMap) - {coord} && ValidRegistry(chunkMap)
      ensures forall k :: k in chunkMap <==> k in old(chunkMap) && k != coord
    {
      chunkMap := chunkMap - {coord};
    }

    /** Detaches the chunk from its neighbours and puts a copy of its data into the cache. */
    method SaveChunkData(coord: ChunkCoordinate)
      requires Valid() && coord in chunkMap
      modifies this`chunkMap, savedChunkData, savedChunkData.Repr, savedChunkData.storage`files
      ensures Valid() && (forall o :: o in savedChunkData.Repr ==> o in old(savedChunkData.Repr) || fresh(o))
      ensures chunkMap == CleanNeighbors(old(chunkMap), coord)
      ensures forall k :: k in old(chunkMap) ==> SameButLinks(chunkMap[k], old(chunkMap)[k])
      ensures WellFormed(old(savedChunkData.Abstract())) && savedChunkData.Abstract() == Put(old(savedChunkData.Abstract()), MAX_CONCURRENT_CHUNKS, coord, old(chunkMap)[coord].blocks)
      ensures Saved() == old(Saved())[coord := old(chunkMap)[coord].blocks]
    {
      Cleanup(coord);
      CachePut(coord, chunkMap[coord].blocks);
    }

    /** The cleanup of a chunk that is unloaded: its neighbours forget it and it forgets them. */
    method Cleanup(coord: ChunkCoordinate)
      requires ValidRegistry(chunkMap) && coord in chunkMap
      modifies this`chunkMap
      ensures ValidRegistry(chunkMap) && chunkMap == CleanNeighbors(old(chunkMap), coord)
      ensures forall k :: k in old(chunkMap) ==> SameButLinks(chunkMap[k], old(chunkMap)[k])
    {
      CleanNeighborsOnlyUnlinks(chunkMap, coord);
      chunkMap := CleanNeighbors(chunkMap, coord);
    }

    /** savedChunkData.put: the view now shows the data for coord. */
    method CachePut(coord: ChunkCoordinate, data: Grid)
      requires CacheValid() && WellSized(data)
      modifies savedChunkData, savedChunkData.Repr, savedChunkData.storage`files
      ensures CacheValid() && (forall o :: o in savedChunkData.Repr ==> o in old(savedChunkData.Repr) || fresh(o))
      ensures WellFormed(old(savedChunkData.Abstract())) && savedChunkData.Abstract() == Put(old(savedChunkData.Abstract()), MAX_CONCURRENT_CHUNKS, coord, data)
      ensures Saved() == old(Saved())[coord := data]
    {
      ghost var a := savedChunkData.Abstract();
      ghost var s0 := Saved();
      savedChunkData.Put(coord, data);
      PutView(a, MAX_CONCURRENT_CHUNKS, coord, data);
      WellSizedUpdate(s0, coord, data);
    }

    /** savedChunkData.get: what the view shows for coord, leaving the view unchanged. */
    method CacheGet(coord: ChunkCoordinate) returns (data: Option<Grid>)
      requires CacheValid()
      modifies savedChunkData, savedChunkData.Repr, savedChunkData.storage`files
      ensures CacheValid() && (forall o :: o in savedChunkData.Repr ==> o in old(savedChunkData.Repr) || fresh(o))
      ensures WellFormed(old(savedChunkData.Abstract())) && (data, savedChunkData.Abstract()) == Get(old(savedChunkData.Abstract()), MAX_CONCURRENT_CHUNKS, coord)
      ensures Saved() == old(Saved())
      ensures data == if coord in Saved() then Some(Saved()[coord]) else None
    {
      ghost var a := savedChunkData.Abstract();
      data := savedChunkData.Get(coord);
      GetView(a, MAX_CONCURRENT_CHUNKS, coord);
    }

    /** PersistStorage.loadFromFile after a cache miss: the cache already consulted persistence, so nothing is found. */
    method LoadMissing(coord: ChunkCoordinate) returns (data: Option<Grid>)
      requires CacheValid() && coord !in Saved()
      ensures data == None
    {
      data := savedChunkData.storage.LoadFromFile(coord);
    }

    /**
     * The chunk for coord: from the cache (which falls back to
     * persistence), else a fresh chunk of generated terrain. A lookup never
     * changes what the cache shows.
     */
    method CreateChunk(coord: ChunkCoordinate, terrain: ChunkCoordinate -> Grid) returns (chunk: ChunkState)
      requires CacheValid() && Generates(terrain)
      modifies savedChunkData, savedChunkData.Repr, savedChunkData.storage`files
      ensures CacheValid() && (forall o :: o in savedChunkData.Repr ==> o in old(savedChunkData.Repr) || fresh(o)) && Saved() == old(Saved())
      ensures WellFormed(old(savedChunkData.Abstract())) && savedChunkData.Abstract() == Get(old(savedChunkData.Abstract()), MAX_CONCURRENT_CHUNKS, coord).1
      ensures chunk == ChunkWithData(Source(old(Saved()), terrain, coord)) && ValidState(chunk)
    {
      var existingData := CacheGet(coord);
      if existingData == None {
        existingData := LoadMissing(coord);
      }
      if existingData.Some? {
        chunk := CreateChunkFromSavedData(coord, existingData.value);
        return;
      }
      chunk := ChunkWithData(terrain(coord));
    }

    /** A new chunk whose grid is set to the saved data. */
    method CreateChunkFromSavedData(coord: ChunkCoordinate, blockData: Grid) returns (loadedChunk: ChunkState)
      requires WellSized(blockData)
      ensures loadedChunk == ChunkWithData(blockData)
    {
      loadedChunk := NewState();
      loadedChunk := SetBlockData(loadedChunk, blockData);
      SetBlockDataOnNew(blockData);
    }

    /** Links every loaded chunk to the loaded chunks beside it (or to none). */
    method UpdateChunkNeighbors()
      requires ValidRegistry(chunkMap)
      modifies this`chunkMap
      ensures RewiredFrom(old(chunkMap), chunkMap)
      ensures ValidRegistry(chunkMap) && Wired(chunkMap)
    {
      ghost var reg0 := chunkMap;
      var todo := chunkMap.Keys;
      while todo != {}
        invariant todo <= reg0.Keys && chunkMap.Keys == reg0.Keys
        invariant forall c :: c in todo ==> chunkMap[c] == reg0[c]
        invariant forall c :: c in chunkMap && c !in todo ==> chunkMap[c] == Rewire(reg0[c], reg0.Keys, c)
        decreases |todo|
      {
        var coord :| coord in todo;
        var currentChunk := chunkMap[coord];
        var front := Neighbor(chunkMap.Keys, coord.x, coord.z + 1);
        var back := Neighbor(chunkMap.Keys, coord.x, coord.z - 1);
        var left := Neighbor(chunkMap.Keys, coord.x - 1, coord.z);
        var right := Neighbor(chunkMap.Keys, coord.x + 1, coord.z);
        currentChunk := SetNeighbor(currentChunk, FORWARD, front);
        currentChunk := SetNeighbor(currentChunk, BACKWARD, back);
        currentChunk := SetNeighbor(currentChunk, LEFT, left);
        currentChunk := SetNeighbor(currentChunk, RIGHT, right);
        FourSetNeighborsRewire(chunkMap[coord], chunkMap.Keys, coord);
        chunkMap := chunkMap[coord := currentChunk];
        todo := todo - {coord};
      }
    }

    /** Stores the radius; the loaded chunks are recomputed only once the player's chunk is known. */
    method SetChunkLayerRadius(radius: int, terrain: ChunkCoordinate -> Grid)
      requires Valid() && Generates(terrain)
      modifies this`chunkMap, this`chunkLayerRadius, savedChunkData, savedChunkData.Repr, savedChunkData.storage`files
      ensures Valid() && (forall o :: o in savedChunkData.Repr ==> o in old(savedChunkData.Repr) || fresh(o)) && chunkLayerRadius == radius
      ensures currentPlayerChunk == None ==>
        chunkMap == old(chunkMap) && savedChunkData.Abstract() == old(savedChunkData.Abstract())
      ensures currentPlayerChunk.Some? ==>
        ManagedFrom(old(chunkMap), old(Saved()), terrain, currentPlayerChunk.value, radius, chunkMap, Saved())
    {
      chunkLayerRadius := radius;
      if currentPlayerChunk != None {
        ManageChunks(terrain);
      }
    }
  }
}
