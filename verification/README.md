# Minecraft-Java world core in Dafny

This project models the world core of a small voxel game written in Java.
The world is a map of loaded 16 × 256 × 16 chunks around the player, kept up
to date as the player moves. A chunk's grid comes from a small LRU cache of
unloaded chunks, or from per-chunk files behind that cache, or from the
terrain generator. Each chunk stores a grid of block kinds, links to its four
lateral neighbours, a dirty flag and two decoration flags. From its grid it
builds a vertex buffer of visible faces, culling faces that touch solid
neighbours, also across chunk borders.

Decoration passes run over all active chunks merged into one region:
ores, trees and water flow. The terrain generator fills a chunk from biome
noise, caves and ore bands; the chunk loader's two fillers make flat and
natural test terrain. The y axis grows downward, so y = 0 is the sky and
y = 255 the bedrock floor.

Layout, one module per source file or concept:

- `grid.dfy` (ChunkGrid): chunk dimensions, flat grid indexing, coordinates, directions.
- `blocks.dfy` (Blocks): block kinds, atlas offsets stored as bytes, solidity.
- `java_int.dfy` (JavaInt): Java's truncating `/` and `%`, `(int)` of a real, `floorDiv`, byte casts.
- `chunk_spec.dfy` (ChunkSpec): the chunk as a value (`ChunkState`), the registry of chunks, face-culling predicates.
- `chunk.dfy` (Chunks): the `Chunk` class over an array grid and two `FloatArray` buffers; mesh building.
- `chunk_laws.dfy` (ChunkLaws): lemmas about chunk operations, unlinking and culling.
- `mesh_table.dfy` (MeshTable): the tabulated mesh that the mesh-building loops fill.
- `vertex.dfy` (Vertex): face quads, texture coordinates and vertex layout.
- `float_array.dfy` (FloatArrays): the growable float buffer.
- `lru_spec.dfy` (LruSpec) and `lru.dfy` (Lru): the cache as a value and as a doubly linked list with a map.
- `persist_storage.dfy` (PersistStorage): chunk files as a map.
- `world_spiral.dfy` (ChunkSpiral): the square spiral of required chunks.
- `world.dfy` (GameWorld): the `World` class (player chunk, load, unload, rewire).
- `terrain.dfy` (TerrainGen): biome blending, column surfaces, caves and ore bands.
- `chunk_loader.dfy` (TerrainFill): the flat and natural fillers.
- `region.dfy` (Region): merging chunks into a region array and writing the region back.
- `ore_decorator.dfy`, `tree_decorator.dfy`, `water_flow.dfy`, `simulator.dfy`: the decoration passes.

Noise and randomness are parameters. Perlin noise is a function oracle
(`Noise`, `ColumnNoise`, `Fbm`), and `java.util.Random` is a draw oracle
indexed by a counter (`Random`). Files on disk are the map `Storage.files`.
Floats are `real`.

Source paths below are relative to the repository root.

## Model

| member | source | states |
|---|---|---|
| GameWorld.PlayerChunk | src/main/java/com/game/minecraft/world/World.java:21-25 | the player's chunk is the one whose 16-wide cell range contains the truncated player position, on both axes |
| GameWorld.PlayerChunkUnique | src/main/java/com/game/minecraft/world/World.java:22-23 | any chunk whose range contains the truncated position is the player's chunk, so the floor division picks exactly one |
| GameWorld.FourSetNeighborsRewire | src/main/java/com/game/minecraft/world/World.java:97-104 | the four setNeighbor calls (front z+1, back z-1, left x-1, right x+1) together set exactly the chunk's loaded-neighbour links |
| GameWorld.RewireForgetsLinks | src/main/java/com/game/minecraft/world/World.java:92-105 | rewiring does not depend on a chunk's old links: two chunks that differ only in links rewire to the same chunk |
| GameWorld.WiredSymmetric | src/main/java/com/game/minecraft/world/World.java:92-105 | after rewiring, links are symmetric: if c links to n in direction d, then n is loaded and links back to c in the opposite direction |
| GameWorld.SaveDropped | src/main/java/com/game/minecraft/world/World.java:44-50 | the cache view after unloading holds each dropped chunk's grid, keeps every other entry, and holds nothing else |
| GameWorld.SaveDroppedAgree | src/main/java/com/game/minecraft/world/World.java:44-50 | what unloading saves depends only on the grids of the dropped chunks, so changing the links of kept chunks does not change it |
| GameWorld.LoadThenUnload | src/main/java/com/game/minecraft/world/World.java:37-50 | loading the required chunks and then removing the others leaves exactly the required chunks, each loaded from its source, with dropped grids in the cache view |
| GameWorld.RewireReconciled | src/main/java/com/game/minecraft/world/World.java:33-55 | rewiring a reconciled chunk map gives the state manageChunks promises: the square around the player, each chunk from its source and linked to its loaded neighbours |
| GameWorld.ManagedWired | src/main/java/com/game/minecraft/world/World.java:33-55 | after manageChunks every link is symmetric (the chunk map is wired) |
| GameWorld.World.constructor | src/main/java/com/game/minecraft/world/World.java:14-19 | a new world has no chunks, no player chunk, layer radius 3, and an empty cache over the given files |
| GameWorld.World.UpdatePlayerPosition | src/main/java/com/game/minecraft/world/World.java:21-31 | the player chunk is updated; chunks are managed again only when it changed, and otherwise nothing else changes |
| GameWorld.World.ManageChunks | src/main/java/com/game/minecraft/world/World.java:33-56 | afterwards exactly the square of radius chunkLayerRadius around the player is loaded; kept chunks keep their grids; new ones come from the cache view or the generator; dropped grids enter the cache view; all links are rewired |
| GameWorld.World.LoadAndUnload | src/main/java/com/game/minecraft/world/World.java:37-50 | the two passes over the chunk map reconcile it with the required set |
| GameWorld.World.LoadRequiredChunks | src/main/java/com/game/minecraft/world/World.java:37-39 | every required chunk is loaded; already loaded chunks are unchanged; the cache view is unchanged |
| GameWorld.World.ComputeIfAbsent | src/main/java/com/game/minecraft/world/World.java:38 | a loaded chunk is kept; a missing one is created and stored under its coordinate |
| GameWorld.World.UnloadChunksOutside | src/main/java/com/game/minecraft/world/World.java:41-53 | only the required chunks stay loaded, changed only in their links, and every dropped grid is saved into the cache view |
| GameWorld.World.UnloadIfOutside | src/main/java/com/game/minecraft/world/World.java:45-51 | a chunk outside the required set is saved and removed; any other chunk is left alone |
| GameWorld.World.SaveAndRemove | src/main/java/com/game/minecraft/world/World.java:45-50 | the chunk's neighbours forget it, its grid is put into the LRU cache, and it leaves the chunk map |
| GameWorld.World.SaveChunkData | src/main/java/com/game/minecraft/world/World.java:58-61 | cleanNeighbors runs on the chunk, then its grid is put into the cache exactly as LRU put does (new LRU state = LruSpec.Put of the old one) |
| GameWorld.World.Cleanup | src/main/java/com/game/minecraft/world/chunks/Chunk.java:189-192 | cleanup unlinks the chunk from its neighbours and changes nothing but links |
| GameWorld.World.CachePut | src/main/java/com/game/minecraft/utils/LRU.java:50-63 | the cache's new state is LruSpec.Put of the old state, and its view maps the key to the data |
| GameWorld.World.CacheGet | src/main/java/com/game/minecraft/utils/LRU.java:34-48 | the result and the new cache state are LruSpec.Get of the old state; the result is the view's entry for the key, if any |
| GameWorld.World.LoadMissing | src/main/java/com/game/minecraft/world/World.java:65-69 | the second disk lookup after a cache miss always finds nothing, because the cache has already looked on disk |
| GameWorld.World.CreateChunk | src/main/java/com/game/minecraft/world/World.java:63-81 | the new chunk holds the cached or stored grid when one exists and generated terrain otherwise; the cache's new state is that of LruSpec.Get |
| GameWorld.World.CreateChunkFromSavedData | src/main/java/com/game/minecraft/world/World.java:83-90 | the chunk is a new chunk whose grid is set to the saved data |
| GameWorld.World.UpdateChunkNeighbors | src/main/java/com/game/minecraft/world/World.java:92-106 | the same chunks stay loaded, each linked to exactly its loaded lateral neighbours, so links are symmetric |
| GameWorld.World.SetChunkLayerRadius | src/main/java/com/game/minecraft/world/World.java:149-154 | the radius is stored; chunks are managed again with it only when a player chunk is known |
| ChunkSpiral.SpiralTarget | src/main/java/com/game/minecraft/world/World.java:130 | the loop bound (2r+1)² is positive and equals the count for the clamped radius max(r, 0) |
| ChunkSpiral.StepMoves | src/main/java/com/game/minecraft/world/World.java:133-144 | one step moves by the current direction and turns after a full leg |
| ChunkSpiral.StepIsNew | src/main/java/com/game/minecraft/world/World.java:133-144 | each step reaches a coordinate the spiral has not visited yet |
| ChunkSpiral.StepCovers | src/main/java/com/game/minecraft/world/World.java:133-144 | after a step, the visited offsets are the old ones plus the new position |
| ChunkSpiral.StepVisits | src/main/java/com/game/minecraft/world/World.java:133-144 | adding the reached chunk to the result keeps the result equal to the visited set, and the chunk was not in it before |
| ChunkSpiral.SpiralCount | src/main/java/com/game/minecraft/world/World.java:126-145 | when (2r+1)² chunks have been visited, the walk has just finished layer r |
| ChunkSpiral.SpiralDone | src/main/java/com/game/minecraft/world/World.java:126-146 | when the loop stops, the result is exactly the square of radius r around the origin |
| ChunkSpiral.Advance | src/main/java/com/game/minecraft/world/World.java:137-144 | the counter updates of the loop body follow the walk one step |
| ChunkSpiral.GenerateChunksInSpiral | src/main/java/com/game/minecraft/world/World.java:120-147 | the result is exactly the chunks within Chebyshev distance r of the origin, and there are (2r+1)² of them |
| Lru.Node.constructor | src/main/java/com/game/minecraft/utils/LRU.java:10-21 | a node holds its key and grid and is unlinked |
| Lru.LRU.constructor | src/main/java/com/game/minecraft/utils/LRU.java:28-32 | a new cache is empty, with the two sentinels linked to each other |
| Lru.LRU.AbstractWellFormed | src/main/java/com/game/minecraft/utils/LRU.java:24-26 | the linked list and the map always describe a well-formed cache: the recency order lists each cached key once |
| Lru.LRU.Get | src/main/java/com/game/minecraft/utils/LRU.java:34-48 | the linked structure refines LruSpec.Get: a hit moves the node to most recent; a miss reads the file and puts what it finds |
| Lru.LRU.Put | src/main/java/com/game/minecraft/utils/LRU.java:50-63 | the linked structure refines LruSpec.Put: the entry becomes most recent, and past the capacity the least recent entry is written to its file and dropped |
| Lru.LRU.Store | src/main/java/com/game/minecraft/utils/LRU.java:51-55 | storing a key makes it the most recent in the order and maps it to the value |
| Lru.LRU.EvictLeastRecent | src/main/java/com/game/minecraft/utils/LRU.java:57-62 | the least recent entry leaves the order and the map, and its grid is written to its file |
| Lru.LRU.MoveToMostRecent | src/main/java/com/game/minecraft/utils/LRU.java:36-38 | the node is spliced out and reinserted at the most recent end |
| Lru.LRU.Remove | src/main/java/com/game/minecraft/utils/LRU.java:65-71 | the node's neighbours become adjacent, the node leaves the list, and its links are nulled |
| Lru.LRU.Insert | src/main/java/com/game/minecraft/utils/LRU.java:73-79 | the node is placed just before the MRU sentinel, at the most recent end |
| LruSpec.PutWellFormed | src/main/java/com/game/minecraft/utils/LRU.java:50-63 | put keeps the cache well formed |
| LruSpec.PutBounded | src/main/java/com/game/minecraft/utils/LRU.java:57 | put never lets the cache grow beyond its capacity |
| LruSpec.PutStoresNewest | src/main/java/com/game/minecraft/utils/LRU.java:54-55 | after put the key holds the value and is most recent; with capacity 0 the value goes straight to its file |
| LruSpec.PutEvictsLeastRecent | src/main/java/com/game/minecraft/utils/LRU.java:57-62 | the only entry put can drop is the least recent other key, and that entry is written to its file |
| LruSpec.PutView | src/main/java/com/game/minecraft/utils/LRU.java:50-63 | after put, cache plus files show the key's new value and every other value unchanged |
| LruSpec.PutEvictView | src/main/java/com/game/minecraft/utils/LRU.java:57-62 | an eviction only moves an entry from the cache to its file, so the view is unchanged |
| LruSpec.GetView | src/main/java/com/game/minecraft/utils/LRU.java:34-48 | get returns the view's entry for the key, if any, and does not change the view |
| LruSpec.GetWellFormed | src/main/java/com/game/minecraft/utils/LRU.java:34-48 | get keeps the cache well formed and within its capacity |
| LruSpec.TouchWellFormed | src/main/java/com/game/minecraft/utils/LRU.java:36-38 | moving a cached key to the most recent end keeps the order a permutation of the keys and puts the key last |
| PersistStorage.Storage.SaveToFile | src/main/java/com/game/minecraft/utils/PersistStorage.java:17-30 | the file for the coordinate now holds the data, and no other file changes |
| PersistStorage.Storage.LoadFromFile | src/main/java/com/game/minecraft/utils/PersistStorage.java:32-45 | the result is the file's data when the file exists, and null otherwise |
| PersistStorage.Load | src/main/java/com/game/minecraft/utils/PersistStorage.java:32-36 | a load finds data exactly when the coordinate's file exists |
| PersistStorage.LoadAfterSave | src/main/java/com/game/minecraft/utils/PersistStorage.java:17-45 | loading after saving returns the saved data, and loading another coordinate is unaffected |
| Chunks.Chunk.constructor | src/main/java/com/game/minecraft/world/chunks/Chunk.java:60-68 | a new chunk is dirty, unlinked and all air, at the given origin, with empty buffers |
| Chunks.Chunk.GetBlockAt | src/main/java/com/game/minecraft/world/chunks/Chunk.java:110-115 | it returns null outside the 16 × 256 × 16 bounds and the stored cell inside them |
| Chunks.Chunk.CopyBlockData | src/main/java/com/game/minecraft/world/chunks/Chunk.java:117-125 | the copy is a fresh array equal cell for cell to the grid |
| Chunks.Chunk.IsDataEqual | src/main/java/com/game/minecraft/world/chunks/Chunk.java:146-157 | true exactly when the data equals the grid cell for cell |
| Chunks.Chunk.SetBlockData | src/main/java/com/game/minecraft/world/chunks/Chunk.java:127-136 | equal data changes nothing; other data replaces the grid and marks the chunk dirty |
| Chunks.Chunk.SetOreDecorated | src/main/java/com/game/minecraft/world/chunks/Chunk.java:138-140 | only the ore flag changes |
| Chunks.Chunk.SetTreeDecorated | src/main/java/com/game/minecraft/world/chunks/Chunk.java:142-144 | only the tree flag changes |
| Chunks.Chunk.SetBlockAt | src/main/java/com/game/minecraft/world/chunks/Chunk.java:167-173 | an in-bounds call writes one cell and marks the chunk dirty; an out-of-bounds call changes nothing |
| Chunks.Chunk.SetNeighbor | src/main/java/com/game/minecraft/world/chunks/Chunk.java:179-187 | one link changes; the chunk is marked dirty only for a non-null neighbour |
| Chunks.Chunk.BlockExistsAndNotTransparentAt | src/main/java/com/game/minecraft/world/chunks/Chunk.java:341-364 | inside the chunk: a present solid cell; past a lateral edge: the same test on the linked neighbour, false when unlinked; above or below the chunk: false |
| Chunks.Chunk.WaterExistsAt | src/main/java/com/game/minecraft/world/chunks/Chunk.java:366-381 | the same lookup as BlockExistsAndNotTransparentAt, testing for water |
| Chunks.Chunk.DebugBoolean | src/main/java/com/game/minecraft/world/chunks/Chunk.java:387-391 | true exactly for in-bounds cells holding IRON_ORE, DIAMOND_ORE or COAL_ORE, the kinds that always show all faces |
| Chunks.Chunk.OpaqueFaceFlags | src/main/java/com/game/minecraft/world/chunks/Chunk.java:283-309 | a face of an opaque cell is emitted unless the cell across it is present and solid; iron, diamond and coal ore cells emit every face |
| Chunks.Chunk.WaterFaceFlags | src/main/java/com/game/minecraft/world/chunks/Chunk.java:312-338 | a face of a water cell is emitted unless the cell across it is water |
| Chunks.Chunk.AddOpaqueBlockFaces | src/main/java/com/game/minecraft/world/chunks/Chunk.java:283-310 | the opaque buffer grows by the cell's emitted faces in the order top, bottom, front, back, left, right |
| Chunks.Chunk.AddWaterBlockToMesh | src/main/java/com/game/minecraft/world/chunks/Chunk.java:312-339 | the water buffer grows by the water cell's emitted faces |
| Chunks.Chunk.AddBlockToMesh | src/main/java/com/game/minecraft/world/chunks/Chunk.java:264-281 | air adds nothing, water goes to the water buffer, and every other kind goes to the opaque buffer (GREY_LEAVES tinted green, the rest white) |
| Chunks.Chunk.BuildMesh | src/main/java/com/game/minecraft/world/chunks/Chunk.java:210-232 | a clean chunk changes nothing; a dirty one refills both buffers with the whole chunk's mesh in y, x, z order, sets the counts to size / 8 and clears dirty |
| Chunks.Chunk.FinishMesh | src/main/java/com/game/minecraft/world/chunks/Chunk.java:225-231 | vertex counts are buffer sizes divided by 8, and the chunk is clean |
| Chunks.Chunk.MeshLayers | src/main/java/com/game/minecraft/world/chunks/Chunk.java:214-224 | the outer loop appends the meshes of all layers in order |
| Chunks.Chunk.MeshLayer | src/main/java/com/game/minecraft/world/chunks/Chunk.java:215-223 | the middle loop appends one layer's rows in order |
| Chunks.Chunk.MeshRow | src/main/java/com/game/minecraft/world/chunks/Chunk.java:216-222 | the inner loop appends one row's cells in order |
| Chunks.Chunk.MeshCell | src/main/java/com/game/minecraft/world/chunks/Chunk.java:217-221 | one loop step appends exactly the cell's tabulated faces |
| ChunkSpec.NewState | src/main/java/com/game/minecraft/world/chunks/Chunk.java:38-67 | a new chunk's state is all air, unlinked and dirty |
| ChunkSpec.CleanNeighbors | src/main/java/com/game/minecraft/world/chunks/Chunk.java:202-208 | the same chunks remain, and the chunk's own links are all cleared |
| ChunkSpec.ClearReciprocal | src/main/java/com/game/minecraft/world/chunks/Chunk.java:203-206 | clearing one neighbour's back link keeps the same chunks |
| ChunkLaws.GetAfterSet | src/main/java/com/game/minecraft/world/chunks/Chunk.java:110-115 | reading a cell after setBlockAt gives the written block at that cell (when in bounds) and the old cell anywhere else |
| ChunkLaws.SetBlockAtEffect | src/main/java/com/game/minecraft/world/chunks/Chunk.java:167-173 | an in-bounds write marks the chunk dirty and leaves links and flags alone; an out-of-bounds write is a no-op |
| ChunkLaws.SetBlockDataEffect | src/main/java/com/game/minecraft/world/chunks/Chunk.java:127-136 | setBlockData installs the data, sets dirty exactly when the data differs, and repeating it changes nothing |
| ChunkLaws.SetNeighborEffect | src/main/java/com/game/minecraft/world/chunks/Chunk.java:179-187 | only the chosen direction's link changes, the grid is kept, and dirty is set exactly for a non-null neighbour |
| ChunkLaws.ClearReciprocalOnlyUnlinks | src/main/java/com/game/minecraft/world/chunks/Chunk.java:203-206 | clearing a back link changes no chunk's grid or flags |
| ChunkLaws.CleanNeighborsOnlyUnlinks | src/main/java/com/game/minecraft/world/chunks/Chunk.java:202-208 | cleanNeighbors changes no chunk's grid or flags |
| ChunkLaws.ClearReciprocalStep | src/main/java/com/game/minecraft/world/chunks/Chunk.java:203-206 | each reciprocal clear removes the back link in that direction and keeps the chunk itself |
| ChunkLaws.CleanNeighborsDetaches | src/main/java/com/game/minecraft/world/chunks/Chunk.java:202-208 | with symmetric links, after cleanNeighbors no chunk links to the cleaned chunk |
| ChunkLaws.AnyDirection | src/main/java/com/game/minecraft/world/chunks/Chunk.java:179-187 | the four directions are all there are |
| ChunkLaws.CellAcross | src/main/java/com/game/minecraft/world/chunks/Chunk.java:341-357 | the cell across a face is the local cell inside the chunk, the linked neighbour's wrapped cell across a lateral edge, and nothing above or below the chunk |
| ChunkLaws.WorldEdgesAlwaysEmitted | src/main/java/com/game/minecraft/world/chunks/Chunk.java:341-357 | the top face of the top layer and the bottom face of the bottom layer are always emitted |
| ChunkLaws.AcrossInverse | src/main/java/com/game/minecraft/world/chunks/Chunk.java:290-307 | going across a face and back across the opposite face returns to the cell |
| ChunkLaws.CullingSymmetricInside | src/main/java/com/game/minecraft/world/chunks/Chunk.java:283-310 | between two adjacent solid cells of one chunk both touching faces are culled |
| ChunkLaws.CullingSymmetricAcrossBorder | src/main/java/com/game/minecraft/world/chunks/Chunk.java:341-357 | between two solid cells of mutually linked chunks both touching faces are culled |
| ChunkLaws.WaterCullingInside | src/main/java/com/game/minecraft/world/chunks/Chunk.java:312-339 | a water face is emitted exactly when the cell across is not water, and between two water cells both faces are culled |
| ChunkLaws.AlwaysAllFacesEmitted | src/main/java/com/game/minecraft/world/chunks/Chunk.java:283-309 | an iron, diamond or coal ore cell always emits all six faces and nothing into the water buffer |
| ChunkLaws.CellFaceCount | src/main/java/com/game/minecraft/world/chunks/Chunk.java:264-339 | a cell emits at most six faces in total |
| ChunkLaws.RowBuffersBySource | src/main/java/com/game/minecraft/world/chunks/Chunk.java:264-281 | a row of a chunk without water adds nothing to the water buffer, and one with only water or air adds nothing to the opaque buffer |
| ChunkLaws.LayerBuffersBySource | src/main/java/com/game/minecraft/world/chunks/Chunk.java:264-281 | the same split of buffers for a layer |
| ChunkLaws.MeshBuffersBySource | src/main/java/com/game/minecraft/world/chunks/Chunk.java:210-232 | the same split of buffers for the whole mesh |
| MeshTable.CellTableTabulates | src/main/java/com/game/minecraft/world/chunks/Chunk.java:214-224 | the table indexed by cell holds each cell's mesh, so the loops can append table entries |
| Vertex.Corners | src/main/java/com/game/minecraft/world/Vertex.java:12-223 | each face has four corners |
| Vertex.FaceIsUnitSquare | src/main/java/com/game/minecraft/world/Vertex.java:12-223 | the four corners of every face lie on the face's plane, half a unit from the block centre, and consecutive corners are joined by unit edges |
| Vertex.FaceCoversTile | src/main/java/com/game/minecraft/world/Vertex.java:12-223 | the texture coordinates of the corners run around the 16-pixel atlas tile at (u, v) |
| Vertex.TopFaceLayout | src/main/java/com/game/minecraft/world/Vertex.java:12-48 | the top face's corners are the four upper corners of the cube with the tile's corner coordinates, in the source's order |
| Vertex.FaceValuesLayout | src/main/java/com/game/minecraft/world/Vertex.java:236-272 | a face is 48 floats: corners 0, 1, 2, 2, 3, 0, eight floats each |
| Vertex.FaceColor | src/main/java/com/game/minecraft/world/Vertex.java:274-285 | all six vertices of a face carry the face colour |
| Vertex.AddVertex | src/main/java/com/game/minecraft/world/Vertex.java:274-285 | the buffer grows by position, texture coordinates and colour of one vertex |
| Vertex.AddFace | src/main/java/com/game/minecraft/world/Vertex.java:236-272 | the buffer grows by the two triangles of the quad |
| Vertex.AddNormalTopFaceWithTexture | src/main/java/com/game/minecraft/world/Vertex.java:12-48 | the buffer grows by exactly the top face's 48 values |
| Vertex.AddNormalBottomFaceWithTexture | src/main/java/com/game/minecraft/world/Vertex.java:50-83 | the buffer grows by exactly the bottom face's 48 values |
| Vertex.AddNormalFrontFaceWithTexture | src/main/java/com/game/minecraft/world/Vertex.java:85-118 | the buffer grows by exactly the front face's 48 values |
| Vertex.AddNormalBackFaceWithTexture | src/main/java/com/game/minecraft/world/Vertex.java:120-153 | the buffer grows by exactly the back face's 48 values |
| Vertex.AddNormalLeftFaceWithTexture | src/main/java/com/game/minecraft/world/Vertex.java:155-188 | the buffer grows by exactly the left face's 48 values |
| Vertex.AddNormalRightFaceWithTexture | src/main/java/com/game/minecraft/world/Vertex.java:190-223 | the buffer grows by exactly the right face's 48 values |
| FloatArrays.FloatArray.constructor | src/main/java/com/game/minecraft/utils/FloatArray.java:9-12 | a new buffer is empty with the requested capacity |
| FloatArrays.FloatArray.Add | src/main/java/com/game/minecraft/utils/FloatArray.java:14-19 | the value is appended, and the capacity doubles exactly when the buffer was full |
| FloatArrays.FloatArray.Grow | src/main/java/com/game/minecraft/utils/FloatArray.java:21-25 | a fresh array of twice the length holds the old elements as its prefix |
| FloatArrays.FloatArray.Get | src/main/java/com/game/minecraft/utils/FloatArray.java:27-29 | the element at the index, which is a stored value when the index is below the size |
| FloatArrays.FloatArray.Elements | src/main/java/com/game/minecraft/utils/FloatArray.java:31-33 | a fresh array holding exactly the stored values |
| FloatArrays.FloatArray.Size | src/main/java/com/game/minecraft/utils/FloatArray.java:35-37 | the number of stored values |
| FloatArrays.FloatArray.Clear | src/main/java/com/game/minecraft/utils/FloatArray.java:39-41 | the buffer becomes empty and keeps its array and capacity |
| Blocks.Stored | src/main/java/com/game/minecraft/world/Blocks.java:47-53 | each offset is stored as a signed byte |
| Blocks.TopX | src/main/java/com/game/minecraft/world/Blocks.java:65-67 | the getter reads the byte back unsigned: (arg × 16) mod 256 |
| Blocks.TopY | src/main/java/com/game/minecraft/world/Blocks.java:69-71 | (arg × 16) mod 256 |
| Blocks.BottomX | src/main/java/com/game/minecraft/world/Blocks.java:73-75 | (arg × 16) mod 256 |
| Blocks.BottomY | src/main/java/com/game/minecraft/world/Blocks.java:77-79 | (arg × 16) mod 256 |
| Blocks.SideX | src/main/java/com/game/minecraft/world/Blocks.java:81-83 | (arg × 16) mod 256 |
| Blocks.SideY | src/main/java/com/game/minecraft/world/Blocks.java:85-87 | (arg × 16) mod 256 |
| Blocks.OffsetsDoNotWrap | src/main/java/com/game/minecraft/world/Blocks.java:7-53 | every block's atlas arguments lie in 0..14, so no stored offset wraps and each getter returns arg × 16 |
| Blocks.GrassOffsets | src/main/java/com/game/minecraft/world/Blocks.java:7 | GRASS reads back top (224, 16), bottom (32, 0), side (48, 0) |
| Blocks.DefaultSolidity | src/main/java/com/game/minecraft/world/Blocks.java:53 | every block kind starts solid |
| Blocks.SetSolidStateAs | src/main/java/com/game/minecraft/world/Blocks.java:61-63 | the given kind gets the given solidity, and every other kind keeps its own |
| JavaInt.JavaRem | src/main/java/com/game/minecraft/world/generations/ChunkTerrainGenerator.java:111-113 | Java's % truncates: the dividend is quotient × divisor + remainder, with the remainder's sign following the dividend |
| JavaInt.FloorDiv | src/main/java/com/game/minecraft/world/World.java:22-23 | Math.floorDiv: the quotient q satisfies q·b ≤ a < q·b + b |
| JavaInt.Truncate | src/main/java/com/game/minecraft/world/World.java:22-23 | the cast rounds toward zero |
| JavaInt.ToByte | src/main/java/com/game/minecraft/world/Blocks.java:47-53 | the narrowing cast to byte lands in -128..127 and agrees modulo 256 |
| JavaInt.ByteRoundTrip | src/main/java/com/game/minecraft/world/Blocks.java:65-87 | & 0xFF after a byte cast gives the value modulo 256 |
| TerrainGen.BandLimits | src/main/java/com/game/minecraft/world/generations/ChunkTerrainGenerator.java:111-113 | for a non-negative surface the bedrock top lies in 250..254 and the upper ore limit is above the subsurface limit |
| TerrainGen.OceanBlock | src/main/java/com/game/minecraft/world/generations/ChunkTerrainGenerator.java:261-276 | ocean columns: air above the surface, bedrock below the bedrock top, the subsurface block below the subsurface limit, and the surface block only from sea level (196) down |
| TerrainGen.LandBlock | src/main/java/com/game/minecraft/world/generations/ChunkTerrainGenerator.java:278-327 | the rule the plains, mountain and desert getters share: air above, the surface block at the surface, the subsurface block down to the bedrock top, then bedrock |
| TerrainGen.GenerateBlockBasedOn | src/main/java/com/game/minecraft/world/generations/ChunkTerrainGenerator.java:245-259 | ocean uses the ocean rule and every other biome the land rule |
| TerrainGen.Carve | src/main/java/com/game/minecraft/world/generations/ChunkTerrainGenerator.java:128-133 | a cave hit clears a cell exactly when it lies below the surface and is neither air, BEDROCK nor WATER1 |
| TerrainGen.OreBand | src/main/java/com/game/minecraft/world/generations/ChunkTerrainGenerator.java:135-147 | only non-air cells other than WATER1 and BEDROCK below the upper ore limit become the inner block, and in the ocean not below the subsurface limit |
| TerrainGen.TerrainCellShape | src/main/java/com/game/minecraft/world/generations/ChunkTerrainGenerator.java:115-147 | above the surface every cell is air, the ocean surface itself is air, and below the bedrock top every cell is bedrock |
| TerrainGen.TerrainCellEmpty | src/main/java/com/game/minecraft/world/generations/ChunkTerrainGenerator.java:115-147 | a generated cell is air exactly when the biome block is air or a cave carved it |
| TerrainGen.Weight | src/main/java/com/game/minecraft/world/generations/ChunkTerrainGenerator.java:205-207 | each biome weight lies in 0..1 |
| TerrainGen.WeightsFrom | src/main/java/com/game/minecraft/world/generations/ChunkTerrainGenerator.java:205-217 | one weight per biome option |
| TerrainGen.Dominant | src/main/java/com/game/minecraft/world/generations/ChunkTerrainGenerator.java:213-216 | the dominant index is one of the options |
| TerrainGen.DominantIsFirstMax | src/main/java/com/game/minecraft/world/generations/ChunkTerrainGenerator.java:213-216 | the dominant biome has the largest weight, and no earlier option ties it (the strict > picks the first maximum) |
| TerrainGen.TotalWeightZero | src/main/java/com/game/minecraft/world/generations/ChunkTerrainGenerator.java:199-211 | the total weight is non-negative, and zero exactly when every weight is zero |
| TerrainGen.PlainsFallback | src/main/java/com/game/minecraft/world/generations/ChunkTerrainGenerator.java:219-222 | the total weight is zero exactly for noise ≤ -0.8 or ≥ 0.9, and then the plains parameters are used |
| TerrainGen.BlendInRange | src/main/java/com/game/minecraft/world/generations/ChunkTerrainGenerator.java:199-241 | blended base height lies in 171..196 and amplitude in 3..15, and the biome is the first maximal option |
| TerrainGen.BlendedInRange | src/main/java/com/game/minecraft/world/generations/ChunkTerrainGenerator.java:155-242 | for every noise value, base height lies in 171..196 and amplitude in 3..15 |
| TerrainGen.GetBlendedBiomeParameters | src/main/java/com/game/minecraft/world/generations/ChunkTerrainGenerator.java:155-242 | the loops compute the blended parameters: the first maximal biome, the truncated weighted averages, and plains when every weight is zero |
| TerrainGen.GenerateTerrainsAt | src/main/java/com/game/minecraft/world/generations/ChunkTerrainGenerator.java:55-152 | every cell of the fresh 16 × 256 × 16 array is the biome block, then carved, then ore-banded |
| TerrainGen.GenerateColumn | src/main/java/com/game/minecraft/world/generations/ChunkTerrainGenerator.java:72-148 | one column is filled from its biome and surface, and no other column changes |
| TerrainGen.SurfaceOf | src/main/java/com/game/minecraft/world/generations/ChunkTerrainGenerator.java:73-109 | the column's surface is the base height plus the truncated noise times the amplitude, replaced for ocean columns by the ocean-depth oracle |
| TerrainGen.FillColumn | src/main/java/com/game/minecraft/world/generations/ChunkTerrainGenerator.java:111-148 | each cell of the column is the generated cell for its height, and no other column changes |
| TerrainFill.CountRows | src/main/java/com/game/minecraft/world/ChunkLoader.java:80-89 | a count of one block kind in a column is at most the number of rows counted |
| TerrainFill.DirtHeightRange | src/main/java/com/game/minecraft/world/ChunkLoader.java:75 | the flat dirt height lies in 191..196 |
| TerrainFill.FlatCellShape | src/main/java/com/game/minecraft/world/ChunkLoader.java:80-96 | flat terrain: bedrock in the bottom five layers, dirt from the dirt height down to them, grass in the layer just above the dirt except bedrock in the four corner columns, air elsewhere |
| TerrainFill.FlatStoneCount | src/main/java/com/game/minecraft/world/ChunkLoader.java:80-89 | no flat column contains stone (that branch is unreachable) |
| TerrainFill.FlatGrassCount | src/main/java/com/game/minecraft/world/ChunkLoader.java:80-96 | a flat column's grass count up to any row is at most one, and zero at the corners |
| TerrainFill.FlatColumnCounts | src/main/java/com/game/minecraft/world/ChunkLoader.java:80-96 | a whole flat column has no stone, and exactly one grass except at the four corners |
| TerrainFill.GenerateFlatTerrainAt | src/main/java/com/game/minecraft/world/ChunkLoader.java:72-99 | every cell of the fresh array is the flat-terrain cell for its position |
| TerrainFill.FlatColumnFill | src/main/java/com/game/minecraft/world/ChunkLoader.java:80-89 | one flat column is filled, and no other column changes |
| TerrainFill.SurfaceHeight | src/main/java/com/game/minecraft/world/ChunkLoader.java:118-121 | the natural surface is the truncated noise height clamped to 1..255 |
| TerrainFill.NaturalGrassCount | src/main/java/com/game/minecraft/world/ChunkLoader.java:123-134 | a natural column holds no grass above its surface row and one from there down |
| TerrainFill.ExactlyOneGrass | src/main/java/com/game/minecraft/world/ChunkLoader.java:123-134 | every natural column holds exactly one grass block, at its surface row |
| TerrainFill.GenerateNaturalTerrainAt | src/main/java/com/game/minecraft/world/ChunkLoader.java:101-140 | every cell of the fresh array is the natural-terrain cell for its column's surface |
| TerrainFill.NaturalColumnFill | src/main/java/com/game/minecraft/world/ChunkLoader.java:123-134 | one natural column is filled, and no other column changes |
| Region.RegionBounds | src/main/java/com/game/minecraft/world/generations/OreDecorator.java:42-51 | the min and max chunk coordinates enclose the active chunks tightly |
| Region.MergeRegion | src/main/java/com/game/minecraft/world/generations/WaterFlowSimulator.java:58-71 | the region holds each chunk's cells at its offset, and air where no chunk is |
| Region.CopyIn | src/main/java/com/game/minecraft/world/generations/WaterFlowSimulator.java:59-70 | one chunk's grid is copied to its offset, and the rest of the region is unchanged |
| Region.SliceAt | src/main/java/com/game/minecraft/world/generations/WaterFlowSimulator.java:77-90 | a chunk's slice of the region is the region's cells at that chunk's offset |
| Region.CopyOut | src/main/java/com/game/minecraft/world/generations/WaterFlowSimulator.java:77-90 | the copied data is exactly the chunk's slice |
| Region.MergeWritebackIdentity | src/main/java/com/game/minecraft/world/generations/WaterFlowSimulator.java:58-90 | writing back an unchanged merged region gives every chunk its own grid back, and setBlockData then changes nothing |
| Region.SliceRelates | src/main/java/com/game/minecraft/world/generations/WaterFlowSimulator.java:58-90 | a relation that holds cell by cell between merged and processed region holds between each chunk's old grid and its slice |
| Region.FindSurfaceY | src/main/java/com/game/minecraft/world/generations/OreDecorator.java:117-122 | the surface is the first non-air cell from the top of the column, or -1 when the column is all air |
| Region.SetDecorated | src/main/java/com/game/minecraft/world/generations/OreDecorator.java:111-112 | setting a flag raises it and keeps the grid, the links, dirty and the other flag |
| Region.Undecorated | src/main/java/com/game/minecraft/world/generations/OreDecorator.java:33-40 | the snapshot is exactly the active chunks without the flag, unchanged |
| Region.Writeback | src/main/java/com/game/minecraft/world/generations/OreDecorator.java:99-113 | each snapshot chunk gets its slice through setBlockData and, when given, its flag; other chunks are unchanged |
| Region.WritebackRelates | src/main/java/com/game/minecraft/world/generations/OreDecorator.java:99-113 | after writeback each chunk's grid relates to its old grid cell by cell, links are kept, dirty is set exactly when the grid changed, and only the given flag is raised |
| OreDecorator.RandomBetween | src/main/java/com/game/minecraft/world/generations/OreDecorator.java:231-233 | the draw lies between min and max inclusive |
| OreDecorator.NewOreSettings | src/main/java/com/game/minecraft/world/generations/OreDecorator.java:219-229 | the settings keep the ore and radius, and the vein size lies in 1..cap |
| OreDecorator.DetermineOreSettings | src/main/java/com/game/minecraft/world/generations/OreDecorator.java:141-165 | no ore at or above the upper band; coal in the upper band; diamond only in the deepest band with a draw below 0.05; each ore has its own radius and size cap |
| OreDecorator.ColumnThresholds | src/main/java/com/game/minecraft/world/generations/OreDecorator.java:80-84 | the ore band limits are 17 and 13 apart and lie above the bedrock top, which is 2 to 6 above the region floor |
| OreDecorator.EligibleIsNotOre | src/main/java/com/game/minecraft/world/generations/OreDecorator.java:125-135 | an eligible cell (STONE, DIRT or SAND) is never an ore, so the seeding loop's isOre test (OreDecorator.java:93), made after the eligibility test, never skips |
| OreDecorator.ColumnBands | src/main/java/com/game/minecraft/world/generations/OreDecorator.java:80-91 | in a column, settings exist exactly below the upper ore limit, the upper band gives coal, and diamond appears only below the middle band plus 13 |
| OreDecorator.GenerateOreVein | src/main/java/com/game/minecraft/world/generations/OreDecorator.java:172-202 | a vein turns only eligible cells into its ore, within Manhattan distance maxRadius of the seed, and at most maxVeinSize of them |
| OreDecorator.DecorateColumn | src/main/java/com/game/minecraft/world/generations/OreDecorator.java:76-95 | every cell of the region stays or turns from an eligible block into an ore; every changed cell holds an ore o and lies within o's radius of a seed strictly below the column's surface and inside o's band |
| OreDecorator.DecorateOresRegion | src/main/java/com/game/minecraft/world/generations/OreDecorator.java:73-97 | the same per-cell rule for the whole region; every changed cell holds an ore o and lies within o's radius of a seed strictly below the first block, before the pass, of some column and inside o's band |
| OreDecorator.SeedInBand | src/main/java/com/game/minecraft/world/generations/OreDecorator.java:80-91 | with a column's thresholds, a seeded ore's band holds the seed's y, and its radius is at most 4 |
| OreDecorator.DecorateOresForActiveRegion | src/main/java/com/game/minecraft/world/generations/OreDecorator.java:32-114 | decorated chunks are unchanged; every other chunk is flagged, keeps its links and tree flag, becomes dirty exactly when its grid changed, and its cells only turn eligible blocks into ores |
| TreeDecorator.TreeAt | src/main/java/com/game/minecraft/world/generations/TreeDecorator.java:117-126 | the canopy radius is one less than the layer count; for noise in [-1, 1] the trunk is 2..6 high with 1..5 canopy layers |
| TreeDecorator.IsLocalMax | src/main/java/com/game/minecraft/world/generations/TreeDecorator.java:171-190 | true exactly when every in-region neighbour among the eight has strictly lower noise |
| TreeDecorator.Reach | src/main/java/com/game/minecraft/world/generations/TreeDecorator.java:192-200 | the clearance scan never starts below the surface |
| TreeDecorator.IsClearAbove | src/main/java/com/game/minecraft/world/generations/TreeDecorator.java:192-200 | true exactly when the required cells above the surface are all air |
| TreeDecorator.SurfaceIsClear | src/main/java/com/game/minecraft/world/generations/TreeDecorator.java:128-131 | above a surface found by findSurfaceY every cell is air, so the clearance test always passes |
| TreeDecorator.CanopyAboveTrunk | src/main/java/com/game/minecraft/world/generations/TreeDecorator.java:139-157 | every canopy cell lies above the top of the trunk |
| TreeDecorator.TrunkIsCapped | src/main/java/com/game/minecraft/world/generations/TreeDecorator.java:139-157 | the cell directly above the top of the trunk becomes leaves when it is air |
| TreeDecorator.PlantingIsTreeStep | src/main/java/com/game/minecraft/world/generations/TreeDecorator.java:134-157 | planting over a surface only turns air into OAKWOOD or GREY_LEAVES |
| TreeDecorator.CanopyLayer | src/main/java/com/game/minecraft/world/generations/TreeDecorator.java:141-156 | the air cells of one square layer become GREY_LEAVES, and nothing else changes |
| TreeDecorator.PlantTree | src/main/java/com/game/minecraft/world/generations/TreeDecorator.java:134-157 | every cell becomes the tree cell: trunk cells OAKWOOD, air canopy cells GREY_LEAVES, others unchanged |
| TreeDecorator.DecorateColumn | src/main/java/com/game/minecraft/world/generations/TreeDecorator.java:94-157 | a tree is planted exactly when the surface is GRASS or DIRT, the noise reaches the threshold, the column is a strict local maximum and the column is clear; if so the region becomes the tree, otherwise it is unchanged |
| TreeDecorator.DecorateTreesRegion | src/main/java/com/game/minecraft/world/generations/TreeDecorator.java:81-160 | every cell of the region stays or turns from air into OAKWOOD or GREY_LEAVES |
| TreeDecorator.DecorateTreesForActiveRegion | src/main/java/com/game/minecraft/world/generations/TreeDecorator.java:15-79 | tree-decorated chunks are unchanged; every other chunk is flagged, keeps its links and ore flag, becomes dirty exactly when its grid changed, and only gains trees in air |
| Simulator.DecorateTreesForActiveRegion | src/main/java/com/game/minecraft/world/Simulator.java:29-80 | every active chunk keeps its links and both flags, only gains trees in air, and becomes dirty exactly when its grid changed |
| WaterFlow.ComputeSolid | src/main/java/com/game/minecraft/world/generations/WaterFlowSimulator.java:103-109 | the solid map marks exactly the present cells whose kind is solid |
| WaterFlow.InitialQueue | src/main/java/com/game/minecraft/world/generations/WaterFlowSimulator.java:94-124 | water cells start at distance 0 and all others at -1; the queue holds every water cell at distance 0 |
| WaterFlow.TryFlow | src/main/java/com/game/minecraft/world/generations/WaterFlowSimulator.java:133-158 | a cell is flooded exactly when it is not solid and was unreached or reached farther; then it becomes WATER1 at the new distance and the termination measure drops |
| WaterFlow.FlowStep | src/main/java/com/game/minecraft/world/generations/WaterFlowSimulator.java:126-159 | one dequeued cell floods only non-solid cells; downward flow goes to the front of the queue at distance 0, and sideways flow to the back at distance + 1, one step away |
| WaterFlow.AllTokens | src/main/java/com/game/minecraft/world/generations/WaterFlowSimulator.java:126-159 | the termination measure: the pairs of cell and distance still reachable, which every flooding shrinks |
| WaterFlow.SimulateWaterFlowRegion | src/main/java/com/game/minecraft/world/generations/WaterFlowSimulator.java:93-160 | the flow terminates, keeps every solid cell, and writes only WATER1 |
| WaterFlow.SimulateWaterFlowForActiveRegion | src/main/java/com/game/minecraft/world/generations/WaterFlowSimulator.java:35-91 | every active chunk keeps its links and both flags, only gains water in non-solid cells, and becomes dirty exactly when its grid changed; the same code is world/Simulator.java:181-297 |

## Left out

- Floats are exact `real`s. Vertex positions and texture coordinates (`Vertex`), chunk origins (`Chunks.Chunk.Position`) and the biome weights and averages (`TerrainGen`) carry no rounding. The -0.8 / 0.9 bounds of `TerrainGen.PlainsFallback` hold in exact arithmetic only.
- GameWorld.PlayerChunk: `Truncate` is unbounded, while Java's `(int)` of a float saturates at the int range and maps NaN to 0 (World.java:22-23); positions beyond the int range are not modelled.
- ChunkSpiral.GenerateChunksInSpiral: the loop bound `(2r+1)*(2r+1)` is exact, while Java's int product overflows for |2r+1| > 46340 (World.java:130); the count is proved for every r only in unbounded arithmetic.
- PersistStorage.Storage: saving and loading never fail. Java prints and swallows IOExceptions, so a failed save is lost and a failed load returns null (PersistStorage.java:27-28, 41-43). Files are a map; serialization and the random instance directory name are left out.
- GPU work is left out: uploading the buffers to vertex arrays and releasing them (Chunk.java:194-200, 234-262), the model matrix, and the renderer.
- Blocks: WATER1 and GREY_LEAVES are used by the mesher and the decoration passes but not declared in Blocks.java, so they have no atlas arguments there. The model gives them placeholder tiles (13, 12) and (4, 3); these are not from the source.
- FloatArrays.FloatArray.constructor: requires a positive capacity. Java accepts 0 and then fails at the first add, because doubling 0 gives 0 and the store is out of range; that failure is not modelled.
- TerrainGen: the depressed ocean surface is the oracle `oceanSurface(worldX, worldZ, surface)` of the noise parameter, not the computation at ChunkTerrainGenerator.java:86-109 (ocean scale, piecewise depth, interpolation); nothing is assumed about its value.
- Blocks.SetSolidStateAs: solidity is a value (`Solidity`) passed to the face tests. Java mutates a field of the shared enum constant (Blocks.java:61-63), so every chunk sees the change at once; the model passes the new value explicitly.
- GameWorld: World is modelled against the API of world/chunks/Chunk.java. World.java has no import for `Chunk`, so its `Chunk` resolves to world/Chunk.java in the same package, a stub with CHUNK_Y = 1 and no getAllBlocks or setBlockData; that stub is not part of this model.
- Simulator.DecorateTreesForActiveRegion: world/Simulator.java is in the same package with no import either, so its `Chunk` is the same stub; the model uses the chunks/Chunk.java API (getAllBlocks, setBlockData, a full-height grid) instead.
- GameWorld.World.CreateChunk: a fresh chunk's grid is `terrain(coord)` for a parameter `terrain`. World.java:78-79 calls `generateFlatTerrain()`, which chunks/Chunk.java does not have, so the generator the source means is unknown. The fillers `TerrainFill.GenerateFlatTerrainAt` and `TerrainGen.GenerateTerrainsAt` are modelled separately.
- The natural filler's SimpleNoise seeded by the coordinate's hash is the oracle `ColumnNoise`; the flat filler's `random.nextInt(6)` is the parameter `k`.
- The chunk loader thread, its request and result queues (world/chunks/ChunkLoader.java, world/ChunkLoader.java:35-70) and all concurrency are left out.
- Perlin noise (chunks/PerlinNoise.java, including getfBM2D at 63-81) and `java.util.Random` are oracles. TreeDecorator's methods require the fBm oracle to return values in [-1, 1] (`NoiseInRange`), which the source relies on but does not check. OreDecorator draws both its seed probability and its sizes from one counter-indexed stream.
- TreeDecorator: the tree noise is sampled at region-relative coordinates, as the source does, so the same world column can get a different tree in a different region.
- Region: chunk coordinates times 16 and region sizes are assumed to stay within the int range (`IntCoordinates`); Java's overflow for coordinates beyond ±2^27 is not modelled.
- Region: the water pass and the Simulator's tree pass take every active chunk; for none, Java's min/max bounds wrap around to a 2 × 2-chunk region of air with nothing to write back. The model returns the empty registry directly, which has the same effect. The ore and tree passes return early on an empty snapshot, as modelled.
- OreDecorator: the seeding loop's `isOre` test (OreDecorator.java:93) comes after the eligibility test and can never skip an eligible cell (`EligibleIsNotOre`), so it is not modelled as a separate branch.
- TreeDecorator: the clearance test cannot fail above a surface found by findSurfaceY (`SurfaceIsClear`); it is still modelled as written.
- WaterFlow: the flow array's fill with -1 (WaterFlowSimulator.java:94-100) is an array initializer, not a loop.
- Renderer, camera, input, shaders and the game loop are outside the world core and are not modelled.
