/**
 * Chunk persistence. The game writes each chunk's block data to its own file
 * named after the chunk coordinate; here the directory of files is a map from
 * coordinate to the saved grid.
 */
module PersistStorage {
  import opened Wrappers
  import opened ChunkGrid

  class Storage {
    /** One saved grid per coordinate; a coordinate without a file is absent. */
    var files: map<ChunkCoordinate, Grid>

    constructor ()
      ensures files == map[]
    {
      files := map[];
    }

    /** Writes (or overwrites) the file of coord. */
    method SaveToFile(coord: ChunkCoordinate, data: Grid)
      modifies this`files
      ensures files == old(files)[coord := data]
    {
      files := files[coord := data];
    }

    /** The saved data of coord, or None when no file exists for it. */
    method LoadFromFile(coord: ChunkCoordinate) returns (data: Option<Grid>)
      ensures data == Load(files, coord)
    {
      if coord in files {
        data := Some(files[coord]);
      } else {
        data := None;
      }
    }
  }

  function Load(files: map<ChunkCoordinate, Grid>, coord: ChunkCoordinate): (r: Option<Grid>)
    ensures r.Some? <==> coord in files
  {
    if coord in files then Some(files[coord]) else None
  }

  /** Loading a coordinate returns what was last saved for it; other files are untouched. */
  lemma LoadAfterSave(files: map<ChunkCoordinate, Grid>, coord: ChunkCoordinate, data: Grid, other: ChunkCoordinate)
    ensures Load(files[coord := data], coord) == Some(data)
    ensures other != coord ==> Load(files[coord := data], other) == Load(files, other)
  {
  }
}
