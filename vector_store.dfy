/**
 * The vector-store collection the pipeline writes to and counts. Only what the
 * pipeline observes is kept: each chunk's text and `title` metadata under its id.
 * The embedding vector stored beside them is not modelled.
 */
module VectorStore {

  datatype StoredChunk = StoredChunk(text: string, title: string)

  class Collection {
    var entries: map<string, StoredChunk>

    constructor ()
      ensures entries == map[]
    {
      entries := map[];
    }

    /** `collection.count()`: the number of stored chunks. */
    function Count(): nat
      reads this
    {
      |entries|
    }

    /** `collection.add(ids=[id], documents=[...], metadatas=[...])`: one chunk stored under `id`. */
    method Add(id: string, chunk: StoredChunk)
      modifies this
      ensures entries == old(entries)[id := chunk]
    {
      entries := entries[id := chunk];
    }
  }
}
