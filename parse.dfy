/** The records written to the document table: one per chunk, numbered from 1. */
module Parse {
  import opened Wrappers

  /** A chunk of a parsed PDF; only its text is used. */
  datatype Chunk = Chunk(pageContent: string)

  /** One row of the document table. */
  datatype Record = Record(text: string, id: int)

  /** `prepare_data`: the record for chunk `idx` carries its text and the id `idx + 1`. */
  function PrepareData(chunks: seq<Chunk>): (r: seq<Record>)
    ensures |r| == |chunks|
  {
    seq(|chunks|, idx requires 0 <= idx < |chunks| => Record(chunks[idx].pageContent, idx + 1))
  }

  /** The chunk a record id refers to, if any. */
  function ChunkOf(records: seq<Record>, id: int): (r: Option<nat>)
    ensures r.Some? ==> r.value < |records| && records[r.value].id == id
    ensures r.None? ==> forall i :: 0 <= i < |records| ==> records[i].id != id
    decreases |records|
  {
    if records == [] then None
    else if records[|records| - 1].id == id then Some(|records| - 1)
    else ChunkOf(records[..|records| - 1], id)
  }

  /** Ids start at 1 and strictly increase, so no two records share one. */
  lemma IdsIncreasing(chunks: seq<Chunk>)
    ensures forall i :: 0 <= i < |chunks| ==> PrepareData(chunks)[i].id == i + 1
    ensures forall i, j :: 0 <= i < j < |chunks| ==> PrepareData(chunks)[i].id < PrepareData(chunks)[j].id
  {
  }

  /**
   * Looking a record up by id gives back the chunk it was made from, unchanged; ids
   * outside 1..n name nothing.
   */
  lemma LookupRoundTrip(chunks: seq<Chunk>, id: int)
    ensures 1 <= id <= |chunks| ==>
              ChunkOf(PrepareData(chunks), id) == Some(id - 1) && PrepareData(chunks)[id - 1].text == chunks[id - 1].pageContent
    ensures !(1 <= id <= |chunks|) ==> ChunkOf(PrepareData(chunks), id) == None
  {
    var records := PrepareData(chunks);
    if 1 <= id <= |chunks| {
      assert records[id - 1].id == id;
    }
  }
}
