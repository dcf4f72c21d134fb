/**
 * The vector store (services/vector_store.py) and the storage it mirrors
 * (models/database.py): a FAISS flat index, the in-memory `_chunks` and
 * `_metadata_list` lists, the `ChunkMetadata` table keyed by a unique
 * `faiss_id`, and the index file on disk.
 *
 * FAISS is reduced to what the service observes: an index is a type name,
 * a dimension and the sequence of vectors added to it (`ntotal` is its
 * length), and nearest-neighbour search is an oracle returning
 * (distance, position) pairs. The embedding provider, the database and the
 * disk enter as parameters saying what they answered.
 */
module VectorStore {
  import opened Wrappers
  import Config

  type Vector = seq<real>

  /** A JSON scalar stored in a chunk's metadata dictionary. */
  datatype MetaValue = MNull | MBool(b: bool) | MInt(i: int) | MReal(x: real) | MStr(s: string)

  type Metadata = map<string, MetaValue>

  /** A FAISS flat index: `ntotal` is `|vectors|`. */
  datatype Index = Index(typeName: string, dim: nat, vectors: seq<Vector>)

  /** One row of the `ChunkMetadata` table. */
  datatype ChunkRow = ChunkRow(faissId: int, text: string, extra: Metadata)

  /** One (distance, position) pair of a FAISS search answer. */
  datatype Hit = Hit(distance: real, position: nat)

  /** One search result: `(chunk_text, similarity_score, metadata)`. */
  datatype SearchResult = SearchResult(text: string, score: real, metadata: Metadata)

  /** The dictionary `get_stats` returns (its `index_path` string left out). */
  datatype Stats = Stats(totalVectors: nat, chunksCount: nat, isSynced: bool, indexExists: bool)

  /** Why `add_documents` raised. */
  datatype AddError =
    | EmbeddingFailed         // the provider raised
    | NoEmbeddings            // "No embeddings generated"
    | EmbeddingCountMismatch  // one embedding per chunk was not returned
    | IndexRejected           // `index.add` raised: no index, or a vector of the wrong width

  /** The index `_create_new_index` builds: `IndexFlatL2(EMBEDDING_DIMENSION)`, empty. */
  function EmptyIndex(): (ix: Index)
    ensures ix.vectors == [] && ix.dim == Config.EMBEDDING_DIMENSION
  {
    Index("IndexFlatL2", Config.EMBEDDING_DIMENSION, [])
  }

  /** `faiss_id` is unique in the table (models/database.py:66). */
  ghost predicate UniqueIds(rows: seq<ChunkRow>) {
    forall i, j :: 0 <= i < j < |rows| ==> rows[i].faissId != rows[j].faissId
  }

  /** Some row has this `faiss_id`. */
  predicate HasId(rows: seq<ChunkRow>, id: int) {
    exists i :: 0 <= i < |rows| && rows[i].faissId == id
  }

  /** No pending row reuses a `faiss_id` already in the table. */
  predicate NoClash(rows: seq<ChunkRow>, pending: seq<ChunkRow>) {
    forall i, j :: 0 <= i < |rows| && 0 <= j < |pending| ==> rows[i].faissId != pending[j].faissId
  }

  /** The table mirrors the chunk list: row `i` has `faiss_id == i` and holds chunk `i`. */
  predicate TableMatches(rows: seq<ChunkRow>, chunks: seq<string>) {
    |rows| == |chunks| && forall i :: 0 <= i < |rows| ==> rows[i].faissId == i && rows[i].text == chunks[i]
  }

  /** `1 - distance / 2`: the similarity of a unit-length pair at squared L2 distance `distance`. */
  function Similarity(distance: real): real {
    1.0 - distance / 2.0
  }

  /** `[{}] * k`: Python's list repetition gives no element for `k <= 0`. */
  function EmptyMetadataList(k: int): (r: seq<Metadata>)
    ensures |r| == if k > 0 then k else 0
    ensures forall i :: 0 <= i < |r| ==> r[i] == map[]
  {
    if k > 0 then seq(k, _ => map[]) else []
  }

  /** The metadata `add_documents` stores for `n` chunks: `{}` per chunk when
      none is given, a shorter list padded with `{}`, a longer list kept whole. */
  function PadMetadata(metadata: Option<seq<Metadata>>, n: nat): seq<Metadata>
  {
    match metadata
    case None => EmptyMetadataList(n)
    case Some(m) => if |m| != n then m + EmptyMetadataList(n - |m|) else m
  }

  /** The rows `_save_metadata_to_db` adds: `zip` stops at the shorter list, and
      row `i` gets `faiss_id = start_id + i`. */
  function NewRows(chunks: seq<string>, metadata: seq<Metadata>, startId: int): (r: seq<ChunkRow>)
    ensures |r| == if |chunks| <= |metadata| then |chunks| else |metadata|
    ensures forall i :: 0 <= i < |r| ==> r[i] == ChunkRow(startId + i, chunks[i], metadata[i])
  {
    var n := if |chunks| <= |metadata| then |chunks| else |metadata|;
    seq(n, i requires 0 <= i < n => ChunkRow(startId + i, chunks[i], metadata[i]))
  }

  /** The error `add_documents` raises for `n > 0` chunks, or `None` when the
      vectors go into the index. */
  function AddFailure(embeddings: Option<seq<Vector>>, n: nat, index: Option<Index>): Option<AddError>
  {
    if embeddings.None? then Some(EmbeddingFailed)
    else if |embeddings.value| == 0 then Some(NoEmbeddings)
    else if |embeddings.value| != n then Some(EmbeddingCountMismatch)
    else if index.None? || exists v :: v in embeddings.value && |v| != index.value.dim then Some(IndexRejected)
    else None
  }

  /** Everything a vector store and its storage hold: the index, the chunk
      texts, their metadata, the table's rows and the index file. */
  datatype StoreState = StoreState(index: Option<Index>, chunks: seq<string>, metadataList: seq<Metadata>,
                                   rows: seq<ChunkRow>, indexFile: Option<Index>)

  /** The state a successful `add_documents(newChunks, metadata)` leaves
      behind, given the embeddings it stored: the vectors appended to the
      index, the chunks appended, their metadata padded and appended, one row
      per chunk committed when the database answers and no `faiss_id` clashes
      (the batch is rolled back otherwise), and the index file rewritten when
      the disk answers. */
  predicate DocumentsAdded(before: StoreState, after: StoreState, newChunks: seq<string>,
                           metadata: Option<seq<Metadata>>, embeddings: seq<Vector>, dbUp: bool, diskUp: bool)
  {
    && before.index.Some?
    && after.index == Some(before.index.value.(vectors := before.index.value.vectors + embeddings))
    && after.chunks == before.chunks + newChunks
    && after.metadataList == before.metadataList + PadMetadata(metadata, |newChunks|)
    && (var added := NewRows(newChunks, PadMetadata(metadata, |newChunks|), |before.chunks|);
        after.rows == if dbUp && NoClash(before.rows, added) then before.rows + added else before.rows)
    && after.indexFile == if diskUp then after.index else before.indexFile
  }

  /** `search` keeps a hit when its similarity reaches the threshold and its
      position names a chunk. */
  predicate Keep(h: Hit, threshold: real, chunks: seq<string>) {
    Similarity(h.distance) >= threshold && h.position < |chunks|
  }

  /** The result a kept hit becomes; metadata defaults to `{}` past the end of
      the metadata list. */
  function ResultOf(h: Hit, chunks: seq<string>, metadataList: seq<Metadata>): SearchResult
    requires h.position < |chunks|
  {
    SearchResult(chunks[h.position], Similarity(h.distance),
                 if h.position < |metadataList| then metadataList[h.position] else map[])
  }

  /** The results `search` builds from the hits FAISS returned, in hit order. */
  function FilterHits(hits: seq<Hit>, threshold: real, chunks: seq<string>, metadataList: seq<Metadata>): (r: seq<SearchResult>)
    ensures |r| <= |hits|
    ensures forall j :: 0 <= j < |r| ==> r[j].score >= threshold && r[j].text in chunks
  {
    if |hits| == 0 then []
    else
      var h := hits[|hits| - 1];
      FilterHits(hits[..|hits| - 1], threshold, chunks, metadataList)
        + if Keep(h, threshold, chunks) then [ResultOf(h, chunks, metadataList)] else []
  }

  /** `top_k or TOP_K_RESULTS`, capped at `ntotal`. */
  function RequestedK(topK: Option<int>, ntotal: nat): (k: int)
    ensures k <= ntotal
    ensures topK.None? || topK.value == 0 ==> k == if Config.TOP_K_RESULTS <= ntotal then Config.TOP_K_RESULTS else ntotal
  {
    var t := if topK.None? || topK.value == 0 then Config.TOP_K_RESULTS as int else topK.value;
    if t <= ntotal then t else ntotal
  }

  /** The threshold in force: the argument, or `SIMILARITY_THRESHOLD` when it is `None`. */
  function EffectiveThreshold(threshold: Option<real>): real {
    threshold.GetOr(Config.SIMILARITY_THRESHOLD)
  }

  /** What `search` returns: nothing for a missing or empty index; nothing when
      embedding the query, or FAISS's search (a `k` below 1, a query of the
      wrong width) raises; otherwise the filtered hits. */
  function SearchAnswer(index: Option<Index>, chunks: seq<string>, metadataList: seq<Metadata>,
                        topK: Option<int>, threshold: Option<real>, queryEmbedding: Option<Vector>,
                        nearest: (Vector, nat) -> seq<Hit>): seq<SearchResult>
  {
    if index.None? || |index.value.vectors| == 0 then []
    else
      var k := RequestedK(topK, |index.value.vectors|);
      if queryEmbedding.None? || k <= 0 || |queryEmbedding.value| != index.value.dim then []
      else FilterHits(nearest(queryEmbedding.value, k as nat), EffectiveThreshold(threshold), chunks, metadataList)
  }

  /** The database and the disk: the `ChunkMetadata` rows in insertion order and
      the index file, if one is written. */
  class Storage {
    var rows: seq<ChunkRow>
    var indexFile: Option<Index>

    ghost predicate Valid()
      reads this
    {
      UniqueIds(rows)
    }

    constructor (rows0: seq<ChunkRow>, file0: Option<Index>)
      requires UniqueIds(rows0)
      ensures Valid() && rows == rows0 && indexFile == file0
    {
      rows := rows0;
      indexFile := file0;
    }

    /** `db.add` of every pending row, then `db.commit()`. The session rolls
        the whole batch back when the database is unreachable or a `faiss_id`
        is already taken. */
    method Commit(pending: seq<ChunkRow>, dbUp: bool) returns (ok: bool)
      requires Valid() && UniqueIds(pending)
      modifies this`rows
      ensures Valid()
      ensures ok == (dbUp && NoClash(old(rows), pending))
      ensures rows == if ok then old(rows) + pending else old(rows)
    {
      ok := dbUp && NoClash(rows, pending);
      if ok {
        ghost var before := rows;
        rows := rows + pending;
        forall i, j | 0 <= i < j < |rows| ensures rows[i].faissId != rows[j].faissId {
          if j >= |before| && i < |before| {
            assert rows[i] == before[i] && rows[j] == pending[j - |before|];
          }
        }
      }
    }

    /** `db.query(ChunkMetadata).delete()` and commit; nothing changes when
        the database fails. */
    method DeleteAllRows(dbUp: bool) returns (ok: bool)
      requires Valid()
      modifies this`rows
      ensures Valid()
      ensures ok == dbUp
      ensures rows == if ok then [] else old(rows)
    {
      ok := dbUp;
      if ok {
        rows := [];
      }
    }

    /** `index_path.unlink()`: raises `FileNotFoundError` when there is no file. */
    method Unlink() returns (ok: bool)
      modifies this`indexFile
      ensures ok == old(indexFile).Some?
      ensures indexFile == None
    {
      ok := indexFile.Some?;
      indexFile := None;
    }
  }

  class VectorStoreService {
    const storage: Storage
    var index: Option<Index>
    var chunks: seq<string>
    var metadataList: seq<Metadata>

    /** The table keeps its `faiss_id`s unique, and every chunk has a metadata entry. */
    ghost predicate Valid()
      reads this, storage
    {
      storage.Valid() && |metadataList| >= |chunks|
    }

    /** `ntotal` of the index, 0 when there is none. */
    function TotalVectors(): (n: nat)
      reads this
      ensures index.Some? ==> n == |index.value.vectors|
      ensures index.None? ==> n == 0
    {
      if index.Some? then |index.value.vectors| else 0
    }

    /** The whole state, for stating what an operation changes. */
    function State(): StoreState
      reads this, storage
    {
      StoreState(index, chunks, metadataList, storage.rows, storage.indexFile)
    }

    /** `get_stats()["is_synced"]`. */
    predicate Synced()
      reads this
    {
      TotalVectors() == |chunks|
    }

    /** `__init__` followed by `_load_or_create_index`. An index file is read
        when `readOk`; its chunks and metadata then come from the table, or
        stay empty when the database fails (`dbUp` false). A missing or
        unreadable file gives a new empty index. */
    constructor (storage: Storage, readOk: bool, dbUp: bool)
      requires storage.Valid()
      ensures Valid() && this.storage == storage
      ensures storage.indexFile.Some? && readOk ==> index == storage.indexFile
      ensures storage.indexFile.Some? && readOk && dbUp ==>
                chunks == RowTexts(storage.rows) && metadataList == RowMetadata(storage.rows)
      ensures storage.indexFile.Some? && readOk && !dbUp ==> chunks == [] && metadataList == []
      ensures !(storage.indexFile.Some? && readOk) ==> index == Some(EmptyIndex()) && chunks == [] && metadataList == []
    {
      this.storage := storage;
      if storage.indexFile.Some? && readOk {
        index := storage.indexFile;
        if dbUp {
          chunks := RowTexts(storage.rows);
          metadataList := RowMetadata(storage.rows);
        } else {
          chunks := [];
          metadataList := [];
        }
      } else {
        index := Some(EmptyIndex());
        chunks := [];
        metadataList := [];
      }
    }

    /** `_create_new_index`: an empty `IndexFlatL2` and empty lists, which is a synced state. */
    method CreateNewIndex()
      requires Valid()
      modifies this`index, this`chunks, this`metadataList
      ensures Valid() && Synced()
      ensures index == Some(EmptyIndex()) && chunks == [] && metadataList == []
    {
      index := Some(EmptyIndex());
      chunks := [];
      metadataList := [];
    }

    /** `_save_metadata_to_db`: one row per (chunk, metadata) pair, `faiss_id =
        start_id + i`, committed together; failures are swallowed. */
    method SaveMetadataToDb(newChunks: seq<string>, metadata: seq<Metadata>, startId: int, dbUp: bool)
      requires storage.Valid()
      modifies storage`rows
      ensures storage.Valid()
      ensures var added := NewRows(newChunks, metadata, startId);
              storage.rows == if dbUp && NoClash(old(storage.rows), added) then old(storage.rows) + added
                              else old(storage.rows)
    {
      var pending: seq<ChunkRow> := [];
      var i := 0;
      while i < |newChunks| && i < |metadata|
        invariant 0 <= i <= |newChunks| && i <= |metadata|
        invariant pending == NewRows(newChunks[..i], metadata[..i], startId)
      {
        pending := pending + [ChunkRow(startId + i, newChunks[i], metadata[i])];
        i := i + 1;
      }
      assert pending == NewRows(newChunks, metadata, startId);
      var _ := storage.Commit(pending, dbUp);
    }

    /** `_save_index`: the file now holds the index, unless the write fails. */
    method SaveIndex(diskUp: bool)
      modifies storage`indexFile
      ensures storage.indexFile == if diskUp && index.Some? then index else old(storage.indexFile)
    {
      if diskUp && index.Some? {
        storage.indexFile := index;
      }
    }

    /** `add_documents(chunks, metadata)` with the provider's answer `embeddings`
        (`None` when it raised) and the database and disk outcomes. */
    method AddDocuments(newChunks: seq<string>, metadata: Option<seq<Metadata>>,
                        embeddings: Option<seq<Vector>>, dbUp: bool, diskUp: bool)
      returns (err: Option<AddError>)
      requires Valid()
      modifies this`index, this`chunks, this`metadataList, storage
      ensures Valid()
      ensures err == if |newChunks| == 0 then None else AddFailure(embeddings, |newChunks|, old(index))
      ensures |newChunks| == 0 || err.Some? ==>
                index == old(index) && chunks == old(chunks) && metadataList == old(metadataList)
                && storage.rows == old(storage.rows) && storage.indexFile == old(storage.indexFile)
      ensures |newChunks| > 0 && err.None? ==>
                DocumentsAdded(old(State()), State(), newChunks, metadata, embeddings.value, dbUp, diskUp)
      ensures |newChunks| > 0 && err.None? && old(Synced()) ==> Synced()
    {
      if |newChunks| == 0 {
        return None;
      }
      var padded := PadMetadata(metadata, |newChunks|);
      err := AddFailure(embeddings, |newChunks|, index);
      if err.Some? {
        return;
      }
      index := Some(index.value.(vectors := index.value.vectors + embeddings.value));
      var startId := |chunks|;
      chunks := chunks + newChunks;
      metadataList := metadataList + padded;
      SaveMetadataToDb(newChunks, padded, startId, dbUp);
      SaveIndex(diskUp);
    }

    /** `search(query, top_k, threshold)` given the query's embedding
        (`None` when the provider raised) and FAISS's answer `nearest(q, k)`. */
    method Search(topK: Option<int>, threshold: Option<real>, queryEmbedding: Option<Vector>,
                  nearest: (Vector, nat) -> seq<Hit>)
      returns (results: seq<SearchResult>)
      ensures results == SearchAnswer(index, chunks, metadataList, topK, threshold, queryEmbedding, nearest)
      ensures TotalVectors() == 0 || queryEmbedding.None? || RequestedK(topK, TotalVectors()) <= 0 ==> results == []
      ensures forall j :: 0 <= j < |results| ==> results[j].score >= EffectiveThreshold(threshold) && results[j].text in chunks
    {
      if index.None? || |index.value.vectors| == 0 {
        return [];
      }
      var thr := EffectiveThreshold(threshold);
      var k := RequestedK(topK, |index.value.vectors|);
      if queryEmbedding.None? || k <= 0 || |queryEmbedding.value| != index.value.dim {
        return [];
      }
      var hits := nearest(queryEmbedding.value, k as nat);
      results := [];
      var i := 0;
      while i < |hits|
        invariant 0 <= i <= |hits|
        invariant results == FilterHits(hits[..i], thr, chunks, metadataList)
      {
        var h := hits[i];
        if Similarity(h.distance) >= thr && h.position < |chunks| {
          var meta := if h.position < |metadataList| then metadataList[h.position] else map[];
          results := results + [SearchResult(chunks[h.position], Similarity(h.distance), meta)];
        }
        assert hits[..i + 1][..i] == hits[..i];
        i := i + 1;
      }
      assert hits[..|hits|] == hits;
    }

    /** `get_stats()`. */
    function GetStats(): (s: Stats)
      reads this, storage
      ensures s.isSynced <==> s.totalVectors == s.chunksCount
      ensures s.totalVectors == (if index.Some? then |index.value.vectors| else 0)
      ensures s.chunksCount == |chunks| && s.indexExists == storage.indexFile.Some?
    {
      Stats(TotalVectors(), |chunks|, Synced(), storage.indexFile.Some?)
    }
  }

  /** `[record.chunk_text for record in records]`. */
  function RowTexts(rows: seq<ChunkRow>): (r: seq<string>)
    ensures |r| == |rows| && forall i :: 0 <= i < |rows| ==> r[i] == rows[i].text
  {
    seq(|rows|, i requires 0 <= i < |rows| => rows[i].text)
  }

  /** `[record.extra_metadata or {} for record in records]`. */
  function RowMetadata(rows: seq<ChunkRow>): (r: seq<Metadata>)
    ensures |r| == |rows| && forall i :: 0 <= i < |rows| ==> r[i] == rows[i].extra
  {
    seq(|rows|, i requires 0 <= i < |rows| => rows[i].extra)
  }
}

/** Properties of the vector store's specification functions. */
module VectorStoreFacts {
  import opened Wrappers
  import opened VectorStore

  /** Filtering is done hit by hit and keeps FAISS's order. */
  lemma {:induction false} FilterHitsAppend(h1: seq<Hit>, h2: seq<Hit>, threshold: real, chunks: seq<string>, md: seq<Metadata>)
    ensures FilterHits(h1 + h2, threshold, chunks, md) == FilterHits(h1, threshold, chunks, md) + FilterHits(h2, threshold, chunks, md)
    decreases |h2|
  {
    if |h2| == 0 {
      assert h1 + h2 == h1;
    } else {
      var init := h2[..|h2| - 1];
      FilterHitsAppend(h1, init, threshold, chunks, md);
      assert (h1 + h2)[..|h1 + h2| - 1] == h1 + init;
      assert (h1 + h2)[|h1 + h2| - 1] == h2[|h2| - 1];
    }
  }

  /** Every result comes from a kept hit: its text is the chunk at the hit's
      position and its score the hit's similarity. */
  lemma {:induction false} FilterHitsSound(hits: seq<Hit>, threshold: real, chunks: seq<string>, md: seq<Metadata>, j: nat)
    requires j < |FilterHits(hits, threshold, chunks, md)|
    ensures exists i :: 0 <= i < |hits| && Keep(hits[i], threshold, chunks)
                        && FilterHits(hits, threshold, chunks, md)[j] == ResultOf(hits[i], chunks, md)
    decreases |hits|
  {
    var init := hits[..|hits| - 1];
    var r0 := FilterHits(init, threshold, chunks, md);
    if j < |r0| {
      FilterHitsSound(init, threshold, chunks, md, j);
      var i :| 0 <= i < |init| && Keep(init[i], threshold, chunks) && r0[j] == ResultOf(init[i], chunks, md);
      assert hits[i] == init[i];
    } else {
      assert Keep(hits[|hits| - 1], threshold, chunks);
    }
  }

  /** Every kept hit gives a result. */
  lemma {:induction false} FilterHitsComplete(hits: seq<Hit>, threshold: real, chunks: seq<string>, md: seq<Metadata>, i: nat)
    requires i < |hits| && Keep(hits[i], threshold, chunks)
    ensures ResultOf(hits[i], chunks, md) in FilterHits(hits, threshold, chunks, md)
    decreases |hits|
  {
    if i < |hits| - 1 {
      FilterHitsComplete(hits[..|hits| - 1], threshold, chunks, md, i);
    }
  }

  /** While every chunk has a metadata entry, no result gets the `{}` default:
      a result carries the metadata stored at its hit's position. */
  lemma KeptMetadataNotDefaulted(hits: seq<Hit>, threshold: real, chunks: seq<string>, md: seq<Metadata>, j: nat)
    requires |md| >= |chunks|
    requires j < |FilterHits(hits, threshold, chunks, md)|
    ensures exists i :: 0 <= i < |hits| && hits[i].position < |chunks|
                        && FilterHits(hits, threshold, chunks, md)[j].metadata == md[hits[i].position]
                        && FilterHits(hits, threshold, chunks, md)[j].text == chunks[hits[i].position]
  {
    FilterHitsSound(hits, threshold, chunks, md, j);
  }

  /** When no hit is farther than `d`, no result scores below the similarity of `d`. */
  lemma {:induction false} FilterHitsScoreBound(hits: seq<Hit>, threshold: real, chunks: seq<string>, md: seq<Metadata>, d: real)
    requires forall i :: 0 <= i < |hits| ==> hits[i].distance <= d
    ensures forall j :: 0 <= j < |FilterHits(hits, threshold, chunks, md)| ==>
              FilterHits(hits, threshold, chunks, md)[j].score >= Similarity(d)
    decreases |hits|
  {
    if |hits| > 0 {
      FilterHitsScoreBound(hits[..|hits| - 1], threshold, chunks, md, d);
    }
  }

  predicate NonIncreasingScores(r: seq<SearchResult>) {
    forall i, j :: 0 <= i < j < |r| ==> r[i].score >= r[j].score
  }

  /** FAISS answers in ascending distance, so the results come out with
      non-increasing scores. */
  lemma {:induction false} ScoresNonIncreasing(hits: seq<Hit>, threshold: real, chunks: seq<string>, md: seq<Metadata>)
    requires forall i, j :: 0 <= i < j < |hits| ==> hits[i].distance <= hits[j].distance
    ensures NonIncreasingScores(FilterHits(hits, threshold, chunks, md))
    decreases |hits|
  {
    if |hits| > 0 {
      var init := hits[..|hits| - 1];
      var last := hits[|hits| - 1];
      ScoresNonIncreasing(init, threshold, chunks, md);
      FilterHitsScoreBound(init, threshold, chunks, md, last.distance);
      var r0 := FilterHits(init, threshold, chunks, md);
      var r := FilterHits(hits, threshold, chunks, md);
      assert r == r0 + if Keep(last, threshold, chunks) then [ResultOf(last, chunks, md)] else [];
      assert NonIncreasingScores(r0);
      forall i, j | 0 <= i < j < |r| ensures r[i].score >= r[j].score {
        if j >= |r0| {
          assert r[j] == ResultOf(last, chunks, md) && r[i] == r0[i];
          assert r0[i].score >= Similarity(last.distance);
        } else {
          assert r[i] == r0[i] && r[j] == r0[j];
          assert r0[i].score >= r0[j].score;
        }
      }
    }
  }

  /** Given a shorter metadata list, chunk `i` gets entry `i`, or `{}` past its
      end; with none, every chunk gets `{}`. At least one entry per chunk is
      always stored. */
  lemma PadMetadataCovers(metadata: Option<seq<Metadata>>, n: nat, i: nat)
    requires i < n
    ensures |PadMetadata(metadata, n)| >= n
    ensures PadMetadata(metadata, n)[i] ==
              if metadata.Some? && i < |metadata.value| then metadata.value[i] else map[]
  {
  }

  /** A metadata list longer than the chunk list is stored whole: the
      metadata list then grows by more than the chunk list does. */
  lemma PadMetadataKeepsLonger(m: seq<Metadata>, n: nat)
    requires |m| > n
    ensures PadMetadata(Some(m), n) == m
  {
  }

  /** A table that mirrors the chunk list keeps mirroring it after
      `add_documents` appends: ids start at `len(_chunks)`, so no id clashes. */
  lemma {:induction false} AppendKeepsTableMatching(rows: seq<ChunkRow>, chunks: seq<string>, newChunks: seq<string>, md: seq<Metadata>)
    requires TableMatches(rows, chunks)
    requires |md| >= |newChunks|
    ensures NoClash(rows, NewRows(newChunks, md, |chunks|))
    ensures TableMatches(rows + NewRows(newChunks, md, |chunks|), chunks + newChunks)
  {
    var added := NewRows(newChunks, md, |chunks|);
    var all := rows + added;
    forall i | 0 <= i < |all| ensures all[i].faissId == i && all[i].text == (chunks + newChunks)[i] {
      if i >= |rows| {
        assert all[i] == added[i - |rows|];
      }
    }
  }

  /** Loading a mirroring table back gives the chunk list. */
  lemma LoadMatchingTable(rows: seq<ChunkRow>, chunks: seq<string>)
    requires TableMatches(rows, chunks)
    ensures RowTexts(rows) == chunks
  {
  }

  /** A table that mirrors a chunk list has a row for every position. */
  lemma MatchingTableHasEveryId(rows: seq<ChunkRow>, chunks: seq<string>, id: nat)
    requires TableMatches(rows, chunks) && id < |chunks|
    ensures HasId(rows, id)
  {
    assert rows[id].faissId == id;
  }
}
