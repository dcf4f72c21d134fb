/**
 * The main API routes (api/routes.py) over the application's shared vector
 * store and retrieval service: `/health`, `/reset-vector-store`, `/query`,
 * `/ingest` and `/ingest/upload`.
 *
 * The synthesis model, the chunker and the file loader are external; they
 * enter as functions or values saying what they answered (`None` when they
 * raised). Query logging goes to the analytics service and is not modelled.
 */
module Routes {
  import opened Wrappers
  import opened PyStr
  import Config
  import opened VectorStore
  import opened Retrieval

  /** The `/health` status strings. */
  const HEALTHY: string := "healthy"
  const CHUNKS_WITHOUT_VECTORS: string := "warning - chunks exist but no vectors in index"
  const STORE_EMPTY: string := "empty - no documents ingested"

  /** The `/health` status for the store's statistics. */
  function HealthStatus(stats: Stats): (status: string)
    ensures status == HEALTHY <==> stats.totalVectors > 0
    ensures status == CHUNKS_WITHOUT_VECTORS <==> stats.totalVectors == 0 && stats.chunksCount > 0
    ensures status == STORE_EMPTY <==> stats.totalVectors == 0 && stats.chunksCount == 0
  {
    if stats.totalVectors == 0 && stats.chunksCount > 0 then CHUNKS_WITHOUT_VECTORS
    else if stats.totalVectors == 0 then STORE_EMPTY
    else HEALTHY
  }

  /** `/reset-vector-store`: the files in the store directory are removed,
      the index and lists recreated empty, and the `ChunkMetadata` rows
      deleted; a database failure (`dbUp` false) is only logged. Returns the
      statistics the answer carries. */
  method ResetVectorStore(svc: VectorStoreService, dbUp: bool) returns (stats: Stats)
    requires svc.Valid()
    modifies svc`index, svc`chunks, svc`metadataList, svc.storage
    ensures svc.Valid() && svc.Synced()
    ensures svc.index == Some(EmptyIndex()) && svc.chunks == [] && svc.metadataList == []
    ensures svc.storage.indexFile == None
    ensures svc.storage.rows == if dbUp then [] else old(svc.storage.rows)
    ensures stats == svc.GetStats() && stats == Stats(0, 0, true, false)
    ensures HealthStatus(stats) == STORE_EMPTY
  {
    if svc.storage.indexFile.Some? {
      var _ := svc.storage.Unlink();
    }
    svc.index := None;
    svc.CreateNewIndex();
    var _ := svc.storage.DeleteAllRows(dbUp);
    stats := svc.GetStats();
  }

  /** One entry of the `/query` answer's `sources`. */
  datatype Source = Source(chunk: string, similarity: real, metadata: Metadata)

  /** The chunk text a source shows: the first 200 characters and "..." when
      the chunk is longer. */
  function Preview(chunk: string): (p: string)
    ensures |p| <= 203
    ensures |chunk| <= 200 ==> p == chunk
    ensures |chunk| > 200 ==> |p| == 203 && p[..200] == chunk[..200] && p[200..] == "..."
  {
    if |chunk| > 200 then chunk[..200] + "..." else chunk
  }

  /** The `sources` of a `/query` answer: one per result, in the same order. */
  function Sources(results: seq<SearchResult>): (s: seq<Source>)
    ensures |s| == |results|
    ensures forall i :: 0 <= i < |s| ==>
              s[i] == Source(Preview(results[i].text), results[i].score, results[i].metadata)
  {
    seq(|results|, i requires 0 <= i < |results| =>
      Source(Preview(results[i].text), results[i].score, results[i].metadata))
  }

  /** What the `/query` answer text says. */
  datatype Answer =
    | StoreEmpty(chunksCount: nat)          // 0 vectors: nothing was searched
    | NothingMatched(totalVectors: nat)     // both attempts found nothing
    | ContextUnformatted(resultCount: nat)  // results, but a blank context
    | Synthesized(text: string)             // the synthesis model's answer
    | SynthesisFailed(resultCount: nat)     // the synthesis model raised

  datatype QueryResponse = QueryResponse(answer: Answer, sources: seq<Source>)

  /** What `retrieve(query, top_k, threshold)` answers on the shared services. */
  function Retrieved(rs: RetrievalService, topK: Option<int>, threshold: Option<real>,
                     queryEmbedding: Option<Vector>, nearest: (Vector, nat) -> seq<Hit>,
                     rerank: (seq<SearchResult>, Option<int>) -> RerankOutcome): seq<SearchResult>
    reads rs, rs.store
  {
    AfterRerank(rs.useReranker,
                SearchAnswer(rs.store.index, rs.store.chunks, rs.store.metadataList,
                             CandidateK(rs.useReranker, topK), threshold, queryEmbedding, nearest),
                None, topK, rerank)
  }

  /** The `top_k` of the second attempt: `(top_k or TOP_K_RESULTS) * 2`. */
  function RetryTopK(topK: Option<int>): (k: Option<int>)
    ensures topK.Some? && topK.value != 0 ==> k == Some(2 * topK.value)
    ensures topK.None? || topK.value == 0 ==> k == Some(2 * Config.TOP_K_RESULTS)
  {
    Some(OrInt(topK, Some(Config.TOP_K_RESULTS)).value * 2)
  }

  /** The results `/query` goes on with: the first attempt's when it found
      something, else those of the one retry with the wider `top_k` and
      threshold 0. */
  function QueryResults(rs: RetrievalService, topK: Option<int>, threshold: Option<real>,
                        queryEmbedding: Option<Vector>, nearest: (Vector, nat) -> seq<Hit>,
                        rerank: (seq<SearchResult>, Option<int>) -> RerankOutcome): seq<SearchResult>
    reads rs, rs.store
  {
    var first := Retrieved(rs, topK, threshold, queryEmbedding, nearest, rerank);
    if first != [] then first
    else Retrieved(rs, RetryTopK(topK), Some(0.0), queryEmbedding, nearest, rerank)
  }

  /** `/query` with top_k `topK` and threshold `threshold`. The query's
      embedding, FAISS, the reranker and the synthesis model (`None` when it
      raised) enter as parameters. The ghost `attempts` lists the
      `(top_k, threshold)` of every `retrieve` call, in order. */
  method QueryDocuments(rs: RetrievalService, topK: Option<int>, threshold: Option<real>,
                        queryEmbedding: Option<Vector>, nearest: (Vector, nat) -> seq<Hit>,
                        rerank: (seq<SearchResult>, Option<int>) -> RerankOutcome,
                        parseInt: string -> Option<int>, fmt3: real -> string,
                        synthesize: string -> Option<string>)
    returns (response: QueryResponse, ghost attempts: seq<(Option<int>, Option<real>)>)
    requires rs.Valid()
    ensures rs.store.TotalVectors() == 0 ==>
              attempts == [] && response == QueryResponse(StoreEmpty(|rs.store.chunks|), [])
    ensures rs.store.TotalVectors() > 0 ==>
              && 1 <= |attempts| <= 2 && attempts[0] == (topK, threshold)
              && (|attempts| == 2 <==> Retrieved(rs, topK, threshold, queryEmbedding, nearest, rerank) == [])
              && (|attempts| == 2 ==> attempts[1] == (RetryTopK(topK), Some(0.0)))
    ensures var results := QueryResults(rs, topK, threshold, queryEmbedding, nearest, rerank);
            rs.store.TotalVectors() > 0 ==>
              && (results == [] ==> response == QueryResponse(NothingMatched(rs.store.TotalVectors()), []))
              && (results != [] ==> response.sources == Sources(results))
              && (results != [] ==>
                    var context := FormattedContext(results, parseInt, fmt3);
                    response.answer == if synthesize(context).Some? then Synthesized(synthesize(context).value)
                                       else SynthesisFailed(|results|))
    ensures !response.answer.ContextUnformatted?
  {
    var stats := rs.store.GetStats();
    if stats.totalVectors == 0 {
      return QueryResponse(StoreEmpty(stats.chunksCount), []), [];
    }
    attempts := [(topK, threshold)];
    var results, _ := rs.Retrieve(topK, threshold, None, queryEmbedding, nearest, rerank);
    if results == [] {
      attempts := attempts + [(RetryTopK(topK), Some(0.0))];
      var retried, _ := rs.Retrieve(RetryTopK(topK), Some(0.0), None, queryEmbedding, nearest, rerank);
      results := retried;
      if results == [] {
        return QueryResponse(NothingMatched(stats.totalVectors), []), attempts;
      }
    }
    var context := rs.FormatContext(results, parseInt, fmt3);
    var answer;
    var count: nat := |results|;
    if IsBlank(context) {
      answer := ContextUnformatted(count);
    } else {
      var synthesized := synthesize(context);
      answer := if synthesized.Some? then Synthesized(synthesized.value) else SynthesisFailed(count);
    }
    response := QueryResponse(answer, Sources(results));
  }

  /** A loaded document: its text and its metadata dictionary. */
  datatype Doc = Doc(text: string, metadata: Metadata)

  /** The copy of a document's metadata the ingest routes make, with
      `filename` and `source` set to the file name. (`metadata.copy() if
      metadata else {}` is the same dictionary: an empty one is replaced by
      an empty one.) */
  function Stamp(m: Metadata, filename: string): (r: Metadata)
    ensures r.Keys == m.Keys + {"filename", "source"}
    ensures r["filename"] == MStr(filename) && r["source"] == MStr(filename)
    ensures forall k :: k in m && k != "filename" && k != "source" ==> r[k] == m[k]
  {
    m["filename" := MStr(filename)]["source" := MStr(filename)]
  }

  /** Every document, in order, with its metadata stamped. */
  function StampAll(docs: seq<Doc>, filename: string): (r: seq<Doc>)
    ensures |r| == |docs|
    ensures forall i :: 0 <= i < |r| ==> r[i].text == docs[i].text && r[i].metadata == Stamp(docs[i].metadata, filename)
  {
    seq(|docs|, i requires 0 <= i < |docs| => Doc(docs[i].text, Stamp(docs[i].metadata, filename)))
  }

  /** The stamping loop of both ingest routes: `updated_documents` is built
      one copy at a time; the input is left as it was. */
  method StampDocuments(docs: seq<Doc>, filename: string) returns (updated: seq<Doc>)
    ensures updated == StampAll(docs, filename)
  {
    updated := [];
    var i := 0;
    while i < |docs|
      invariant 0 <= i <= |docs|
      invariant updated == StampAll(docs[..i], filename)
    {
      updated := updated + [Doc(docs[i].text, Stamp(docs[i].metadata, filename))];
      i := i + 1;
    }
    assert docs[..|docs|] == docs;
  }

  /** The texts and the metadata of chunked documents, as two lists. */
  function Texts(docs: seq<Doc>): (r: seq<string>)
    ensures |r| == |docs| && forall i :: 0 <= i < |r| ==> r[i] == docs[i].text
  {
    seq(|docs|, i requires 0 <= i < |docs| => docs[i].text)
  }

  function Metas(docs: seq<Doc>): (r: seq<Metadata>)
    ensures |r| == |docs| && forall i :: 0 <= i < |r| ==> r[i] == docs[i].metadata
  {
    seq(|docs|, i requires 0 <= i < |docs| => docs[i].metadata)
  }

  /** The `/ingest` request body. */
  datatype IngestRequest = IngestRequest(filePath: Option<string>, text: Option<string>)

  /** The `/ingest` answer (its message string left out). */
  datatype IngestResponse = IngestResponse(chunksAdded: nat, totalChunks: nat)

  /** Python truthiness of an optional string. */
  predicate Given(s: Option<string>) {
    s.Some? && s.value != ""
  }

  /** The chunks `/ingest` would add and their metadata, or `None` when the
      route raised first: neither input given, or the file failed to load
      (`loaded` is `None`). `fileName` is the file path's last component. */
  function IngestChunks(request: IngestRequest, fileName: string, loaded: Option<seq<Doc>>,
                        chunkDocs: seq<Doc> -> seq<Doc>, chunkText: string -> seq<string>)
    : Option<(seq<string>, seq<Metadata>)>
  {
    if Given(request.filePath) then
      if loaded.None? then None
      else
        var chunked := chunkDocs(StampAll(loaded.value, fileName));
        Some((Texts(chunked), Metas(chunked)))
    else if Given(request.text) then
      var chunks := chunkText(request.text.value);
      Some((chunks, EmptyMetadataList(|chunks|)))
    else None
  }

  /** `/ingest`. The 400s for a missing input and for an empty chunk list are
      raised inside the route's blanket `except`, so they reach the client as
      500, like every other failure. */
  method IngestDocuments(svc: VectorStoreService, request: IngestRequest, fileName: string,
                         loaded: Option<seq<Doc>>, chunkDocs: seq<Doc> -> seq<Doc>,
                         chunkText: string -> seq<string>,
                         embeddings: Option<seq<Vector>>, dbUp: bool, diskUp: bool)
    returns (r: Result<IngestResponse, nat>)
    requires svc.Valid()
    modifies svc`index, svc`chunks, svc`metadataList, svc.storage
    ensures svc.Valid()
    ensures r.Err? ==> r.error == 500
    ensures var input := IngestChunks(request, fileName, loaded, chunkDocs, chunkText);
            && (r.Ok? <==> input.Some? && |input.value.0| > 0
                           && AddFailure(embeddings, |input.value.0|, old(svc.index)).None?)
            && (r.Ok? ==> r.value == IngestResponse(|input.value.0|, old(svc.TotalVectors()) + |input.value.0|)
                          && DocumentsAdded(old(svc.State()), svc.State(), input.value.0, Some(input.value.1),
                                            embeddings.value, dbUp, diskUp))
    ensures r.Err? ==> svc.index == old(svc.index) && svc.chunks == old(svc.chunks)
                       && svc.metadataList == old(svc.metadataList)
                       && svc.storage.rows == old(svc.storage.rows)
                       && svc.storage.indexFile == old(svc.storage.indexFile)
  {
    var chunks: seq<string>;
    var metadataList: seq<Metadata>;
    if Given(request.filePath) {
      if loaded.None? {
        return Err(500);
      }
      var stamped := StampDocuments(loaded.value, fileName);
      var chunked := chunkDocs(stamped);
      chunks, metadataList := Texts(chunked), Metas(chunked);
    } else if Given(request.text) {
      chunks := chunkText(request.text.value);
      metadataList := EmptyMetadataList(|chunks|);
    } else {
      // HTTPException(400), caught by the `except Exception` below it
      return Err(500);
    }
    if |chunks| == 0 {
      // HTTPException(400), caught likewise
      return Err(500);
    }
    r := AddAndReport(svc, chunks, metadataList, embeddings, dbUp, diskUp);
  }

  /** The status of an ingest route that failed on the server's side. */
  const SERVER_ERROR: nat := 500

  /** The tail both ingest routes share: `add_documents` on the chunks, then
      the statistics, whose vector count must not be 0 (after a successful
      add it never is). */
  method AddAndReport(svc: VectorStoreService, chunks: seq<string>, metadataList: seq<Metadata>,
                      embeddings: Option<seq<Vector>>, dbUp: bool, diskUp: bool)
    returns (r: Result<IngestResponse, nat>)
    requires svc.Valid() && |chunks| > 0
    modifies svc`index, svc`chunks, svc`metadataList, svc.storage
    ensures svc.Valid()
    ensures AddFailure(embeddings, |chunks|, old(svc.index)).Some? ==> r == Err(SERVER_ERROR)
    ensures AddFailure(embeddings, |chunks|, old(svc.index)).None? ==>
              r == Ok(IngestResponse(|chunks|, old(svc.TotalVectors()) + |chunks|))
              && DocumentsAdded(old(svc.State()), svc.State(), chunks, Some(metadataList), embeddings.value, dbUp, diskUp)
    ensures r.Err? ==> svc.index == old(svc.index) && svc.chunks == old(svc.chunks)
                       && svc.metadataList == old(svc.metadataList)
                       && svc.storage.rows == old(svc.storage.rows)
                       && svc.storage.indexFile == old(svc.storage.indexFile)
  {
    ghost var failure := AddFailure(embeddings, |chunks|, svc.index);
    ghost var before := svc.TotalVectors();
    var err := svc.AddDocuments(chunks, Some(metadataList), embeddings, dbUp, diskUp);
    if err.Some? {
      return Err(SERVER_ERROR);
    }
    assert failure.None? && |embeddings.value| == |chunks|;
    assert svc.TotalVectors() == before + |chunks|;
    var stats := svc.GetStats();
    if stats.totalVectors == 0 {
      return Err(SERVER_ERROR);
    }
    r := Ok(IngestResponse(|chunks|, stats.totalVectors));
  }

  /** `file_size_mb > MAX_FILE_SIZE_MB` with `file_size_mb = len(content) / (1024 * 1024)`. */
  function TooLarge(size: nat): (b: bool)
    ensures b <==> size > Config.MAX_FILE_SIZE_MB * 1048576
  {
    size as real / (1024.0 * 1024.0) > Config.MAX_FILE_SIZE_MB as real
  }

  /** The name the upload route stamps: `file.filename or "unknown"`. */
  function UploadName(filename: Option<string>): (name: string)
    ensures Given(filename) ==> name == filename.value
    ensures !Given(filename) ==> name == "unknown"
  {
    if Given(filename) then filename.value else "unknown"
  }

  /** `/ingest/upload` for a file of `size` bytes. `loaded` is what saving and
      loading it gave (`None` when either raised). An `HTTPException` is
      re-raised unchanged, so an oversized file and an empty chunk list
      answer 400; every other failure answers 500. */
  method UploadAndIngest(svc: VectorStoreService, size: nat, filename: Option<string>,
                         loaded: Option<seq<Doc>>, chunkDocs: seq<Doc> -> seq<Doc>,
                         embeddings: Option<seq<Vector>>, dbUp: bool, diskUp: bool)
    returns (r: Result<IngestResponse, nat>)
    requires svc.Valid()
    modifies svc`index, svc`chunks, svc`metadataList, svc.storage
    ensures svc.Valid()
    ensures TooLarge(size) ==> r == Err(400)
    ensures !TooLarge(size) && loaded.None? ==> r == Err(500)
    ensures var chunked := if loaded.Some? then chunkDocs(StampAll(loaded.value, UploadName(filename))) else [];
            && (!TooLarge(size) && loaded.Some? && chunked == [] ==> r == Err(400))
            && (!TooLarge(size) && loaded.Some? && chunked != [] ==>
                  if AddFailure(embeddings, |chunked|, old(svc.index)).Some? then r == Err(500)
                  else r == Ok(IngestResponse(|chunked|, old(svc.TotalVectors()) + |chunked|))
                       && DocumentsAdded(old(svc.State()), svc.State(), Texts(chunked), Some(Metas(chunked)),
                                         embeddings.value, dbUp, diskUp))
    ensures r.Err? ==> svc.index == old(svc.index) && svc.chunks == old(svc.chunks)
                       && svc.metadataList == old(svc.metadataList)
                       && svc.storage.rows == old(svc.storage.rows)
                       && svc.storage.indexFile == old(svc.storage.indexFile)
  {
    if TooLarge(size) {
      return Err(400);
    }
    if loaded.None? {
      return Err(500);
    }
    var stamped := StampDocuments(loaded.value, UploadName(filename));
    var chunked := chunkDocs(stamped);
    var chunks, metadataList := Texts(chunked), Metas(chunked);
    if |chunks| == 0 {
      return Err(400);
    }
    r := AddAndReport(svc, chunks, metadataList, embeddings, dbUp, diskUp);
  }
}

/** Properties of the routes' specification functions. */
module RoutesFacts {
  import opened Wrappers
  import opened VectorStore
  import opened Routes

  /** A preview is already short: previewing it again changes nothing. */
  lemma PreviewIdempotent(chunk: string)
    ensures Preview(Preview(chunk)) == Preview(chunk)
  {
    if |chunk| > 200 {
      var p := Preview(chunk);
      assert p[..200] + "..." == p;
    }
  }

  /** Stamping twice with the same name is stamping once; stamping again
      with another name leaves only the second name. */
  lemma RestampOverrides(m: Metadata, first: string, second: string)
    ensures Stamp(Stamp(m, first), second) == Stamp(m, second)
  {
    var a := Stamp(Stamp(m, first), second);
    var b := Stamp(m, second);
    assert a.Keys == b.Keys;
    forall k | k in a.Keys ensures a[k] == b[k] {
    }
  }

  /** The stamping keeps every document's text, count and order; restamping
      a stamped list with the same name gives it back. */
  lemma StampAllIdempotent(docs: seq<Doc>, filename: string)
    ensures StampAll(StampAll(docs, filename), filename) == StampAll(docs, filename)
    ensures Texts(StampAll(docs, filename)) == Texts(docs)
  {
    var once := StampAll(docs, filename);
    var twice := StampAll(once, filename);
    forall i | 0 <= i < |docs| ensures twice[i] == once[i] {
      RestampOverrides(docs[i].metadata, filename, filename);
    }
  }

  /** After a reset whose row delete failed, the stale rows still hold id 0,
      the ids the next ingest assigns start again at 0, and the commit of
      the new rows is rejected: the table stops mirroring the chunks. */
  lemma StaleRowsBlockNextCommit(rows: seq<ChunkRow>, newChunks: seq<string>, md: seq<Metadata>)
    requires HasId(rows, 0) && |newChunks| > 0 && |md| >= |newChunks|
    ensures !NoClash(rows, NewRows(newChunks, md, 0))
  {
    var i :| 0 <= i < |rows| && rows[i].faissId == 0;
    assert NewRows(newChunks, md, 0)[0].faissId == 0;
  }
}
