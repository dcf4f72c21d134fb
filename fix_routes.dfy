/**
 * The consistency routes of api/fix_routes.py, over the shared vector
 * store: `/check-sync` compares the index with the `ChunkMetadata` table on
 * a sample of ids, and `/fix-metadata-mismatch` clears both sides when they
 * disagree. An exception inside either route becomes HTTP 500.
 */
module FixRoutes {
  import opened Wrappers
  import opened VectorStore

  /** The `sample_check` part of the `/check-sync` answer. */
  datatype SampleCheck = SampleCheck(checkedIds: nat, found: nat, missing: nat, matchRate: real)

  /** The `/check-sync` answer. */
  datatype SyncReport = SyncReport(isSynced: bool, totalVectors: nat, chunksInDatabase: nat, mismatch: int,
                                   sample: SampleCheck, recommendation: string)

  /** The `/fix-metadata-mismatch` answer. */
  datatype FixResponse =
    | NoMismatch(vectors: nat, chunks: nat)
    | MismatchFixed(oldVectors: nat, oldChunks: nat, backedUp: bool)

  /** How many ids `/check-sync` samples: the first 100 positions of a
      non-empty index, none without one. */
  function SampleSize(index: Option<Index>): (n: nat)
    ensures n <= 100
    ensures index.Some? ==> n <= |index.value.vectors|
    ensures index.Some? && |index.value.vectors| > 0 ==> n > 0
  {
    if index.Some? && |index.value.vectors| > 0 then
      if |index.value.vectors| < 100 then |index.value.vectors| else 100
    else 0
  }

  /** How many of the ids `0 .. n-1` have a row in the table. */
  function CountFound(rows: seq<ChunkRow>, n: nat): (c: nat)
    ensures c <= n
  {
    if n == 0 then 0 else CountFound(rows, n - 1) + if HasId(rows, n - 1) then 1 else 0
  }

  /** `found / checked`, or 0 when nothing was checked. */
  function MatchRate(found: nat, checked: nat): real {
    if checked > 0 then found as real / checked as real else 0.0
  }

  /** The `/check-sync` answer for a store with this index, chunk list and table. */
  function SyncReportOf(index: Option<Index>, chunks: seq<string>, rows: seq<ChunkRow>): SyncReport {
    var total := if index.Some? then |index.value.vectors| else 0;
    var n := SampleSize(index);
    var found := CountFound(rows, n);
    SyncReport(total == |chunks|, total, |chunks|, total - |chunks|,
               SampleCheck(n, found, n - found, MatchRate(found, n)),
               if total != |chunks| then "reupload_documents" else "system_healthy")
  }

  /** `/check-sync` on the shared service `svc`; `dbUp` false stands for the
      database failing the lookups, which the route turns into 500. */
  method CheckSync(svc: VectorStoreService, dbUp: bool) returns (r: Result<SyncReport, nat>)
    ensures SampleSize(svc.index) > 0 && !dbUp ==> r == Err(500)
    ensures SampleSize(svc.index) == 0 || dbUp ==> r == Ok(SyncReportOf(svc.index, svc.chunks, svc.storage.rows))
    ensures r.Ok? ==> r.value.sample.found + r.value.sample.missing == r.value.sample.checkedIds
                      && 0.0 <= r.value.sample.matchRate <= 1.0
                      && (r.value.recommendation == "reupload_documents" <==> !r.value.isSynced)
                      && r.value.mismatch == r.value.totalVectors - r.value.chunksInDatabase
  {
    var stats := svc.GetStats();
    var n := SampleSize(svc.index);
    var missing, found := 0, 0;
    if n > 0 {
      if !dbUp {
        return Err(500);
      }
      var id := 0;
      while id < n
        invariant 0 <= id <= n
        invariant found == CountFound(svc.storage.rows, id)
        invariant found + missing == id
      {
        if HasId(svc.storage.rows, id) {
          found := found + 1;
        } else {
          missing := missing + 1;
        }
        id := id + 1;
      }
    }
    var rate := if n > 0 then found as real / n as real else 0.0;
    r := Ok(SyncReport(stats.isSynced, stats.totalVectors, stats.chunksCount,
                       stats.totalVectors - stats.chunksCount,
                       SampleCheck(n, found, missing, rate),
                       if !stats.isSynced then "reupload_documents" else "system_healthy"));
    MatchRateInRange(found, n);
  }

  /** `/fix-metadata-mismatch` on the shared service `svc`. A synced store is
      left alone; otherwise the table is cleared (`dbUp` false: the delete
      raises and the route answers 500 before anything changed), the index
      file removed, and the index and lists recreated empty. */
  method FixMetadataMismatch(svc: VectorStoreService, dbUp: bool) returns (r: Result<FixResponse, nat>)
    requires svc.Valid()
    modifies svc`index, svc`chunks, svc`metadataList, svc.storage
    ensures svc.Valid()
    ensures old(svc.Synced()) ==> r == Ok(NoMismatch(old(svc.TotalVectors()), old(|svc.chunks|)))
    ensures !old(svc.Synced()) && !dbUp ==> r == Err(500)
    ensures !old(svc.Synced()) && dbUp ==>
              r == Ok(MismatchFixed(old(svc.TotalVectors()), old(|svc.chunks|), old(svc.storage.indexFile).Some?))
    ensures r.Ok? && r.value.MismatchFixed? ==>
              svc.index == Some(EmptyIndex()) && svc.chunks == [] && svc.metadataList == [] && svc.Synced()
              && svc.storage.rows == [] && svc.storage.indexFile == None
    ensures !(r.Ok? && r.value.MismatchFixed?) ==>
              svc.index == old(svc.index) && svc.chunks == old(svc.chunks) && svc.metadataList == old(svc.metadataList)
              && svc.storage.rows == old(svc.storage.rows) && svc.storage.indexFile == old(svc.storage.indexFile)
  {
    var stats := svc.GetStats();
    if stats.isSynced {
      return Ok(NoMismatch(stats.totalVectors, stats.chunksCount));
    }
    var backedUp := svc.storage.indexFile.Some?;
    var cleared := svc.storage.DeleteAllRows(dbUp);
    if !cleared {
      return Err(500);
    }
    if svc.storage.indexFile.Some? {
      var _ := svc.storage.Unlink();
    }
    svc.CreateNewIndex();
    r := Ok(MismatchFixed(stats.totalVectors, stats.chunksCount, backedUp));
  }

  /** A rate of found over checked ids is a fraction. */
  lemma MatchRateInRange(found: nat, checked: nat)
    requires found <= checked
    ensures 0.0 <= MatchRate(found, checked) <= 1.0
  {
    if checked > 0 {
      assert found as real <= checked as real;
    }
  }
}

/** What `/check-sync` reports on consistent and inconsistent stores. */
module FixRoutesFacts {
  import opened Wrappers
  import opened VectorStore
  import opened FixRoutes

  /** Ids below the table's length are all found in a mirroring table. */
  lemma {:induction false} CountFoundMatching(rows: seq<ChunkRow>, chunks: seq<string>, n: nat)
    requires TableMatches(rows, chunks)
    ensures CountFound(rows, n) == if n <= |chunks| then n else |chunks|
    decreases n
  {
    if n > 0 {
      CountFoundMatching(rows, chunks, n - 1);
      if n - 1 < |rows| {
        assert rows[n - 1].faissId == n - 1;
      }
    }
  }

  /** An empty table has no id. */
  lemma {:induction false} CountFoundEmpty(n: nat)
    ensures CountFound([], n) == 0
    decreases n
  {
    if n > 0 {
      CountFoundEmpty(n - 1);
    }
  }

  /** A synced store whose table mirrors its chunks passes the sample check
      with every sampled id found. */
  lemma ConsistentStoreAllFound(index: Index, chunks: seq<string>, rows: seq<ChunkRow>)
    requires |index.vectors| == |chunks| && TableMatches(rows, chunks)
    ensures var rep := SyncReportOf(Some(index), chunks, rows);
            rep.isSynced && rep.sample.missing == 0 && rep.recommendation == "system_healthy"
            && (|chunks| > 0 ==> rep.sample.matchRate == 1.0)
  {
    var n := SampleSize(Some(index));
    CountFoundMatching(rows, chunks, n);
    if n > 0 {
      assert n as real / n as real == 1.0;
    }
  }

  /** With more vectors than mirrored chunks, and fewer than 100 chunks, the
      sample finds missing rows and the report recommends re-uploading. */
  lemma DesyncShowsMissing(index: Index, chunks: seq<string>, rows: seq<ChunkRow>)
    requires |index.vectors| > |chunks| && |chunks| < 100 && TableMatches(rows, chunks)
    ensures var rep := SyncReportOf(Some(index), chunks, rows);
            !rep.isSynced && rep.sample.missing > 0 && rep.mismatch > 0 && rep.recommendation == "reupload_documents"
  {
    CountFoundMatching(rows, chunks, SampleSize(Some(index)));
  }

  /** The sync flag only compares counts: with the table emptied behind a
      service's back, the service still calls itself synced while every
      sampled id is missing. */
  lemma SyncFlagBlindToTable(index: Index, chunks: seq<string>)
    requires |index.vectors| == |chunks| && |chunks| > 0
    ensures var rep := SyncReportOf(Some(index), chunks, []);
            rep.isSynced && rep.sample.found == 0 && rep.sample.missing == rep.sample.checkedIds > 0
  {
    CountFoundEmpty(SampleSize(Some(index)));
  }
}
