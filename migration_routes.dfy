/**
 * `/migrate-index` (api/migration_routes.py): builds a fresh vector-store
 * service over the shared storage and dispatches on the type name of the
 * index it loaded. An inner-product index is left alone; an L2 index is
 * backed up, its `ChunkMetadata` rows deleted, its file removed and a new
 * index created; anything else is reported as unknown. An exception becomes
 * HTTP 500.
 */
module MigrationRoutes {
  import opened Wrappers
  import opened PyStr
  import opened VectorStore

  /** The `/migrate-index` answer. */
  datatype MigrationResponse =
    | NoIndex
    | AlreadyCosine(indexType: string)
    | ReuploadRequired(oldIndexType: string, newIndexType: string, backedUp: bool)
    | UnknownType(indexType: string)

  /** The branch the route takes for an index type name: the "IP" test comes
      before the "L2" test. */
  datatype Branch = IpBranch | L2Branch | OtherBranch

  function BranchOf(indexType: string): (b: Branch)
    ensures b == L2Branch ==> Contains(indexType, "L2") && !Contains(indexType, "IP")
    ensures b == IpBranch <==> Contains(indexType, "IP")
  {
    FlatIpNamesIp(indexType);
    if Contains(indexType, "IndexFlatIP") || Contains(indexType, "IP") then IpBranch
    else if Contains(indexType, "L2") then L2Branch
    else OtherBranch
  }

  /** The route's first test is subsumed by its second. */
  lemma FlatIpNamesIp(indexType: string)
    ensures Contains(indexType, "IndexFlatIP") ==> Contains(indexType, "IP")
  {
    if Contains(indexType, "IndexFlatIP") {
      assert "IndexFlatIP"[9..11] == "IP";
      ContainsPiece(indexType, "IndexFlatIP", 9, 11);
    }
  }

  /** `/migrate-index` as written. `readOk` and `loadDbUp` say how the fresh
      service's load went, `dbUp` whether the delete of the rows succeeded.
      `shared` is the application's own service over the same storage: the
      route never touches its fields. Returns the answer and the fresh
      service. */
  method MigrateIndexToCosine(storage: Storage, shared: VectorStoreService, readOk: bool, loadDbUp: bool, dbUp: bool)
    returns (r: Result<MigrationResponse, nat>, migrator: VectorStoreService)
    requires storage.Valid() && shared.storage == storage
    modifies storage
    ensures storage.Valid() && migrator.storage == storage
    ensures shared.index == old(shared.index) && shared.chunks == old(shared.chunks)
            && shared.metadataList == old(shared.metadataList)
    ensures var loaded := if old(storage.indexFile).Some? && readOk then old(storage.indexFile).value else EmptyIndex();
            && (BranchOf(loaded.typeName) == IpBranch ==>
                  r == Ok(AlreadyCosine(loaded.typeName)) && storage.rows == old(storage.rows)
                  && storage.indexFile == old(storage.indexFile))
            && (BranchOf(loaded.typeName) == OtherBranch ==>
                  r == Ok(UnknownType(loaded.typeName)) && storage.rows == old(storage.rows)
                  && storage.indexFile == old(storage.indexFile))
            && (BranchOf(loaded.typeName) == L2Branch && !dbUp ==>
                  r == Err(500) && storage.rows == old(storage.rows) && storage.indexFile == old(storage.indexFile))
            && (BranchOf(loaded.typeName) == L2Branch && dbUp && old(storage.indexFile).None? ==>
                  r == Err(500) && storage.rows == [] && storage.indexFile == None)
            && (BranchOf(loaded.typeName) == L2Branch && dbUp && old(storage.indexFile).Some? ==>
                  r == Ok(ReuploadRequired(loaded.typeName, "IndexFlatIP", true))
                  && storage.rows == [] && storage.indexFile == None
                  && migrator.index == Some(EmptyIndex()) && migrator.chunks == [] && migrator.metadataList == [])
  {
    migrator := new VectorStoreService(storage, readOk, loadDbUp);
    if migrator.index.None? {
      return Ok(NoIndex), migrator;
    }
    var indexType := migrator.index.value.typeName;
    var branch := BranchOf(indexType);
    if branch == IpBranch {
      return Ok(AlreadyCosine(indexType)), migrator;
    }
    if branch == L2Branch {
      var backedUp := storage.indexFile.Some?;
      var cleared := storage.DeleteAllRows(dbUp);
      if !cleared {
        return Err(500), migrator;
      }
      var unlinked := storage.Unlink();
      if !unlinked {
        return Err(500), migrator;
      }
      migrator.CreateNewIndex();
      return Ok(ReuploadRequired(indexType, "IndexFlatIP", backedUp)), migrator;
    }
    r := Ok(UnknownType(indexType));
  }

  /** The index `_create_new_index` would build if it followed the route's
      promise: an empty inner-product index. */
  function EmptyIpIndex(): (ix: Index)
    ensures ix.vectors == [] && BranchOf(ix.typeName) == IpBranch
  {
    assert "IndexFlatIP"[9..11] == "IP";
    ContainsAt("IndexFlatIP", "IP", 9);
    Index("IndexFlatIP", EmptyIndex().dim, [])
  }

  /** The guarded L2 branch's clean-up: the rows are deleted and, only when
      that succeeded and the file exists, the index file is removed. */
  method ClearStore(storage: Storage, dbUp: bool) returns (cleared: bool)
    requires storage.Valid()
    modifies storage
    ensures storage.Valid()
    ensures cleared == dbUp
    ensures cleared ==> storage.rows == [] && storage.indexFile == None
    ensures !cleared ==> storage.rows == old(storage.rows) && storage.indexFile == old(storage.indexFile)
  {
    cleared := storage.DeleteAllRows(dbUp);
    if cleared && storage.indexFile.Some? {
      var _ := storage.Unlink();
    }
  }

  /** The index a fresh service starts from when `_create_new_index` builds
      the inner-product index the route's answer names: the file's index when
      it is read, and otherwise a new empty inner-product index. */
  function GuardedLoad(file: Option<Index>, readOk: bool): (ix: Index)
    ensures file.None? || !readOk ==> ix == EmptyIpIndex() && BranchOf(ix.typeName) == IpBranch
  {
    if file.Some? && readOk then file.value else EmptyIpIndex()
  }

  /** `/migrate-index` as evidently intended: the index file is removed only
      when it exists, and `_create_new_index` builds the inner-product index
      the answer names, both for the recreated index and for a fresh service
      that finds no readable file. Returns the answer and the index the fresh
      service ends with. */
  method MigrateIndexGuarded(storage: Storage, readOk: bool, dbUp: bool)
    returns (r: Result<MigrationResponse, nat>, ghost newIndex: Option<Index>)
    requires storage.Valid()
    modifies storage
    ensures storage.Valid()
    ensures var loaded := GuardedLoad(old(storage.indexFile), readOk);
            && (r.Err? <==> BranchOf(loaded.typeName) == L2Branch && !dbUp)
            && (BranchOf(loaded.typeName) == IpBranch ==> r == Ok(AlreadyCosine(loaded.typeName)))
            && (BranchOf(loaded.typeName) == OtherBranch ==> r == Ok(UnknownType(loaded.typeName)))
            && (BranchOf(loaded.typeName) == L2Branch && dbUp ==>
                  r == Ok(ReuploadRequired(loaded.typeName, "IndexFlatIP", old(storage.indexFile).Some?))
                  && storage.rows == [] && storage.indexFile == None
                  && newIndex == Some(EmptyIpIndex()))
            && (BranchOf(loaded.typeName) != L2Branch || r.Err? ==>
                  storage.rows == old(storage.rows) && storage.indexFile == old(storage.indexFile))
  {
    var loaded := GuardedLoad(storage.indexFile, readOk);
    newIndex := Some(loaded);
    var branch := BranchOf(loaded.typeName);
    if branch == IpBranch {
      return Ok(AlreadyCosine(loaded.typeName)), newIndex;
    }
    if branch == OtherBranch {
      return Ok(UnknownType(loaded.typeName)), newIndex;
    }
    var backedUp := storage.indexFile.Some?;
    var cleared := ClearStore(storage, dbUp);
    if !cleared {
      return Err(500), newIndex;
    }
    newIndex := Some(EmptyIpIndex());
    r := Ok(ReuploadRequired(loaded.typeName, "IndexFlatIP", backedUp));
  }

  /** Two intended migrations in a row: once the first has asked for a
      re-upload, the second finds no file, starts from an inner-product
      index, answers that the index is already cosine and leaves the rows and
      the file as the first left them. */
  method MigrateGuardedTwice(storage: Storage, readOk1: bool, dbUp1: bool, readOk2: bool, dbUp2: bool)
    returns (first: Result<MigrationResponse, nat>, second: Result<MigrationResponse, nat>)
    requires storage.Valid()
    modifies storage
    ensures storage.Valid()
    ensures first.Ok? && first.value.ReuploadRequired? ==>
              second == Ok(AlreadyCosine("IndexFlatIP")) && storage.rows == [] && storage.indexFile == None
  {
    ghost var firstIndex, secondIndex;
    first, firstIndex := MigrateIndexGuarded(storage, readOk1, dbUp1);
    second, secondIndex := MigrateIndexGuarded(storage, readOk2, dbUp2);
  }
}

/** What the migration does to a store, as written and as intended. */
module MigrationFacts {
  import opened Wrappers
  import opened PyStr
  import opened VectorStore
  import opened MigrationRoutes

  /** As written, the index a successful migration leaves behind is again an
      L2 index, although the answer names `IndexFlatIP`: the next call
      migrates again. */
  lemma MigrationRecreatesL2()
    ensures BranchOf(EmptyIndex().typeName) == L2Branch
    ensures EmptyIndex().typeName != "IndexFlatIP"
  {
    assert "IndexFlatL2"[9..11] == "L2";
    ContainsAt("IndexFlatL2", "L2", 9);
    if Contains("IndexFlatL2", "IP") {
      ContainsHasChars("IndexFlatL2", "IP", 1);
      assert 'P' !in "IndexFlatL2";
    }
  }

  /** As intended, a store with no readable index file starts from an index
      that takes the inner-product branch, so the migration that follows a
      successful one leaves the store alone. */
  lemma GuardedMigrationSettles(readOk: bool)
    ensures BranchOf(GuardedLoad(None, readOk).typeName) == IpBranch
    ensures GuardedLoad(None, readOk).typeName == "IndexFlatIP"
  {
  }
}
