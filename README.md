# Retrieval-augmented document Q&A backend, modelled in Dafny

This project models the core of a FastAPI backend that answers questions over
uploaded financial documents:

- **The vector store.** A FAISS flat index, the in-memory chunk and metadata
  lists, and the `ChunkMetadata` table. Each table row is keyed by a unique
  `faiss_id`. The index file sits on disk.
- **The retrieval service.** It searches the store and reranks the results,
  falling back to the search results when reranking fails. It also renders
  the context block handed to the answer synthesiser.
- **The HTTP routes:**
  - `/health`, `/reset-vector-store`, `/query`, `/ingest` and
    `/ingest/upload`;
  - the consistency routes `/check-sync` and `/fix-metadata-mismatch`;
  - `/migrate-index`.
- **The financial helpers:**
  - the KPI validator;
  - the ratio calculator;
  - the table extractor and its cell parser;
  - the numeric parser;
  - the business-insights service.
- **The CORS origins setting** and the configuration constants these
  services read.

There is one module per source file, plus a "Facts" module holding the
properties proved about it. `wrappers.dfy` holds `Option`/`Result`.
`pystr.dfy` holds the Python string operations the code relies on (`strip`,
`lower`/`upper`, `in`, `count`, `split`, `join`, `replace`). `seqs.dfy`
holds a generic "keep the present results" list function.

Some collaborators are external and enter every operation as parameters:
the embedding provider, the FAISS nearest-neighbour search, the reranker,
the synthesis model, the chunker and file loader, the database, the disk,
the regular expressions and `float()`/`int()`. Each such parameter says
what the collaborator answered, and `None` or a flag means it raised. What
the services do with those answers is modelled branch by branch.

The code is stateful in two places:
- **`VectorStoreService`, a `class`.** Its methods reassign the index, chunk
  and metadata fields and are framed by `modifies`.
- **`Storage`, a `class`.** It holds the database rows and the index file.

Everything else is written as functions over values. Where the source
loops, a method with a `while` or `for` loop carries the loop, proved equal
to the function that specifies it. Examples: the keyword count of
`categorize_query`, the line and separator loops of the table detector,
the pattern loop of `parse_number`, and the period grouping of the
contradiction check.

## Model

| member | source | states |
|---|---|---|
| Config.StripAll | backend/app/core/config.py:108 | every comma-separated piece is replaced by its stripped form, one for one |
| Config.NonEmpty | backend/app/core/config.py:108 | the filter keeps only non-empty pieces, each taken from the input |
| Config.NonEmptyAppend | backend/app/core/config.py:108 | the filter works piece by piece and keeps the order of the pieces |
| Config.NonEmptyKeeps | backend/app/core/config.py:108 | every non-empty piece survives the filter |
| Config.NonEmptyIdentity | backend/app/core/config.py:108 | a list with no empty piece passes the filter unchanged |
| Config.StripTrimmed | backend/app/core/config.py:108 | `strip` leaves a string with no surrounding whitespace alone |
| Config.StripPieceClean | backend/app/core/config.py:108 | a stripped comma-free piece that is not blank is a clean origin: non-empty, no comma, no surrounding whitespace |
| Config.GetCorsOrigins | backend/app/core/config.py:103-108 | the setting `"*"` gives exactly `["*"]`; otherwise there is at most one origin per comma-separated piece, and none is empty. Its partners are `CorsOriginsClean` (every origin is clean) and `CorsRoundTrip` (joining clean origins and reading them back gives the same list) |
| Config.CorsOriginsClean | backend/app/core/config.py:103-108 | every origin `get_cors_origins` returns is clean, and the setting `"*"` gives exactly `["*"]` |
| Config.WildcardNeedsExactStar | backend/app/core/config.py:105-108 | the wildcard shortcut needs the whole setting to be `*`: `"*,a"` gives the two origins `*` and `a` |
| Config.EmptySettingAllowsNothing | backend/app/core/config.py:108 | an empty setting allows no origin at all |
| Config.StripAllClean | backend/app/core/config.py:108 | clean origins are their own stripped forms |
| Config.CorsRoundTrip | backend/app/core/config.py:105-108 | joining clean origins with commas and reading the setting back gives the same list |
| PyStr.StripSpec | backend/app/core/config.py:108 | `strip` removes exactly the leading and trailing whitespace: the result is a slice of the input with no whitespace at either end, and only whitespace is dropped |
| PyStr.BlankIffStripEmpty | backend/app/services/retrieval.py:132 | a string strips to `""` exactly when every character is whitespace |
| PyStr.JoinSplit | backend/app/core/config.py:108 | joining the pieces of a split gives the string back |
| PyStr.SplitJoin | backend/app/core/config.py:108 | splitting a joined list of separator-free pieces gives the pieces back |
| PyStr.CountPositiveIffContains | backend/app/services/business_insights.py:83-84 | `text.count(term) > 0` exactly when `term in text`, for a non-empty term |
| VectorStore.EmptyIndex | backend/app/services/vector_store.py:60-67 | `_create_new_index` builds an empty index of `EMBEDDING_DIMENSION` width |
| VectorStore.EmptyMetadataList | backend/app/services/vector_store.py:101 | `[{}] * k` has `k` empty dictionaries, none when `k <= 0` |
| VectorStore.NewRows | backend/app/services/vector_store.py:165-172 | one row per (chunk, metadata) pair, cut at the shorter list, with `faiss_id` counting up from the start id |
| VectorStore.FilterHits | backend/app/services/vector_store.py:217-229 | no more results than hits; every result reaches the threshold and holds one of the store's chunks |
| VectorStore.RequestedK | backend/app/services/vector_store.py:206-216 | `k` never exceeds `ntotal`, and a missing or zero `top_k` asks for `TOP_K_RESULTS` capped at `ntotal` |
| VectorStore.Storage.constructor | backend/app/models/database.py:66 | a storage starts from a table whose `faiss_id`s are unique |
| VectorStore.Storage.Commit | backend/app/services/vector_store.py:163-176 | the rows are added all together, or none of them are when the database is down or a pending `faiss_id` clashes with one in the table; `faiss_id` stays unique |
| VectorStore.Storage.DeleteAllRows | backend/app/api/routes.py:76-83 | the table is emptied exactly when the database answers; otherwise nothing changes |
| VectorStore.Storage.Unlink | backend/app/api/migration_routes.py:52 | removing the index file fails exactly when there is none; afterwards there is none |
| VectorStore.VectorStoreService.TotalVectors | backend/app/services/vector_store.py:247 | `ntotal` is the number of vectors added to the index, 0 without an index |
| VectorStore.VectorStoreService.constructor | backend/app/services/vector_store.py:20-83 | a readable index file is loaded together with the table's texts and metadata (nothing when the database is down); otherwise a new empty index is created |
| VectorStore.VectorStoreService.CreateNewIndex | backend/app/services/vector_store.py:60-67 | the new index and lists are empty, so the store is in sync |
| VectorStore.VectorStoreService.SaveMetadataToDb | backend/app/services/vector_store.py:150-176 | the rows for the new chunks are committed, or none are when the commit fails |
| VectorStore.VectorStoreService.SaveIndex | backend/app/services/vector_store.py:178-184 | the file holds the current index afterwards, unless the write fails |
| VectorStore.VectorStoreService.AddDocuments | backend/app/services/vector_store.py:85-148 | no chunks, or a raising provider, missing index or dimension mismatch, changes nothing and names the error. Otherwise the vectors, chunks and padded metadata are appended, the table gains the matching rows (if the commit succeeds), and a synced store stays synced |
| VectorStore.VectorStoreService.Search | backend/app/services/vector_store.py:186-239 | the answer is empty for an empty store, a failed embedding or `k <= 0`; every result reaches the threshold in force and holds a stored chunk |
| VectorStore.VectorStoreService.GetStats | backend/app/services/vector_store.py:241-256 | `is_synced` holds exactly when the vector count equals the chunk count; the counts and the file flag reflect the state |
| VectorStore.RowTexts | backend/app/services/vector_store.py:74 | the texts of the table's rows, one per row, in order |
| VectorStore.RowMetadata | backend/app/services/vector_store.py:75-78 | the metadata of the table's rows, one per row, in order |
| VectorStoreFacts.FilterHitsAppend | backend/app/services/vector_store.py:217-229 | filtering works hit by hit and keeps FAISS's order |
| VectorStoreFacts.FilterHitsSound | backend/app/services/vector_store.py:221-234 | every result comes from a hit that passed the threshold and names an existing chunk |
| VectorStoreFacts.FilterHitsComplete | backend/app/services/vector_store.py:221-234 | every hit that passes the filter yields a result |
| VectorStoreFacts.KeptMetadataNotDefaulted | backend/app/services/vector_store.py:228 | while every chunk has a metadata entry, each result carries its own chunk's text and metadata, never the `{}` default |
| VectorStoreFacts.FilterHitsScoreBound | backend/app/services/vector_store.py:221 | when no hit is farther than `d`, no result scores below the similarity of `d` |
| VectorStoreFacts.ScoresNonIncreasing | backend/app/services/vector_store.py:217-229 | hits in ascending distance give results in non-increasing score |
| VectorStoreFacts.PadMetadataCovers | backend/app/services/vector_store.py:100-108 | every new chunk gets its own metadata entry, or `{}` past the end of a shorter list |
| VectorStoreFacts.PadMetadataKeepsLonger | backend/app/services/vector_store.py:103-133 | a metadata list longer than the chunk list is stored whole |
| VectorStoreFacts.AppendKeepsTableMatching | backend/app/services/vector_store.py:131-172 | when the table mirrors the chunk list, the new rows do not clash with it, and afterwards the table mirrors the extended list |
| VectorStoreFacts.LoadMatchingTable | backend/app/services/vector_store.py:72-78 | loading a mirroring table gives the chunk list back |
| VectorStoreFacts.MatchingTableHasEveryId | backend/app/services/vector_store.py:72-78 | a mirroring table has a row for every chunk position |
| Retrieval.OrInt | backend/app/services/retrieval.py:98 | `a or b` is `a` unless `a` is `None` or 0, and otherwise `b` |
| Retrieval.CandidateK | backend/app/services/retrieval.py:70-73 | with a reranker, the store is asked for `min(2 * top_k, 30)` candidates; otherwise for `top_k` unchanged |
| Retrieval.TruncateReal | backend/app/services/retrieval.py:142 | `int()` of a float truncates toward zero |
| Retrieval.Block | backend/app/services/retrieval.py:147 | every context block opens with `[` |
| Retrieval.ContextPart | backend/app/services/retrieval.py:130-147 | a result gives at most one block |
| Retrieval.RetrievalService.constructor | backend/app/services/retrieval.py:14-45 | a reranker that is passed in is kept; otherwise one is built when reranking is asked for, and reranking is switched off when building it fails |
| Retrieval.RetrievalService.Retrieve | backend/app/services/retrieval.py:47-112 | the answer is the store's search answer, reranked when a reranker is in use and there are results. The reranker is called exactly then, with `rerank_top_k or top_k`. A non-empty search never gives an empty answer |
| Retrieval.RetrievalService.FormatContext | backend/app/services/retrieval.py:114-156 | the context is the numbered blocks of the non-blank results, and it is never blank |
| Retrieval.SentinelNotBlank | backend/app/services/retrieval.py:123-156 | the "no context" sentinel is not blank |
| RetrievalFacts.RerankFailsOpen | backend/app/services/retrieval.py:92-107 | reranking fails open: the answer is the search answer unless the reranker answered a non-empty list, which is then the answer |
| RetrievalFacts.NumberedAppend | backend/app/services/retrieval.py:130 | numbering keeps each result's position in the whole list |
| RetrievalFacts.ContextPartsAppend | backend/app/services/retrieval.py:129-147 | the blocks of a concatenation are the blocks of its halves, the second half numbered after the first |
| RetrievalFacts.ContextPartsSnoc | backend/app/services/retrieval.py:129-147 | one more result adds its block, numbered after the others |
| RetrievalFacts.ContextPartsOne | backend/app/services/retrieval.py:130-147 | a single result gives its block unless its text is blank |
| RetrievalFacts.ContextPartsBracketed | backend/app/services/retrieval.py:147 | every block opens with its `[Context i` header |
| RetrievalFacts.NoPartsIffAllBlank | backend/app/services/retrieval.py:130-134 | no block is produced exactly when every result's text is blank |
| RetrievalFacts.SentinelIffAllBlank | backend/app/services/retrieval.py:123-156 | `format_context` answers the sentinel exactly when every result is blank; otherwise it opens with the first block |
| RetrievalFacts.TruthyPageWins | backend/app/services/retrieval.py:137-146 | `page` wins whenever it is truthy, so a page `"0"` hides a real `page_number` and gives no citation |
| FixRoutes.SampleSize | backend/app/api/fix_routes.py:86-90 | the sample is at most 100 ids and at most `ntotal`, and it is non-empty for a non-empty index |
| FixRoutes.CountFound | backend/app/api/fix_routes.py:92-104 | no more ids are found than are checked |
| FixRoutes.CheckSync | backend/app/api/fix_routes.py:80-124 | a database failure during the sample gives 500. Otherwise found plus missing is the sample size, the match rate is a fraction, re-uploading is recommended exactly when out of sync, and the mismatch is vectors minus chunks |
| FixRoutes.FixMetadataMismatch | backend/app/api/fix_routes.py:14-77 | a synced store is left alone and reported as such; a database failure gives 500 and changes nothing; otherwise the rows, the file and the index are cleared |
| FixRoutes.MatchRateInRange | backend/app/api/fix_routes.py:115 | found over checked is between 0 and 1 |
| FixRoutesFacts.CountFoundMatching | backend/app/api/fix_routes.py:92-104 | in a mirroring table, every checked id below the chunk count is found |
| FixRoutesFacts.CountFoundEmpty | backend/app/api/fix_routes.py:92-104 | an empty table has no id |
| FixRoutesFacts.ConsistentStoreAllFound | backend/app/api/fix_routes.py:106-119 | a synced store with a mirroring table reports in sync, with every sampled id found and a match rate of 1 |
| FixRoutesFacts.DesyncShowsMissing | backend/app/api/fix_routes.py:106-119 | with more vectors than mirrored chunks and fewer than 100 chunks, the sample finds missing ids and the report says out of sync |
| FixRoutesFacts.SyncFlagBlindToTable | backend/app/api/fix_routes.py:106-119 | the sync flag compares counts only: with an emptied table it still says synced while every sampled id is missing |
| MigrationRoutes.BranchOf | backend/app/api/migration_routes.py:28-70 | a type name takes the IP branch exactly when it contains "IP", and the L2 branch only when it contains "L2" and not "IP" |
| MigrationRoutes.FlatIpNamesIp | backend/app/api/migration_routes.py:30 | the route's test for `IndexFlatIP` is subsumed by its test for `IP` |
| MigrationRoutes.MigrateIndexToCosine | backend/app/api/migration_routes.py:15-74 | the route as written. The shared service is untouched. An IP or unknown index changes nothing. On the L2 branch: a database failure gives 500; a missing file gives 500 after the rows are already deleted; otherwise the rows and the file are gone and a fresh empty index is built |
| MigrationRoutes.EmptyIpIndex | backend/app/api/migration_routes.py:61 | the index the route says it creates is empty and takes the IP branch |
| MigrationRoutes.ClearStore | backend/app/api/migration_routes.py:45-53 | the rows and the file are cleared exactly when the database answers, and nothing changes otherwise |
| MigrationRoutes.GuardedLoad | backend/app/services/vector_store.py:44-68 | with `_create_new_index` building the inner-product index, a store with no readable index file starts from an empty `IndexFlatIP`, which takes the IP branch |
| MigrationRoutes.MigrateIndexGuarded | backend/app/api/migration_routes.py:37-64 | the route as intended: it fails only on a database failure in the L2 branch. An IP index answers "already cosine" and an unknown one "unknown", both with the store unchanged. A successful L2 migration leaves no rows, no file and an empty IP index |
| MigrationRoutes.MigrateGuardedTwice | backend/app/api/migration_routes.py:37-64 | after an intended migration that asked for a re-upload, a second migration answers "already cosine" with `IndexFlatIP` and leaves the rows and the file as the first left them: empty and absent |
| MigrationFacts.MigrationRecreatesL2 | backend/app/api/migration_routes.py:56-61 | as written, the recreated index is again `IndexFlatL2`, which the next migration takes the L2 branch for, although the answer reports `IndexFlatIP` |
| MigrationFacts.GuardedMigrationSettles | backend/app/api/migration_routes.py:56-64 | as intended, a store left without an index file starts from `IndexFlatIP`, which takes the IP branch |
| Routes.HealthStatus | backend/app/api/routes.py:41-45 | "healthy" exactly when there are vectors; the chunks-without-vectors status exactly when there are chunks but no vectors; "empty" exactly when there are neither |
| Routes.ResetVectorStore | backend/app/api/routes.py:56-92 | after a reset, the index and lists are empty, no file remains, and the rows are deleted when the database answers. The stats are all zero and the health status is "empty" |
| Routes.Preview | backend/app/api/routes.py:222 | a chunk of at most 200 characters is shown whole; a longer one is cut to its first 200 characters plus "..." |
| Routes.Sources | backend/app/api/routes.py:220-227 | one source per result, in order, with the result's preview, score and metadata |
| Routes.RetryTopK | backend/app/api/routes.py:162 | the retry asks for `(top_k or TOP_K_RESULTS) * 2` results |
| Routes.QueryDocuments | backend/app/api/routes.py:95-267 | an empty store answers "no documents" without retrieving. Otherwise it retrieves once, and once more with the doubled `top_k` and threshold 0 exactly when the first attempt found nothing. No results give the "nothing matched" answer; results give one source per result |
| Routes.Stamp | backend/app/api/routes.py:295-297 | stamping sets `filename` and `source` to the file name and keeps every other key |
| Routes.StampAll | backend/app/api/routes.py:292-299 | every document is kept in order with its text, and its metadata is stamped |
| Routes.StampDocuments | backend/app/api/routes.py:292-299 | the stamping loop builds exactly the stamped documents |
| Routes.Texts | backend/app/api/routes.py:303 | the chunk texts, one per chunked document, in order |
| Routes.Metas | backend/app/api/routes.py:304 | the chunk metadata, one per chunked document, in order |
| Routes.IngestDocuments | backend/app/api/routes.py:270-352 | `/ingest` succeeds exactly when there are chunks to add and adding them succeeds. It then reports their number and the new vector total, and the store is in the state a successful `add_documents` leaves: vectors, chunks and padded metadata appended, rows committed when the database answers, the file rewritten when the disk answers. Every failure is 500 and leaves the store unchanged |
| Routes.AddAndReport | backend/app/api/routes.py:322-348 | a failed add gives a server error and changes nothing. A successful one reports the chunk count and the new total, and leaves the whole state `add_documents` promises: index, chunks, metadata, rows and file |
| Routes.TooLarge | backend/app/api/routes.py:368-370 | a file is too large exactly when it exceeds `MAX_FILE_SIZE_MB` megabytes |
| Routes.UploadName | backend/app/api/routes.py:388 | the stamped name is the file's name, or "unknown" when it has none |
| Routes.UploadAndIngest | backend/app/api/routes.py:355-455 | an oversized file is 400, a failed load is 500, and a file with no chunks is 400. Otherwise the stamped chunks are added, with the whole new state of a successful `add_documents`. Every failure leaves the store unchanged |
| RoutesFacts.PreviewIdempotent | backend/app/api/routes.py:222 | previewing a preview changes nothing |
| RoutesFacts.RestampOverrides | backend/app/api/routes.py:295-297 | stamping again overrides the earlier stamp |
| RoutesFacts.StampAllIdempotent | backend/app/api/routes.py:292-299 | re-stamping with the same name changes nothing, and stamping keeps every text |
| RoutesFacts.StaleRowsBlockNextCommit | backend/app/api/routes.py:76-83 | after a reset whose row delete failed, the stale row with id 0 makes the next commit of new chunks clash |
| DataValidator.PresentValues | backend/app/services/data_validator.py:118-135 | the kept values are those of the entries that have one, no more than there are entries |
| DataValidator.PresentPeriods | backend/app/services/data_validator.py:118-135 | one period is kept per kept value |
| DataValidator.Negatives | backend/app/services/data_validator.py:138 | no more negatives than values |
| DataValidator.CountNegatives | backend/app/services/data_validator.py:138 | the counting loop counts exactly the negative values |
| DataValidator.ValidateRevenue | backend/app/services/data_validator.py:89-142 | an empty list is reported invalid with a no-data warning. Otherwise the list is valid, its values and periods are kept, and it warns for missing values, duplicate periods and negative values |
| DataValidator.ValidatePlain | backend/app/services/data_validator.py:144-226 | EBITDA and profit lists are always valid; an empty one warns of no data; otherwise the values and periods are kept and missing values are warned about |
| DataValidator.CheckRelationships | backend/app/services/data_validator.py:228-311 | at most three checks. Every flag `Fires`: it carries the latest values, they are truthy, and its relation holds of them. Conversely EBITDA over revenue, negative EBITDA against positive revenue, profit over EBITDA, and a margin more than 5 points off the calculated one are each flagged whenever the latest values are truthy and the relation holds. The checks raise exactly when a last element they read is not a dictionary |
| DataValidator.RevenueCheck | backend/app/services/data_validator.py:246-269 | the EBITDA-against-revenue check raises exactly when both lists are non-empty and a last element is not a dictionary. It gives at most one flag, which `Fires`. EBITDA above revenue is flagged, and otherwise negative EBITDA with positive revenue, whenever both latest values are truthy |
| DataValidator.ProfitCheck | backend/app/services/data_validator.py:271-285 | the profit-against-EBITDA check raises exactly when both lists are non-empty and a last element is not a dictionary. It gives at most one flag, which `Fires`, and flags profit above EBITDA whenever both latest values are truthy |
| DataValidator.MarginCheck | backend/app/services/data_validator.py:287-309 | the margin check raises exactly when all three lists are non-empty and a last element is not a dictionary. It gives at most one flag, which `Fires`. It flags the reported margin whenever the three latest values are truthy and the margin differs by more than 5 from EBITDA over revenue times 100, or from 0 when revenue is not positive |
| DataValidator.PenalisedCount | backend/app/services/data_validator.py:446-449 | no more penalised checks than checks |
| DataValidator.MaxOf | backend/app/services/data_validator.py:342 | `max` is a member of the list and bounds it from above |
| DataValidator.MinOf | backend/app/services/data_validator.py:342 | `min` is a member of the list and bounds it from below |
| DataValidator.Judge | backend/app/services/data_validator.py:339-350 | a period contradicts itself exactly when it has several values whose spread exceeds a tenth of the largest, and the severity is high exactly when the spread exceeds a fifth |
| DataValidator.GroupPeriods | backend/app/services/data_validator.py:330-336 | the named periods, each once, exactly those seen |
| DataValidator.ContradictionsIn | backend/app/services/data_validator.py:338-375 | at most one contradiction per period, each naming its metric, its period, that period's values and their verdict |
| DataValidator.GroupByPeriod | backend/app/services/data_validator.py:330-336 | the grouping loop yields the periods in order of first occurrence, each with exactly its values |
| DataValidator.JudgeGroups | backend/app/services/data_validator.py:338-351 | the verdict loop reports the contradictions of the metric's periods, in order |
| DataValidator.DetectContradictions | backend/app/services/data_validator.py:313-377 | the revenue contradictions come first, then the EBITDA ones |
| DataValidator.CheckMissingData | backend/app/services/data_validator.py:379-421 | profit is reported missing exactly when there is revenue but no profit, and likewise EBITDA; a margin without EBITDA is reported exactly when there are margins but no EBITDA |
| DataValidator.ConsistencyScore | backend/app/services/data_validator.py:423-455 | the score is between 0 and 1, and it is 1 exactly when there are no issues |
| DataValidator.AsErrors | backend/app/services/data_validator.py:59 | each contradiction becomes one error, in order |
| DataValidator.ValidateKpis | backend/app/services/data_validator.py:17-87 | the score is between 0 and 1. The result is valid exactly when there are no errors and the score exceeds 0.7. The per-metric validations are those of `_validate_revenue`, `_validate_ebitda` and `_validate_profit`, values, periods and warnings included. When the checks raise, the partial result is returned. Otherwise the errors, warnings, cross-references and score are those of the parts |
| DataValidatorFacts.CountsAppend | backend/app/services/data_validator.py:118-135 | warning counts add up over concatenation |
| DataValidatorFacts.DuplicatesCountRepeats | backend/app/services/data_validator.py:129-132 | every repeat of a named period yields one duplicate warning: duplicates plus distinct periods equal the named entries |
| DataValidatorFacts.EveryEntryAccounted | backend/app/services/data_validator.py:118-135 | every entry is kept, warned as missing its value, or skipped as not a dictionary |
| DataValidatorFacts.NegativesIff | backend/app/services/data_validator.py:138-140 | the negative-revenue warning appears exactly when some kept value is negative |
| DataValidatorFacts.AgreeingValuesPass | backend/app/services/data_validator.py:340-341 | a period whose values all agree is no contradiction |
| DataValidatorFacts.AgreeingPeriodsNoContradiction | backend/app/services/data_validator.py:338-351 | when every period's values agree, nothing is reported |
| DataValidatorFacts.NegativeSpreadJudgedHigh | backend/app/services/data_validator.py:343-350 | whenever the largest value is not positive, any spread at all is a high-severity contradiction |
| DataValidatorFacts.ScoreMonotone | backend/app/services/data_validator.py:435-455 | more issues never raise the score |
| DataValidatorFacts.ValidityThreshold | backend/app/services/data_validator.py:423-455 | without errors, the score passes 0.7 exactly when the warnings plus twice the penalised checks are fewer than six |
| FinancialRatios.Extracted | backend/app/services/financial_ratios.py:87-95 | no more values than entries |
| FinancialRatios.ExtractMetricValues | backend/app/services/financial_ratios.py:78-95 | the extraction loop keeps exactly the convertible values, in order |
| FinancialRatios.Level3 | backend/app/services/financial_ratios.py:325-351 | the level counts the descending thresholds a value strictly exceeds |
| FinancialRatios.MarginLevel | backend/app/services/financial_ratios.py:315-351 | a margin's level counts the cut-offs of its type that it strictly exceeds: 20, 10 and 5 for EBITDA; 15, 10 and 5 for net profit; 40, 30 and 20 otherwise |
| FinancialRatios.InterpretMargin | backend/app/services/financial_ratios.py:315-351 | the interpretation is the label of the margin's level for its type, and it equals the label of a level exactly when that is the margin's level. Its partner is `MarginLevel` |
| FinancialRatios.GrowthLevel | backend/app/services/financial_ratios.py:353-371 | a rate's level counts which of 20, 10, 5 and 0 it strictly exceeds |
| FinancialRatios.InterpretGrowth | backend/app/services/financial_ratios.py:353-371 | the interpretation equals the label of a level exactly when that is the rate's level. Its partner is `GrowthLevel` |
| FinancialRatios.PeLevel | backend/app/services/financial_ratios.py:373-389 | the P/E level counts the cut-offs 10, 20 and 30 that the ratio reaches: below 10 is the lowest, 20 or more is at least the third, and 30 or more is the highest |
| FinancialRatios.InterpretPe | backend/app/services/financial_ratios.py:373-389 | the interpretation equals the label of a level exactly when that is the ratio's level. Its partner is `PeLevel` |
| FinancialRatios.ProfitabilityRatios | backend/app/services/financial_ratios.py:97-164 | the calculation raises exactly when the last gross margin is a non-empty string. Otherwise the EBITDA margin, net profit margin and return on revenue are present exactly when the latest numerator and latest revenue pass the guard, and each is latest over latest times 100 in unit "percentage". The two margins carry their `_interpret_margin` labels for EBITDA and net profit, and return on revenue carries none. The gross margin is present exactly when the last entry holds a non-zero number, and is that number as a percentage with its interpretation. No other key appears |
| FinancialRatios.LatestGross | backend/app/services/financial_ratios.py:141-150 | the truthy `latest_gross`: a number when the last entry holds a non-zero number, a raise when it holds a non-empty string, nothing otherwise |
| FinancialRatios.GrowthRate | backend/app/services/financial_ratios.py:186-223 | a growth rate exists exactly when there are two values and the earlier one is positive. It is the change as a percentage of the earlier value, and positive exactly when the later value is larger |
| FinancialRatios.GrowthRatios | backend/app/services/financial_ratios.py:166-239 | the growth category fails exactly when the compound rate raises. Otherwise each year-over-year rate is present exactly when its growth rate exists and holds that rate with its interpretation; the compound rate is present exactly when there are three revenues starting positive, and is `(root(last/first, n-1) - 1) * 100`. Every entry is a percentage with its `_interpret_growth` label, and no other key appears |
| FinancialRatios.EfficiencyRatios | backend/app/services/financial_ratios.py:241-271 | EBITDA to revenue is the only ratio, present exactly when the guard holds |
| FinancialRatios.ValuationRatios | backend/app/services/financial_ratios.py:273-313 | P/E is present exactly when there is a market cap and a positive latest profit, and EPS exactly when there are positive shares and a non-zero latest profit. P/E is market cap over profit in unit "ratio" with its `_interpret_pe_ratio` label; EPS is profit over shares in unit "currency_per_share" with no label. No other key appears |
| FinancialRatios.CalculateRatios | backend/app/services/financial_ratios.py:17-76 | liquidity and leverage are always empty. A raising category leaves it and every later one empty; otherwise every category is the one computed from the extracted values |
| FinancialRatiosFacts.ExtractedSound | backend/app/services/financial_ratios.py:87-95 | every extracted value is `float()` of some dictionary entry's value |
| FinancialRatiosFacts.ExtractedNumbers | backend/app/services/financial_ratios.py:87-95 | a list of numbers is extracted whole and in order |
| FinancialRatiosFacts.EbitdaMarginIsScaledRatio | backend/app/services/financial_ratios.py:118-127 | the EBITDA margin and EBITDA to revenue appear together, and the margin is the ratio times 100 |
| FinancialRatiosFacts.GrowthRateRecovers | backend/app/services/financial_ratios.py:186-223 | growing the earlier value by the rate gives the later value back |
| FinancialRatiosFacts.GrowthInterpretationMonotone | backend/app/services/financial_ratios.py:362-371 | a higher rate never reads worse, and two rates read the same exactly when their levels agree |
| FinancialRatiosFacts.MarginInterpretationMonotone | backend/app/services/financial_ratios.py:325-351 | a higher margin never has a lower level, for every margin type |
| TableExtractor.StrippedPiecesTrimmed | backend/app/services/table_extractor.py:83 | stripping the pieces and dropping the empty ones leaves trimmed cells |
| TableExtractor.Cells | backend/app/services/table_extractor.py:83 | every cell is non-empty with no surrounding whitespace |
| TableExtractor.LineCells | backend/app/services/table_extractor.py:79-98 | a separator that splits a line gives at least two trimmed cells |
| TableExtractor.RowsOf | backend/app/services/table_extractor.py:73-98 | at most one row per line; the first row is the header and the rest are data, each with at least two trimmed cells |
| TableExtractor.DetectedTable | backend/app/services/table_extractor.py:57-110 | fewer than three lines give no table. A table has well-formed rows, a column count equal to its header's width, a row count equal to its number of rows, and the chunk's page, source and metadata |
| TableExtractor.FindCells | backend/app/services/table_extractor.py:79-98 | the separator loop answers what the first splitting separator gives |
| TableExtractor.LineCellsStep | backend/app/services/table_extractor.py:79-98 | a separator either wins with its cells or passes the search on |
| TableExtractor.RowsOfSnoc | backend/app/services/table_extractor.py:73-98 | one more line adds its cells as a row, or adds nothing when it is blank or unsplit |
| TableExtractor.CollectRows | backend/app/services/table_extractor.py:73-98 | the line loop builds exactly the rows of the lines |
| TableExtractor.DetectTable | backend/app/services/table_extractor.py:41-110 | `_detect_table_in_text` answers the detected table |
| TableExtractor.Detections | backend/app/services/table_extractor.py:30-39 | one detection per chunk |
| TableExtractor.TablesSnoc | backend/app/services/table_extractor.py:30-39 | one more chunk adds the table found in it, if any |
| TableExtractor.ExtractTables | backend/app/services/table_extractor.py:18-39 | the chunk loop collects the tables found, in chunk order |
| TableExtractor.FirstMatch | backend/app/services/table_extractor.py:214-220 | a match is non-empty and fits the text |
| TableExtractor.DropCurrency | backend/app/services/table_extractor.py:208 | dropping currency symbols never lengthens the text |
| TableExtractor.Interpret | backend/app/services/table_extractor.py:226-230 | a cell has a value exactly when `float()` succeeded |
| TableExtractor.ParseCleaned | backend/app/services/table_extractor.py:226-232 | a cleaned cell has a value exactly when `float()` accepts its text |
| TableExtractor.TableValueAsWritten | backend/app/services/table_extractor.py:199-232 | as written, an empty cell has no value |
| TableExtractor.TableValue | backend/app/services/table_extractor.py:199-232 | as intended, an empty cell has no value |
| TableExtractor.CleanValue | backend/app/services/table_extractor.py:203-224 | the rewriting steps, with the unit patterns as written, produce the cleaned text, multiplier and percent flag |
| TableExtractor.ParseTableValue | backend/app/services/table_extractor.py:190-232 | `_parse_table_value` answers the as-written value of the cell |
| TableExtractor.MetricColumns | backend/app/services/table_extractor.py:139-150 | exactly the keyword headers become metric columns, in column order, named by their header, with no values yet |
| TableExtractor.DataRows | backend/app/services/table_extractor.py:153 | no more data rows than rows |
| TableExtractor.RowValue | backend/app/services/table_extractor.py:165-176 | a row adds at most one value to a column, and it is the as-written parse of its cell |
| TableExtractor.ColumnValues | backend/app/services/table_extractor.py:156-179 | every value a column collects is the as-written parse of its cell |
| TableExtractor.Periods | backend/app/services/table_extractor.py:156-179 | the periods are non-empty first cells, at most one per row |
| TableExtractor.Filled | backend/app/services/table_extractor.py:156-179 | every metric column keeps its place and gets the values of its column, parsed as written |
| TableExtractor.Extend | backend/app/services/table_extractor.py:160-176 | one row extends every column by its cell's value, parsed as written |
| TableExtractor.ExtendSkipsRow | backend/app/services/table_extractor.py:158-159 | a row of the wrong width adds nothing |
| TableExtractor.FilledSnoc | backend/app/services/table_extractor.py:156-179 | filling from one more row is extending by that row |
| TableExtractor.AppendRowValues | backend/app/services/table_extractor.py:160-176 | the per-metric loop extends every column by the row, parsing as written |
| TableExtractor.CellValue | backend/app/services/table_extractor.py:165-176 | one metric's step adds the row's cell parsed as written, if it parses |
| TableExtractor.ParsedTable | backend/app/services/table_extractor.py:124-188 | a table is parsed exactly when it has rows, at least two of them, and the first is a header; cells are parsed as written |
| TableExtractor.FindMetricColumns | backend/app/services/table_extractor.py:139-150 | the header loop finds exactly the metric columns |
| TableExtractor.FillMetrics | backend/app/services/table_extractor.py:153-179 | the data-row loop fills the columns, parsing as written, and collects the periods |
| TableExtractor.ParseFinancialTable | backend/app/services/table_extractor.py:112-188 | `parse_financial_table` answers the parsed table, cells parsed as written |
| TableExtractorFacts.TablesAppend | backend/app/services/table_extractor.py:30-39 | extracting from two batches is extracting from each in turn |
| TableExtractorFacts.DetectionsAppend | backend/app/services/table_extractor.py:30-39 | detection distributes over concatenation |
| TableExtractorFacts.TablesAtMostOnePerChunk | backend/app/services/table_extractor.py:30-39 | at most one table per chunk |
| TableExtractorFacts.TablesComeFromChunks | backend/app/services/table_extractor.py:30-39 | every table is what detection made of some chunk |
| TableExtractorFacts.TablesWellFormed | backend/app/services/table_extractor.py:86-100 | every table found has a header row followed by data rows, each with at least two cells |
| TableExtractorFacts.MetricColumnsComplete | backend/app/services/table_extractor.py:139-150 | every keyword header becomes a metric column |
| TableExtractorFacts.DetectedTableParses | backend/app/services/table_extractor.py:124-188 | every detected table parses, with the header row's cells as headers and the chunk's source and page |
| TableExtractorFacts.CleanedValues | backend/app/services/table_extractor.py:226-230 | billions, millions, thousands and units come out in millions, and a percentage as it is |
| TableExtractorFacts.BillionSuffixCleaned | backend/app/services/table_extractor.py:203-224 | as intended (the corrected patterns): `dB` is cleaned to `d`, in billions |
| TableExtractorFacts.MillionSuffixCleaned | backend/app/services/table_extractor.py:203-224 | as intended (the corrected patterns): `dM` is cleaned to `d`, in millions |
| TableExtractorFacts.ThousandSuffixCleaned | backend/app/services/table_extractor.py:203-224 | `dK` is cleaned to `d`, in thousands, as written and as intended alike |
| TableExtractorFacts.BareNumeralCleaned | backend/app/services/table_extractor.py:203-224 | a bare numeral is cleaned to itself, in units, as written and as intended alike |
| TableExtractorFacts.PercentCleaned | backend/app/services/table_extractor.py:222-224 | `d%` is cleaned to `d`, marked as a percentage, as written and as intended alike |
| TableExtractorFacts.UnitLettersRemoved | backend/app/services/table_extractor.py:214-220 | the intended unit patterns remove bare `B`, `M`, `K`; the patterns as written leave `B` and `M` |
| TableExtractorFacts.ScaleBillionSuffix | backend/app/services/table_extractor.py:212-214 | a `B` suffix selects billions |
| TableExtractorFacts.ScaleMillionSuffix | backend/app/services/table_extractor.py:215-217 | an `M` suffix selects millions |
| TableExtractorFacts.ScaleThousandSuffix | backend/app/services/table_extractor.py:218-220 | a `K` suffix selects thousands and is removed |
| TableExtractorFacts.ScalePercent | backend/app/services/table_extractor.py:211-224 | a percent sign selects no unit, whatever the unit patterns |
| TableExtractorFacts.UnitSuffixScales | backend/app/services/table_extractor.py:210-230 | with the suffix removed as intended, `dB`, `dM`, `dK` and `d` are read in millions: times 1000, as is, over 1000, over a million |
| TableExtractorFacts.PercentKeptAsIs | backend/app/services/table_extractor.py:223-229 | a percentage is returned as written, not converted to millions, by the code as written and as intended |
| TableExtractorFacts.AsWrittenSuffixValues | backend/app/services/table_extractor.py:210-230 | as written, `dK` is read as `d` over 1000 and a bare `d` as `d` over a million (in millions); `dB` and `dM` reach `float()` with their letter still on |
| TableExtractorFacts.ParenthesesNegate | backend/app/services/table_extractor.py:205 | accounting notation `(d)` is read as `-d`, whatever the unit patterns |
| TableExtractorFacts.BareSuffixSurvives | backend/app/services/table_extractor.py:212-217 | as written, `dB` and `dM` keep their letter, so `float()` fails and the cell has no value |
| NumericParser.Multiplier | backend/app/services/numeric_parser.py:11-17 | every unit multiplier is at least 1 |
| NumericParser.FirstLabelled | backend/app/services/numeric_parser.py:216-222 | a unit found by the search has the key among its upper-cased labels |
| NumericParser.ParseUnit | backend/app/services/numeric_parser.py:202-222 | `_parse_unit` answers the unit the search finds |
| NumericParser.Rank | backend/app/services/numeric_parser.py:20-25 | a currency's rank is its position in declaration order |
| NumericParser.Variants | backend/app/services/numeric_parser.py:22-25 | each currency has a symbol, a name and a code |
| NumericParser.FirstMentioned | backend/app/services/numeric_parser.py:258-261 | a currency found is mentioned in the text |
| NumericParser.ExtractCurrency | backend/app/services/numeric_parser.py:249-261 | `_extract_currency` answers the first currency mentioned |
| NumericParser.PlainNumber | backend/app/services/numeric_parser.py:160-173 | the call without metadata gives a number exactly when the parse succeeded |
| NumericParser.FirstParse | backend/app/services/numeric_parser.py:118-173 | the pattern loop never answers "no text", and an ambiguous answer carries the text |
| NumericParser.NumberOf | backend/app/services/numeric_parser.py:112-173 | `parse_number` answers `None` exactly for an empty text |
| NumericParser.TryMatch | backend/app/services/numeric_parser.py:121-166 | the `try` block's steps compute the attempt's outcome |
| NumericParser.MatchUnit | backend/app/services/numeric_parser.py:139-142 | the unit step reads the match's unit group |
| NumericParser.ParseNumber | backend/app/services/numeric_parser.py:95-173 | `parse_number` answers the first pattern's number, or ambiguity |
| NumericParser.TryPattern | backend/app/services/numeric_parser.py:119-166 | one pass of the loop searches with the pattern, then runs the `try` block |
| NumericParser.SegmentParses | backend/app/services/numeric_parser.py:189-200 | one parse per segment |
| NumericParser.AllNumbersSnoc | backend/app/services/numeric_parser.py:189-200 | one more segment adds its number, if it has one |
| NumericParser.ParseAllNumbers | backend/app/services/numeric_parser.py:175-200 | the segment loop collects the numbers of the sentences, in order |
| NumericParserFacts.UpperLabelsSpelled | backend/app/services/numeric_parser.py:219 | the spelled-out labels are the labels upper-cased |
| NumericParserFacts.LowerVariantsSpelled | backend/app/services/numeric_parser.py:57 | the spelled-out variants are the variants lower-cased |
| NumericParserFacts.LabelsDisjoint | backend/app/services/numeric_parser.py:13-16 | no two units other than BASE share an upper-cased label |
| NumericParserFacts.FirstLabelledFinds | backend/app/services/numeric_parser.py:216-220 | the search finds every unit at or after its start whose label is the key |
| NumericParserFacts.UnitOfIff | backend/app/services/numeric_parser.py:211-222 | `_parse_unit` answers a unit other than BASE exactly when the stripped, upper-cased text is one of its labels |
| NumericParserFacts.UnitOfUnlabelled | backend/app/services/numeric_parser.py:222 | any text that is no label answers BASE |
| NumericParserFacts.UnitLetterRoundTrip | backend/app/services/numeric_parser.py:202-222 | the letter `format_number` appends is read back as the same unit |
| NumericParserFacts.CapitalIsKey | backend/app/services/numeric_parser.py:211-212 | a capital letter is looked up as itself |
| NumericParser.NormalizeToUnit | backend/app/services/numeric_parser.py:224-247 | the converted value times the target multiplier equals the value times the source multiplier, and the same unit changes nothing. Its partners are `NormalizeRoundTrip` and `NormalizeCompose` |
| NumericParserFacts.NormalizeSameAmount | backend/app/services/numeric_parser.py:241-247 | the normalised value stands for the same amount in the target unit |
| NumericParserFacts.NormalizeIdentity | backend/app/services/numeric_parser.py:241-247 | normalising to the same unit changes nothing |
| NumericParserFacts.NormalizeRoundTrip | backend/app/services/numeric_parser.py:241-247 | converting to another unit and back gives the value back |
| NumericParserFacts.NormalizeCompose | backend/app/services/numeric_parser.py:241-247 | converting through an intermediate unit is converting directly |
| NumericParserFacts.FirstMentionedSpec | backend/app/services/numeric_parser.py:258-261 | the search answers the first mentioned currency from its start on, and nothing exactly when none is mentioned |
| NumericParserFacts.CurrencyInSpec | backend/app/services/numeric_parser.py:258-261 | `_extract_currency` answers nothing exactly when no currency is mentioned, and otherwise the first one in declaration order |
| NumericParser.FormatNumber | backend/app/services/numeric_parser.py:279-307 | the text opens with the currency symbol when a currency is given, and otherwise with the rendered number, and it ends with the unit letter. Its partners are `FormatKeepsCurrency` and `FormatKeepsUnit`, which read the currency and unit back |
| NumericParserFacts.FormattedChars | backend/app/services/numeric_parser.py:297-307 | a formatted number is made of its currency symbol, numerals and a unit letter |
| NumericParserFacts.FormatKeepsCurrency | backend/app/services/numeric_parser.py:279-307 | `_extract_currency` reads back the currency `format_number` was given |
| NumericParserFacts.OnlyOwnCurrency | backend/app/services/numeric_parser.py:297-307 | a formatted number mentions no other currency |
| NumericParserFacts.SymbolMentions | backend/app/services/numeric_parser.py:307 | a text that starts with a currency's symbol mentions that currency |
| NumericParserFacts.FormatKeepsUnit | backend/app/services/numeric_parser.py:279-307 | `_parse_unit` reads back, from the end of the formatted text, the unit it was given |
| NumericParserFacts.FirstParseSpec | backend/app/services/numeric_parser.py:118-173 | the patterns are tried in order: the answer is ambiguous exactly when none gives a number, and otherwise it is the first that does |
| NumericParserFacts.FirstPatternWins | backend/app/services/numeric_parser.py:112-173 | for a non-empty text, `parse_number` answers the number of the first pattern that gives one, and ambiguity with the stripped text exactly when none does |
| NumericParserFacts.AttemptMetadata | backend/app/services/numeric_parser.py:123-158 | a parsed number carries its text, target unit, normalised value and currency. It is negative exactly when the text has both parentheses, and the original value converts to the normalised one |
| NumericParserFacts.AllNumbersAppend | backend/app/services/numeric_parser.py:195-200 | `parse_all_numbers` keeps the segments' order |
| NumericParserFacts.AllNumbersFromSegments | backend/app/services/numeric_parser.py:195-200 | every number found is what `parse_number` gave for some segment, and there are no more numbers than segments |
| BusinessInsights.Hits | backend/app/services/business_insights.py:52-54 | a category's score is at most its number of keywords |
| BusinessInsights.Scores | backend/app/services/business_insights.py:51-54 | one score per category |
| BusinessInsights.Best | backend/app/services/business_insights.py:56-57 | the chosen position is a category's, or -1 for none |
| BusinessInsights.CountHits | backend/app/services/business_insights.py:52-54 | the keyword loop counts the category's hits |
| BusinessInsights.CategorizeQuery | backend/app/services/business_insights.py:39-58 | `categorize_query` answers the top category, or "General" |
| BusinessInsights.IndexOf | backend/app/services/business_insights.py:83-93 | the position found holds the key and is its first; -1 means the key is absent |
| BusinessInsights.ExtractTopics | backend/app/services/business_insights.py:60-99 | `extract_topics` answers the most common topics of the term and word tallies |
| BusinessInsights.CountQueryWords | backend/app/services/business_insights.py:88-93 | the word loop of one query bumps every kept word once |
| BusinessInsights.MentionCount | backend/app/services/business_insights.py:122-133 | no more mentions than answers |
| BusinessInsights.ExtractBusinessMetrics | backend/app/services/business_insights.py:101-139 | `extract_business_metrics` answers the counters and the key numbers |
| BusinessInsights.CategoriesOf | backend/app/services/business_insights.py:159-161 | one category per query |
| BusinessInsights.GetQueryCategories | backend/app/services/business_insights.py:141-169 | `get_query_categories` answers the category counts, or `[]` when the database fails |
| BusinessInsights.Render | backend/app/services/business_insights.py:457-477 | one message per insight |
| BusinessInsights.SumChunks | backend/app/services/business_insights.py:476 | the sum of the chunk counts, or a failure when one is not a number |
| BusinessInsights.AppendWhen | backend/app/services/business_insights.py:457-477 | a guarded append adds the insight exactly when its condition holds |
| BusinessInsights.AddQueryInsights | backend/app/services/business_insights.py:457-465 | the first three blocks build the query insights |
| BusinessInsights.AddLaterInsights | backend/app/services/business_insights.py:467-477 | the last three blocks append the later insights |
| BusinessInsights.GetKeyInsights | backend/app/services/business_insights.py:433-482 | `get_key_insights` answers the rendered key insights |
| BusinessInsightsFacts.HitsZeroIff | backend/app/services/business_insights.py:52-54 | a category scores 0 exactly when none of its keywords occurs |
| BusinessInsightsFacts.BestSpec | backend/app/services/business_insights.py:56-57 | nothing is chosen exactly when every score is 0. Otherwise the chosen score is positive and highest, and strictly higher than every earlier one |
| BusinessInsightsFacts.CategoryGeneralIff | backend/app/services/business_insights.py:48-58 | "General" exactly when no keyword of any category occurs |
| BusinessInsightsFacts.CategoryIsTopScorer | backend/app/services/business_insights.py:49-57 | otherwise the answer is the first category with the highest positive score |
| BusinessInsightsFacts.TableHasNoGeneral | backend/app/services/business_insights.py:20-28 | no keyword category is called "General" |
| BusinessInsightsFacts.AssignLookup | backend/app/services/business_insights.py:84-93 | setting a counter entry changes that key only |
| BusinessInsightsFacts.AssignKeeps | backend/app/services/business_insights.py:84-93 | setting a counter entry keeps keys distinct and counts positive |
| BusinessInsightsFacts.EntryIsLookup | backend/app/services/business_insights.py:96-99 | each entry of a counter holds its key's count |
| BusinessInsightsFacts.TermCountsSpec | backend/app/services/business_insights.py:81-85 | a business term's count is its number of occurrences in the text, 0 for other keys |
| BusinessInsightsFacts.TalliedSpec | backend/app/services/business_insights.py:88-93 | bumping a list of keys adds each key's number of occurrences in it |
| BusinessInsightsFacts.InsertByCountSpec | backend/app/services/business_insights.py:98 | insertion keeps every entry and the order by count |
| BusinessInsightsFacts.SortByCountSpec | backend/app/services/business_insights.py:96-99 | sorting by count is a permutation in non-increasing count |
| BusinessInsightsFacts.MostCommonSpec | backend/app/services/business_insights.py:96-99 | `most_common(n)` keeps at most `n` entries of the counter, by non-increasing count; an entry left out means the list is full and the entry counts no more than the last kept |
| BusinessInsightsFacts.TopicTallySpec | backend/app/services/business_insights.py:70-93 | each topic's tally is its term occurrences plus its word occurrences |
| BusinessInsightsFacts.TopicsSpec | backend/app/services/business_insights.py:70-99 | at most ten topics, by non-increasing count, each with its true positive count; a topic left out means the list is full and the topic counts no more than the tenth |
| BusinessInsightsFacts.MentionCountIsCardinality | backend/app/services/business_insights.py:122-133 | a mention counter is the number of answers its pattern matches |
| BusinessInsightsFacts.MetricsOfSpec | backend/app/services/business_insights.py:110-139 | each counter is the number of answers its pattern matches; the key numbers are the first ten found, all of them when there are no more |
| BusinessInsightsFacts.EmptyCounter | backend/app/services/business_insights.py:75 | an empty counter holds nothing |
| BusinessInsightsFacts.QueryCategoriesSpec | backend/app/services/business_insights.py:150-169 | a database failure gives `[]`. Otherwise each category appears with its number of queries, by non-increasing count, and every query's category appears |
| BusinessInsightsFacts.ChunkTotalSpec | backend/app/services/business_insights.py:476 | the sum succeeds exactly when every chunk count is a number |
| BusinessInsightsFacts.WhenMembers | backend/app/services/business_insights.py:457-477 | a guarded append adds its insight and nothing else |
| BusinessInsightsFacts.KeyInsightsCapped | backend/app/services/business_insights.py:482 | at most five insights, the first ones built, all of them when there are no more, none exactly when none were built |
| BusinessInsightsFacts.OpensWithTotal | backend/app/services/business_insights.py:457-458 | the report opens with the query total exactly when there were queries |
| BusinessInsightsFacts.TotalFirst | backend/app/services/business_insights.py:457-458 | with queries, the first insight built is their total |
| BusinessInsightsFacts.TotalOnlyFirst | backend/app/services/business_insights.py:457-477 | only the first block reports a query total |
| BusinessInsightsFacts.KnowledgeBaseIff | backend/app/services/business_insights.py:474-477 | the knowledge-base insight is built exactly when there are documents and every chunk count is a number |

## Left out

- FAISS internals: the distance computation, vector normalisation and
  floating point. Nearest-neighbour search is a parameter returning
  (distance, position) pairs in ascending distance.
- External services enter as parameters saying what they answered:
  - the embedding provider;
  - the reranker model;
  - the synthesis model;
  - the chunker;
  - the file loader and saver.
  Their own code is not part of this model.
- The database and the disk are the `Storage` class: the table rows and the
  index file. Backups of the index and metadata files are reported as a
  flag, and the copy itself is not modelled.
- Regular expressions that are not written out become parameters:
  - the separator regexes of the table detector;
  - the number patterns and the sentence split of the numeric parser;
  - the metric patterns and the percentage `findall` of the
    business-insights service.
  The unit regexes of the table cell parser are written out.
- `float()`, `int()` of a string, and the `:.1f`, `:.2f`, `:.3f` and
  `:,.Nf` renderings are parameters. Numbers are mathematical reals, so
  rounding, infinities and NaN are not modelled.
- The fractional power in the compound growth rate is a parameter `root`.
  The rate is stated in terms of it, and its failure, a real root of a
  negative number, is modelled as a condition.
- Routes.QueryDocuments: the query is embedded once, and that embedding
  serves both the first retrieval and the retry. The embedding provider is
  taken to answer the same for the same text within one request, so a first
  embedding call that fails and a second that succeeds is not modelled.
- `_load_metadata_from_db` reads `db.query(ChunkMetadata).all()` with no
  `ORDER BY`, so the database may return rows in any order. The model reads
  them in insertion order, which is what keeps chunk positions aligned with
  `faiss_id`s after a reload.
- Logging, `async`, HTTP framework plumbing and the wording of messages,
  warnings and errors are left out. Messages are represented by what they
  report.
- Query logging to the analytics service after `/query` is left out. The
  analytics figures `get_key_insights` reads enter as parameters.
- Python `lower()`/`upper()` are modelled on ASCII letters only.
- `get_business_topics`, `get_business_metrics_summary`,
  `extract_numerical_data`, `get_numerical_data`,
  `calculate_industry_benchmarks` and `normalize_number_string` are left
  out. They only wrap database queries or are regex-heavy extraction
  outside the modelled pipeline.
- The `_build_*_patterns` helpers of the numeric parser's constructor are
  left out: they only compile the patterns that enter as parameters.
- Routes.TooLarge: stated on the byte count. The source compares the float
  `len(content) / (1024 * 1024)` with the limit, which is the same test
  over the reals.
- BusinessInsightsFacts.MostCommonSpec: does not state that ties keep
  insertion order. The model's sort is stable, as `sorted` is, but no
  lemma states it.
- Liquidity and leverage ratios are always empty in the source, and the
  model states exactly that.

## Findings

The table parser (`ParseTableValue` and everything built on it) follows the
unit patterns as written. `TableValue` is the parse as intended, and the
lemmas about it are labelled so.

| source | as written | input that shows it | evidently intended | confidence | as-written member | corrected member |
|---|---|---|---|---|---|---|
| backend/app/api/migration_routes.py:45-52 | the L2 branch deletes every `ChunkMetadata` row, then unlinks the index file unconditionally | an L2 index with no file on disk, e.g. a fresh store: the unlink raises, the route answers 500, and the rows are already gone | remove the file only when it exists, so a migration with a working database succeeds | not executed | MigrationRoutes.MigrateIndexToCosine | MigrationRoutes.MigrateIndexGuarded |
| backend/app/api/migration_routes.py:56-61 | the route recreates the index with `_create_new_index`, which builds `IndexFlatL2`, while the answer reports `IndexFlatIP` | any successful L2 migration: the new index's type name contains "L2" and not "IP", so the next call migrates again | the recreated index is an inner-product index, so a second migration is a no-op | not executed | MigrationFacts.MigrationRecreatesL2 | MigrationRoutes.MigrateGuardedTwice |
| backend/app/services/table_extractor.py:212-217 | the unit patterns `[Bb]illion?` and `[Mm]illion?` need the letters "illio", so a bare `B` or `M` suffix is left in the text | the cell `2.5B`: the multiplier is set to 1e9, the text handed to `float()` is `2.5B`, and the cell has no value | a bare unit letter is removed like `K` is, so `2.5B` reads as 2500 (millions) | not executed | TableExtractorFacts.BareSuffixSurvives | TableExtractorFacts.UnitSuffixScales |
