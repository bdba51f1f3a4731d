# RelevanceAI SDK: batch pipeline, dimensionality-reduction bookkeeping, cluster labels and dataset reads, in Dafny

This project models four parts of the RelevanceAI Python SDK and proves properties of them.

**The pull → update → push pipeline** (`PullUpdatePush`, `relevanceai/operations_new/ops_run.py`)
- The pipeline streams records out of a dataset page by page into the transform queue `tq`.
- It drains `tq` in batches through a user transform.
- It strips the fields each record already had, and queues the rest on the push queue `pq`.
- It writes `pq` back in bulk, re-queuing the records the store rejects.
- Three progress counters track pulled, updated and pushed records against the expected total `ndocs`.
- The model runs the stages one after another, in one thread:
  - `Pipeline.PullUpdatePush` is a class whose queues are `seq` fields used first-in first-out.
  - Its methods change the queues and counters as the source's methods do.
- Batch and queue sizing (`Sizing`) uses exact integer and rational arithmetic.
- Field stripping and failed-record selection are pure functions (`Records`).
- The push stage's counter arithmetic is isolated in `PushAccounting`.
- `OperationRun` holds the chunk check and the filters `OperationRun.run` builds.

**Dimensionality reduction** (`ReduceDimensions`, `relevanceai/operations/dr/operations.py`)
- Model selection by name.
- The reduced vector's field name and the alias normalisation.
- The `_dr_` metadata entry.
- The checks `fit` makes before doing any work.

**Cluster tools** (`ClusterTools`, `relevanceai/vector_tools/cluster.py`)
- Label naming and centroid documents.
- The labelling and projection done by `fit_documents`.
- `MiniBatchKMeans.to_metadata`.
- The algorithm dispatch of `Cluster.cluster`.

**Dataset reads** (`DatasetRead`, `relevanceai/dataset_api/dataset_read.py`)
- The dtype list and dtype tally of a schema.
- The schema cache.
- The argument handling of `sample` and `filter`.

Shared types are in `Values`:
- JSON values.
- Documents, as maps from field name to value.
- Python's exception kinds, as an `Error` datatype. Every raising path returns `Err(...)`.
- `Option` and `Result`.
- Query filters.

`Strings` holds the string operations:
- non-overlapping left-to-right `str.replace` by the empty string;
- `"-".join`;
- ASCII `upper()`;
- `str()` of an integer, with its injectivity proved through a parse-back round trip.

Two behaviours of the code that the model keeps as written:
- **Batch size.** `_get_optimal_batch_size` has no lower clamp and no fallback for a zero average size:
  - it returns 0 for records larger than the target (`Sizing.OversizeRecordsGiveZeroBatch`);
  - it divides by zero for an empty or zero-size sample (`Sizing.OptimalBatchSize`).
- **Pull batch size.** The constructor caps `pull_batch_size` at `ndocs` (line 72), then overwrites it with the sampled optimum (line 92). So the cap has no effect (`Sizing.InitSettings`).

## Model

| member | source | states |
|---|---|---|
| `Sizing.AverageDocumentSize` | relevanceai/operations_new/ops_run.py:166-174 | ZeroDivisionError exactly when the sample is empty; otherwise the average times the sample count is the sample's total size |
| `Sizing.AverageWithinSample` | relevanceai/operations_new/ops_run.py:166-174 | the average lies between the smallest and largest sampled size |
| `Sizing.TruncDivBounds` | relevanceai/operations_new/ops_run.py:184 | `int()` of a quotient truncates toward zero: for a non-negative dividend q ≥ 0 and q·b ≤ a < (q+1)·b; for a negative one q ≤ 0 and (q−1)·b < a ≤ q·b |
| `Sizing.OptimalBatchSize` | relevanceai/operations_new/ops_run.py:176-187 | succeeds exactly for a non-empty sample of non-zero total size (ZeroDivisionError otherwise); never exceeds `max_chunk_size`; non-negative for non-negative settings, with no lower clamp |
| `Sizing.OptimalBatchSizeFits` | relevanceai/operations_new/ops_run.py:176-187 | below the cap, the size is the largest number of average-size records that fits in the target megabytes |
| `Sizing.OversizeRecordsGiveZeroBatch` | relevanceai/operations_new/ops_run.py:184-185 | a 2 MiB record against a 1 MB target gives batch size 0 |
| `Sizing.InitSettings` | relevanceai/operations_new/ops_run.py:66-126 | TypeError for a None pull or update size. The pull size is the sampled optimum (the `ndocs` cap is overwritten). The update size is capped at `ndocs`, or equals `ndocs` in all-at-once mode. Each queue holds half the buffer, or half the RAM-derived size when the buffer is 0, or `ndocs` in all-at-once mode. `func_lock` is set exactly when multithreaded update is off, and then there is one update worker. The timeout defaults to 30 |
| `Records.KeysOf` | relevanceai/operations_new/ops_run.py:246 | one key set per record, holding exactly that record's field names |
| `Records.Strip` | relevanceai/operations_new/ops_run.py:301-306 | a field is kept exactly when the record has it and it is `_id` or was not among the old keys; kept values are unchanged |
| `Records.StripAddedField` | relevanceai/operations_new/ops_run.py:301-306 | a record that gained one new field is stripped to that field plus its `_id`, if it had one |
| `Records.Postprocess` | relevanceai/operations_new/ops_run.py:292-309 | IndexError exactly when a record beyond `old_keys` has a field. Otherwise: same length; record i keeps exactly its fields not in `old_keys[i]`, plus `_id`, values unchanged |
| `Records.PostprocessIdempotent` | relevanceai/operations_new/ops_run.py:301-308 | stripping the result again against the same key sets gives the same batch |
| `Records.PostprocessKeepsOnlyNewField` | relevanceai/operations_new/ops_run.py:301-308 | a transform adding one field leaves only that field and `_id` in the payload |
| `Records.FailedMembers` | relevanceai/operations_new/ops_run.py:281-284 | a record is among the failed ones exactly when it is in the batch and its `_id` was reported |
| `Records.FailedPartition` | relevanceai/operations_new/ops_run.py:281-284 | failed and succeeded records together are a permutation of the batch |
| `Records.FailedInBatchOrder` | relevanceai/operations_new/ops_run.py:281-284 | the failed records keep their batch order (a subsequence of the batch) |
| `PushAccounting.RunAsWrittenBacklog` | relevanceai/operations_new/ops_run.py:315-331 | with the source's counter arithmetic, the unaccounted work `ndocs − pushed − queued` grows by every reported failure |
| `PushAccounting.AsWrittenNeverCompletes` | relevanceai/operations_new/ops_run.py:315-331 | as written, once a failure has been reported, a drained queue leaves the pushed counter below `ndocs`, so the push loop never exits |
| `PushAccounting.FailureExampleAsWritten` | relevanceai/operations_new/ops_run.py:274-288 | 10 records, 2 rejected then retried: the counter ends at 10 against a total of 12 |
| `PushAccounting.RunKeepsBacklog` | relevanceai/operations_new/ops_run.py:274-331 | corrected accounting, every round re-queuing what it reported: the total grows by exactly the reported failures and the unaccounted work never changes |
| `PushAccounting.CompletesWhenDrained` | relevanceai/operations_new/ops_run.py:274-331 | corrected accounting, every round re-queuing what it reported, all work queued at the start: the queue is empty exactly when the pushed counter reaches the total |
| `PushAccounting.FailureExampleCorrected` | relevanceai/operations_new/ops_run.py:274-331 | the same rounds under corrected accounting: 10 of 12 after the first round with 2 re-queued, 12 of 12 after the retry |
| `Pipeline.PagesRead` | relevanceai/operations_new/ops_run.py:148-164 | `_pull` requests pages up to and including the first empty one |
| `Pipeline.PullAdvance` | relevanceai/operations_new/ops_run.py:148-164 | one more page read keeps "records enqueued plus records still to come is everything pulled"; an empty page ends the count of pages read |
| `Pipeline.ScenarioPagesRead` | relevanceai/operations_new/ops_run.py:148-164 | pages of 10, 10 and 5 records then an empty page: four requests, and the 25 records pulled in order |
| `Pipeline.PagesFrom` | relevanceai/operations_new/ops_run.py:148-164 | a non-empty page contributes its records and the paging continues; an empty page ends it |
| `Pipeline.PullUpdatePush.constructor` | relevanceai/operations_new/ops_run.py:63-133 | the settings are stored, both queues start empty, the counters start at 0 |
| `Pipeline.PullUpdatePush.Pull` | relevanceai/operations_new/ops_run.py:141-164 | `tq` gains every pulled record in page order. The pulled counter grows by their number. The first request has no cursor, and each later one resumes at the previous page's `after_id` |
| `Pipeline.PullUpdatePush.EnqueueAll` | relevanceai/operations_new/ops_run.py:160-161 | `tq` gains the page's records, in order |
| `Pipeline.PullUpdatePush.GetUpdateBatch` | relevanceai/operations_new/ops_run.py:189-208 | the batch is a FIFO prefix of `tq`, at most `update_batch_size` long. It is exactly that long in all-at-once mode, and otherwise as long as `tq` allows. With a positive size and a non-empty `tq` it passes `is_chunk_valid` |
| `Pipeline.PullUpdatePush.GetPushBatch` | relevanceai/operations_new/ops_run.py:210-233 | FIFO prefix of `pq`. With a set size: min(size, queued) records. Unset with fewer than 10 queued: Empty is raised. Otherwise the size is fixed from the first 10 and the batch filled up to it |
| `Pipeline.PullUpdatePush.TakePush` | relevanceai/operations_new/ops_run.py:225-231 | takes min(limit, queued) records from the front of `pq` |
| `Pipeline.PullUpdatePush.UpdateStep` | relevanceai/operations_new/ops_run.py:242-260 | one `_update` iteration: the FIFO batch goes through the transform and `_postprocess`; every result is appended to `pq`; the update counter grows by the batch length |
| `Pipeline.PullUpdatePush.UpdateRound` | relevanceai/operations_new/ops_run.py:242-260 | one iteration that can proceed: a non-empty batch of at most `update_batch_size` leaves the head of `tq`, and its transformed and stripped records are appended to `pq` |
| `Pipeline.PullUpdatePush.Update` | relevanceai/operations_new/ops_run.py:235-260 | the returned batches, concatenated, are the prefix `tq` lost. `pq` gains exactly `Updated(func, batches)`: each batch transformed and stripped, in order. The update counter grows by their length. The loop ends at `ndocs` or where no more records can come. In all-at-once mode there is one batch of `ndocs`. A fresh stage over exactly `ndocs` queued records drains them all |
| `Pipeline.UpdatedKeepsIds` | relevanceai/operations_new/ops_run.py:242-260 | a transform that keeps each record's `_id` in place: the update stage writes one record per drained record, in order, with the same `_id` |
| `Pipeline.UpdatedAddsField` | relevanceai/operations_new/ops_run.py:242-260 | a transform that only adds field `f`: the update stage writes, for each drained record in order, exactly its `_id` and `f` |
| `Pipeline.PullUpdatePush.HandleFailedDocuments` | relevanceai/operations_new/ops_run.py:262-290 | no reported failures: nothing changes. Otherwise `ndocs` grows by the reported count; the batch records with a reported `_id` are returned in batch order and appended to `pq`; a record without `_id` raises KeyError |
| `Pipeline.PullUpdatePush.PushStep` | relevanceai/operations_new/ops_run.py:262-331 | the batch is a FIFO prefix of `pq`; `pq` becomes the rest followed by the re-queued records, which are exactly `Failed(batch, reported ids)` (none when nothing is reported). `ndocs` grows by the reported count and the pushed counter by batch length minus re-queued records, so the state moves as `PushAccounting.StepAsWritten` says. A set batch size is kept and fixes the batch length; an unset one becomes the size sampled from the first 10 queued records |
| `Pipeline.PullUpdatePush.PushRound` | relevanceai/operations_new/ops_run.py:315-331 | one loop iteration: the queue balance, the re-queue record, `ndocs` and the counter carried one round forward; a set positive size with nothing reported and a non-empty queue sends a non-empty batch |
| `Pipeline.PullUpdatePush.Push` | relevanceai/operations_new/ops_run.py:311-331 | the loop runs until the counter reaches `ndocs` or the responses run out. The starting queue plus everything re-queued equals everything sent plus the final queue. Round j re-queued exactly the records of batch j whose `_id` response j reported. `ndocs` grows by the reported failures and the counter by sent minus re-queued, so the unaccounted work grows by exactly the reported failures. With no failures, a positive size and all work queued, everything is sent in order and the counter reaches `ndocs` |
| `Pipeline.RequeuesAllAt` | relevanceai/operations_new/ops_run.py:281-288 | the push record of all rounds gives, for round j, the re-queued records as `Failed` of batch j against response j |
| `Pipeline.PullUpdatePush.Run` | relevanceai/operations_new/ops_run.py:391-401 | with `ndocs <= 0` nothing changes. Otherwise all pages are pulled, and completion means the pushed counter reached `ndocs`. For a fresh pipeline over N > 0 records with positive batch sizes and no reported failures: completed; pulled, updated and pushed counters all N; both queues empty; the update batches are the pulled records in order, and the pushed records are exactly their transformed and stripped versions |
| `Pipeline.PullUpdatePush.UpdateAndPush` | relevanceai/operations_new/ops_run.py:391-401 | the stages after the pull; with the same fresh, failure-free hypotheses every queued record is updated and pushed, in order, and both counters reach `ndocs` |
| `Pipeline.ScoreScenario` | relevanceai/operations_new/ops_run.py:141-331 | 25 records pulled in pages of 10, 10 and 5 and scored by a transform that adds `score`: all counters reach 25, both queues end empty, and record i's written payload is exactly its `_id` and its score |
| `OperationRun.TransformedChunkValid` | relevanceai/operations_new/ops_run.py:409-410 | after a length-preserving transform, `_postprocess` never fails, and its result passes `is_chunk_valid` exactly when the batch did |
| `OperationRun.ExistsFilters` | relevanceai/operations_new/ops_run.py:456-469 | one `exists` condition per selected field, in order |
| `OperationRun.RunFilters` | relevanceai/operations_new/ops_run.py:445-480 | the caller's filters come first. Then one `or` filter over the selected fields' `exists` conditions. Unless refreshing, a `!=` check on the first output field follows |
| `ReduceDimensions.ResolveModel` | relevanceai/operations/dr/operations.py:24-35 | a name resolves exactly when its upper-cased form is PCA, TSNE, UMAP or IVIS; ValueError otherwise; a model object is kept |
| `ReduceDimensions.ResolveModelIgnoresCase` | relevanceai/operations/dr/operations.py:24-35 | names are matched without regard to ASCII case |
| `ReduceDimensions.Cleaned` | relevanceai/operations/dr/operations.py:56 | each field with every `_vector_` removed |
| `ReduceDimensions.CreateVectorName` | relevanceai/operations/dr/operations.py:53-63 | the name always ends in `_dr_vector_`; an empty list gives exactly `_dr_vector_` |
| `ReduceDimensions.CleanFieldsJoinAsGiven` | relevanceai/operations/dr/operations.py:53-58 | fields without `_vector_` are joined by `-` unchanged, then `_dr_vector_` |
| `ReduceDimensions.SingleFieldName` | relevanceai/operations/dr/operations.py:53-63 | a single field takes the general branch; the unreachable `len == 1` result differs from it exactly when the field contains `_vector_` |
| `ReduceDimensions.NormaliseAlias` | relevanceai/operations/dr/operations.py:49 | the alias always ends in `_vector_`, and is unchanged exactly when it already did |
| `ReduceDimensions.NormaliseAliasIdempotent` | relevanceai/operations/dr/operations.py:49 | normalising twice is normalising once |
| `ReduceDimensions.Init` | relevanceai/operations/dr/operations.py:11-49 | ValueError exactly for an unknown model name. The arguments are stored. The alias is the normalised explicit alias, or the name built from the vector fields (an empty list when they are None) |
| `ReduceDimensions.InsertMetadata` | relevanceai/operations/dr/operations.py:65-97 | None arguments fall back to the stored ones. No dataset id: nothing is posted. A `_dr_` that is not an object: TypeError. Otherwise `_dr_[alias]` becomes `{alias, vector_fields, n_components}`, and every other alias and top-level key is kept |
| `ReduceDimensions.PlanFit` | relevanceai/operations/dr/operations.py:128-154 | ValueError exactly when the effective vector fields are None or empty, or contain the alias. Otherwise the fallbacks are applied and one `exists` filter per field is appended to the caller's filters |
| `ClusterTools.LabelCluster` | relevanceai/vector_tools/cluster.py:76-79 | a numeric label n becomes `cluster_` followed by n's decimal form; text labels are kept |
| `ClusterTools.LabelClusters` | relevanceai/vector_tools/cluster.py:81-82 | same length, element-wise `_label_cluster` in order |
| `ClusterTools.IntLabelsInjective` | relevanceai/vector_tools/cluster.py:76-79 | two numeric labels get the same name exactly when they are equal |
| `ClusterTools.LabelClustersKeepPartition` | relevanceai/vector_tools/cluster.py:81-82 | numeric labels: two points share a name exactly when they shared a label |
| `ClusterTools.TextLabelMayCollide` | relevanceai/vector_tools/cluster.py:76-79 | the text label `cluster_3` and the numeric label 3 get the same name |
| `ClusterTools.CentroidDocs` | relevanceai/vector_tools/cluster.py:104-109 | one document per centre; document i is exactly `{_id: cluster_i, centroid_vector_: centers[i]}` |
| `ClusterTools.CentroidIdsDistinct` | relevanceai/vector_tools/cluster.py:104-109 | the centroid ids are pairwise distinct |
| `ClusterTools.CentroidCluster.GetCentroidDocs` | relevanceai/vector_tools/cluster.py:98-109 | stores the centres and returns their centroid documents |
| `ClusterTools.Project` | relevanceai/vector_tools/cluster.py:68 | the projection has exactly the keys `_id` and the cluster field, read with `.get` (the cluster field wins when it is `_id`) |
| `ClusterTools.Projections` | relevanceai/vector_tools/cluster.py:68 | one projection per document, in order |
| `ClusterTools.SetFieldAcross` | relevanceai/vector_tools/cluster.py:64-66 | each document paired with a label by `zip` gets it at the path, in place; the others are untouched |
| `ClusterTools.FitDocuments` | relevanceai/vector_tools/cluster.py:31-69 | ValueError, with the documents untouched, exactly when there is not one vector field. Otherwise each document paired with a label gets it at `cluster_field.vector_field.alias`, in place, and the rest are untouched. The result is the projections, or the documents themselves |
| `ClusterTools.ToMetadata` | relevanceai/vector_tools/cluster.py:180-190 | the settings, with `number_of_clusters` equal to `k` |
| `ClusterTools.EffectiveArgs` | relevanceai/vector_tools/cluster.py:302-306 | given arguments are used as they are; otherwise the name's default, and KeyError exactly when the name has none |
| `ClusterTools.Cluster` | relevanceai/vector_tools/cluster.py:302-329 | Not a name or clusterer: ValueError. A clusterer object: TypeError (called without vectors). A name without arguments and without a default: KeyError. kmeans or kmedoids with `k` but no arguments: AttributeError. kmedoids otherwise: exactly NotImplementedError. kmeans with arguments among KMeans's keywords: a KMeans fit on those arguments. hdbscan with arguments lacking `min_cluster_size`: an HDBSCAN fit on them. Any other name: KeyError or ValueError. A KMeans fit takes only KMeans's keywords, and its cluster count comes from `args["k"]` or 10 |
| `ClusterTools.ClusterIgnoresK` | relevanceai/vector_tools/cluster.py:288-329 | with explicit arguments the `k` argument changes nothing: `_choose_k`'s 10 is discarded |
| `ClusterTools.NClustersRejected` | relevanceai/vector_tools/cluster.py:211-232 | `n_clusters` in the kmeans arguments raises TypeError, because `KMeans` does not accept it |
| `DatasetRead.PossibleDtypesOf` | relevanceai/dataset_api/dataset_read.py:82-90 | never longer than the schema |
| `DatasetRead.PossibleDtypesMembers` | relevanceai/dataset_api/dataset_read.py:82-90 | a dtype is listed exactly when some schema value is that type name, or it is `vector_` and some object's first key is `vector` |
| `DatasetRead.DtypeCountKeys` | relevanceai/dataset_api/dataset_read.py:92-97 | the tally's keys are exactly the possible dtypes. A key counts 0 exactly when no schema value equals that string, so `vector_` counts 0 for nested vector objects |
| `DatasetRead.NestedVectorCountsZero` | relevanceai/dataset_api/dataset_read.py:92-97 | a text field and a nested vector object tally as `{text: 1, vector_: 0}` |
| `DatasetRead.Read.constructor` | relevanceai/dataset_api/dataset_read.py:39-42 | stores the dataset id and fields; nothing cached yet |
| `DatasetRead.Read.GetSchema` | relevanceai/dataset_api/dataset_read.py:99-104 | the first call fetches and caches; later calls return the cache; the schema is fetched at most once |
| `DatasetRead.Read.PossibleDtypes` | relevanceai/dataset_api/dataset_read.py:82-90 | IndexError exactly when some object value has no keys; otherwise the dtypes in schema order |
| `DatasetRead.Read.DtypeCount` | relevanceai/dataset_api/dataset_read.py:92-97 | the same error case; otherwise the tally of `DtypeCountKeys` |
| `DatasetRead.Ceil` | relevanceai/dataset_api/dataset_read.py:280-282 | `math.ceil`: the least integer not below x |
| `DatasetRead.FractionOfCount` | relevanceai/dataset_api/dataset_read.py:277-282 | a fraction in [0, 1] of the count, rounded up, lies in [0, count] |
| `DatasetRead.Read.Sample` | relevanceai/dataset_api/dataset_read.py:271-282 | ValueError exactly when `frac` is truthy and `n` is truthy, or `frac` is outside [0, 1]. An empty `select_fields` falls back to the dataset's fields. The page size is `n`, or ⌈count·frac⌉ within [0, count] |
| `DatasetRead.FracAloneRefused` | relevanceai/dataset_api/dataset_read.py:234-275 | since `n` defaults to 1, passing only a non-zero `frac` raises ValueError |
| `DatasetRead.Select` | relevanceai/dataset_api/dataset_read.py:514 | the columns satisfying the test, in schema order (a subsequence), and no others |
| `DatasetRead.Read.Filter` | relevanceai/dataset_api/dataset_read.py:491-531 | TypeError exactly when none of `items`, `like`, `regex` is given. A truthy `index` gives one row filter on it. Otherwise `items`, or the columns containing `like`, or those matching `regex`, become the fields. The filters are always one `or` filter |
| `DatasetRead.FilterIgnoresAxis` | relevanceai/dataset_api/dataset_read.py:496-503 | the `axis` argument has no effect on the result |

## Left out

- Threads, locks, joins and the busy-wait polling in `_run_worker_threads` (ops_run.py:360-389).
  - The stages run one after another.
  - `Run` starts the update stage only when `tq` holds a record, and the push stage only when `pq` does. The source would poll forever otherwise.
  - Interleavings of several workers are not modelled.
- The blocking and timeout behaviour of `mp.Queue`.
  - `put` never blocks: the queue capacity is computed but not enforced.
  - A `get` that would time out ends the drain where the source's `except: break` does.
  - The ten unguarded `get`s of `_get_push_batch` raise `Empty` (QueueEmpty) when fewer than ten records are queued.
- Pipeline.PullUpdatePush.Update: where the source would wait forever, this version stops instead. That is an empty `tq` outside all-at-once mode, or too few records in all-at-once mode (`UpdateStalled`).
- Pipeline.PullUpdatePush.Push: the store's responses are a finite list, and the loop stops when they run out. With the source's accounting the loop may never end (see Findings).
- The transform `func`:
  - it is an abstract length-preserving function of the batch;
  - `func_args`/`func_kwargs` are not modelled, including the dropping of `func_args` when no lock is set (line 252).
- `psutil` memory size and the float `ram_ratio`: their product is the input `ramBudget`.
- `getsizeof`: an abstract size function.
- Float divisions in sizing are exact rationals here. Float rounding is not modelled.
- The remote calls are inputs:
  - `get_number_of_documents`, `sample` and `get_where` pages;
  - `bulk_update` failure lists;
  - `schema`, `metadata` and `post_metadata`;
  - `_get_all_documents`, `_update_documents` and `get_all_documents`.
- `json_encoder`, tqdm rendering and descriptions, and `store_operation_metadata` with its timestamp are not modelled.
- The sklearn, hdbscan and dimensionality-reduction model fitting:
  - cluster labels and centres are inputs;
  - the KMeans keyword set is read off `KMeans.__init__`;
  - HDBSCAN's own keyword checking is not modelled.
- `ModuleNotFoundError` when an optional package is missing is not modelled.
- Document utilities are not part of this model:
  - `set_field_across_documents` is an abstract setter applied along `zip(docs, labels)`;
  - `get_field_across_documents` is not modelled.
- `create_filter` and `_build_filters` are not part of this model. Their output is the opaque `Built(...)` filter.
- Regular-expression matching in `filter` is an abstract predicate.
- Numeric cluster labels are integers only: float labels are not modelled.
- `bool` labels are not modelled. Python treats them as numbers (`cluster_True`).
- `Upper` maps ASCII letters only.
- Python dict key order is not modelled for documents. Schemas are ordered sequences, because the first key of a nested object matters.
- `_check_fields_in_schema` (ops_run.py:454), which `OperationRun.run` calls before building the filters and which can raise, is not part of this model: `RunFilters` starts after it.
- The caller's list is mutated in place by `filters +=` in `OperationRun.run` and in `fit`. That aliasing is not modelled: the model returns the new list.
- pandas and notebook display (`info`, `head`, `_repr_html_`, `_show_json`) and `relevanceai/utils/filters.py` are not modelled.
- DatasetRead.Read.Sample: `n` is taken as an integer and `frac` as an exact rational. The number of documents is an input.

## Findings

| source | as written | input that shows it | evidently intended | confidence | as-written member | corrected member |
|---|---|---|---|---|---|---|
| relevanceai/operations_new/ops_run.py:276 | A reported failure is counted twice: `_handle_failed_documents` adds it to `ndocs` (line 276), and `_push` also leaves it out of the pushed counter (line 331). After its retry succeeds, the pushed counter still ends short of `ndocs`, so `while push_bar.n < ndocs` never exits | 10 records queued in one batch, 2 reported failed, then retried successfully: pushed 10 against `ndocs` 12, queue empty | `ndocs` grows by the reported failures, as the source documents, and the pushed counter counts the whole batch sent, so a retried record is counted again when its retry is sent; when every round re-queues what it reported, the loop ends exactly when the queue is drained | high (not executed) | `PushAccounting.AsWrittenNeverCompletes` (with `PushAccounting.FailureExampleAsWritten`, and `Pipeline.PullUpdatePush.PushStep` tying the class to it) | `PushAccounting.CompletesWhenDrained` (with `PushAccounting.FailureExampleCorrected`) |
