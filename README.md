# VectorCode query and vectorise core, modelled in Dafny

VectorCode indexes the files of a project into a ChromaDB collection and answers
queries by returning whole files ranked by relevance. This project models the three
pieces of that pipeline where the decisions are made, with every foreign call
(ChromaDB, the file system, the chunker, glob and path expansion, gitignore matching,
JSON serialisation) supplied as a parameter:

- **Mean-distance reranking** (`ArithmeticMeanReranker`, module `Reranker`, specified by
  module `Aggregation` and module `Sorting`). The store answers a batched query with one list of
  candidates per query chunk. The reranker builds an insertion-ordered table from path to
  the distances seen for it, sorts the distinct paths stably by the arithmetic mean of
  their distances (smaller is better) and returns the first `n_result`. `Rerank` is the
  nested loop of the source proved equal to the function `MeanRank`; the lemmas about
  `Ranking` prove distinctness, the length `min(n_result, distinct paths)`, provenance,
  sortedness, the top-k property and stability. The exceptions the source can raise
  (the two assertions on missing fields, an out-of-range chunk, a metadata entry
  without "path", a length mismatch) are the `RerankError` values, met in the order the
  code meets them.
- **The `query` command** (module `Query`). The environment `QueryEnv` supplies the
  collection lookup outcome, the collection size, the chunker, the store's answer to a
  request, the model-backed reranker, file existence, file reads, path formatting and
  `json.dumps`. `Query` returns the exit (a return code or an escaping exception), the
  request it sent to the store, the lines written to stdout and stderr, and the
  configuration with `query_exclude` reassigned. Its helpers are the chunk loop
  (`BuildQueryChunks`), the materialising loop (`Materialize`) and the human printer
  (`EmitHuman`), each proved against a specification function.
- **The `vectorise` command** (module `Vectorise`). The collection is a `Collection`
  object whose table from id to entry (document and metadata path) is updated in place
  by `Update`, `Add` and `DeleteWherePath`, with ChromaDB's semantics for an unknown id
  on update and an existing id on add (both leave the table as it is). `UpsertFiles` is
  the file loop, proved equal to the fold `IndexAll`; `PruneOrphans` is the orphan loop,
  proved to leave `Survivors` and to count `Orphans`; `Vectorise` chains them and
  prints the report.

Facts of the code that the model keeps as they are:

- An empty collection makes `query` print "Empty collection!" and return 1
  (`src/vectorcode/subcommands/query/__init__.py:59-61`), before any store query.
- The candidate pool is exactly `n_result * query_multiplier` when the multiplier is
  positive, with no maximum taken with `n_result`. `PoolSizeCoversResult` proves that
  for integer multipliers and a non-negative `n_result` such a maximum would not change
  anything.
- The default reranker sorts the whole key list by ascending mean distance and then
  slices it; there is no bounded top-k selection.
- `query` imports `NaiveReranker` and `CrossEncoderReranker`, names that
  `src/vectorcode/subcommands/query/reranker.py` does not define. The default branch is
  modelled as `ArithmeticMeanReranker`, the other branch as the opaque
  `QueryEnv.modelRerank`, which receives the query chunks.

A metadata path is rendered with `str()` before the orphan check, so an entry without
a "path" reads as the text "None": when no file is called "None" the entry is counted
in `removed` but the delete by path "None" does not remove it
(`PathlessCountedNotDeleted`). The file loop writes every entry with its own id as path
and keeps a table of such entries in that form (`IndexKeepsWellKeyed`), so only entries
written by other tools can meet this case; with every entry carrying a path the count
equals the number of entries deleted (`OrphansAreDeleted`). Entries from other tools can
also make an upsert count without storing: an id already taken by an entry recorded
under another path is counted as added while its content stays as it was
(`StaleIdCountedNotStored`).

## Model

| member | source | states |
|---|---|---|
| Reranker.ArithmeticMeanReranker.constructor | src/vectorcode/subcommands/query/reranker.py:11-22 | the reranker keeps `n_result` from the configuration |
| Reranker.ArithmeticMeanReranker.Rerank | src/vectorcode/subcommands/query/reranker.py:24-41 | the nested accumulation loop, sort and slice return exactly `MeanRank(results, n_result)`, errors included: the paths read with `str(meta["path"])` (`ChunkPaths`), zipped with the distances (`Zip`), scored by mean (`Scores`) and cut as Python's `[:n]` cuts, a negative `n` counting from the end (`SliceEnd`) |
| Reranker.ArithmeticMeanReranker.AddChunk | src/vectorcode/subcommands/query/reranker.py:34-35 | appending one chunk's pairs keeps the key list equal to the first-appearance order of the pool and each key's list equal to that path's distances |
| Reranker.ArithmeticMeanReranker.TopByMean | src/vectorcode/subcommands/query/reranker.py:37-41 | sorting the table's keys by mean and slicing gives `Ranking(pool, n_result)` |
| Aggregation.Order | src/vectorcode/subcommands/query/reranker.py:27-38 | the table's keys are distinct, include every candidate's path and are no more than the candidates |
| Aggregation.OrderOnlyCandidates | src/vectorcode/subcommands/query/reranker.py:28-38 | every key of the table is the path of some candidate |
| Aggregation.OrderIsFirstAppearance | src/vectorcode/subcommands/query/reranker.py:27-38 | keys are in order of first appearance in the pool |
| Aggregation.OrderAndDistancesSnoc | src/vectorcode/subcommands/query/reranker.py:35 | one more pair adds its path as a new last key unless present, and appends its distance to that path's list only |
| Aggregation.DistancesForAppend | src/vectorcode/subcommands/query/reranker.py:28-35 | a path's list over two runs of chunks is the list of the first run followed by that of the second (chunk order, then position order) |
| Aggregation.DistancesForAbsent | src/vectorcode/subcommands/query/reranker.py:28-35 | a chunk without the path contributes nothing to its list: no score is imputed |
| Aggregation.DistancesForNonEmpty | src/vectorcode/subcommands/query/reranker.py:35-39 | a path's list is non-empty exactly when it is a key, so every mean is over at least one distance |
| Aggregation.DistinctPathCount | src/vectorcode/subcommands/query/reranker.py:27-38 | the number of keys is the number of distinct candidate paths |
| Aggregation.SortedScores | src/vectorcode/subcommands/query/reranker.py:37-40 | the sorted keys are a sorted, stable, duplicate-free arrangement of exactly the table's keys with their means |
| Aggregation.RankingDistinct | src/vectorcode/subcommands/query/reranker.py:37-41 | the returned list has no duplicate paths |
| Aggregation.RankingLength | src/vectorcode/subcommands/query/reranker.py:37-41 | for `n_result >= 0` the result has `min(n_result, distinct paths)` entries |
| Aggregation.RankingFromCandidates | src/vectorcode/subcommands/query/reranker.py:28-41 | every returned path is the path of some candidate |
| Aggregation.RankingSorted | src/vectorcode/subcommands/query/reranker.py:37-40 | returned paths are in non-decreasing order of mean distance |
| Aggregation.RankingTopK | src/vectorcode/subcommands/query/reranker.py:37-41 | a key that was not returned has a mean no smaller than any returned path's |
| Aggregation.RankingStable | src/vectorcode/subcommands/query/reranker.py:27-40 | of two returned paths with equal means, the one first met in the pool comes first |
| Aggregation.GatheredProvenance | src/vectorcode/subcommands/query/reranker.py:28-35 | every pooled pair is the path and distance at some position of some chunk in range |
| Aggregation.GatheredEmpty | src/vectorcode/subcommands/query/reranker.py:28-35 | no chunks, or only empty ones, pool nothing |
| Aggregation.MeanRankEmpty | src/vectorcode/subcommands/query/reranker.py:25-41 | zero chunks or only empty chunk lists give an empty ranking, not an error |
| Aggregation.MeanRankErrors | src/vectorcode/subcommands/query/reranker.py:25-33 | missing metadatas, then missing distances, then the error of the first chunk in range that fails are reported, in that order |
| Aggregation.GatheredOkIff | src/vectorcode/subcommands/query/reranker.py:28-35 | the pool exists exactly when every chunk in range reads without an exception |
| Aggregation.GatheredFirstError | src/vectorcode/subcommands/query/reranker.py:28-33 | when chunks fail, the exception is that of the first failing chunk |
| Aggregation.GatheredCovers | src/vectorcode/subcommands/query/reranker.py:28-35 | every (path, distance) pair at an in-range position of a chunk in range is pooled |
| Aggregation.PoolPaths | src/vectorcode/subcommands/query/reranker.py:28-35 | the pooled paths are exactly the paths of all chunks' candidates |
| Aggregation.MeanRankOk | src/vectorcode/subcommands/query/reranker.py:25-41 | rerank returns a list exactly when both fields are present and every chunk in range reads without an exception |
| Aggregation.MeanRankLength | src/vectorcode/subcommands/query/reranker.py:28-41 | for `n_result >= 0` rerank returns `min(n_result, distinct paths over all chunks)` paths |
| Aggregation.MeanRankTopK | src/vectorcode/subcommands/query/reranker.py:28-41 | a path of any chunk that was not returned has a mean no smaller than that of any returned path |
| Sorting.InsertAt | src/vectorcode/subcommands/query/reranker.py:37-40 | an inserted key goes after the leading run of keys with a strictly smaller mean and before the first key whose mean is not smaller |
| Sorting.SortByMeanSorted | src/vectorcode/subcommands/query/reranker.py:37-40 | the sort orders by non-decreasing mean |
| Sorting.SortByMeanPermutes | src/vectorcode/subcommands/query/reranker.py:37-40 | the sort is a permutation of its input |
| Sorting.SortByMeanStable | src/vectorcode/subcommands/query/reranker.py:37-40 | equal means keep their input order, as Python's stable sort does |
| Sorting.SortByMeanKeepsDistinct | src/vectorcode/subcommands/query/reranker.py:37-40 | sorting distinct paths leaves them distinct |
| Query.BuildQueryChunks | src/vectorcode/subcommands/query/__init__.py:48-52 | the extend loop yields the in-order concatenation of every query's chunks, none without a query |
| Query.ChunkAllAppend | src/vectorcode/subcommands/query/__init__.py:51-52 | chunking two query lists in turn is chunking their concatenation |
| Query.ChunkAllCons | src/vectorcode/subcommands/query/__init__.py:51-52 | the first query's chunks come first, then the rest in order |
| Query.Exclusions | src/vectorcode/subcommands/query/__init__.py:54-58 | the exclusion list is no longer than the expanded globs |
| Query.ExclusionsMembers | src/vectorcode/subcommands/query/__init__.py:54-58 | a path is excluded exactly when it is the expansion of an expanded glob that is a file |
| Query.PoolSizeCoversResult | src/vectorcode/subcommands/query/__init__.py:63-65 | `PoolSize` is the collection size for a multiplier `<= 0` and `n_result * query_multiplier` otherwise; with a positive multiplier the pool is at least `n_result`, so a `max` with it would change nothing |
| Query.WhereFilterAdmits | src/vectorcode/subcommands/query/__init__.py:66-69 | the filter `WhereFilter` builds lets a path through exactly when it is not excluded, and an empty exclusion list filters nothing |
| Query.Materialize | src/vectorcode/subcommands/query/__init__.py:97-110 | the loop reads, in ranking order, exactly the ranked paths that are files (`Records`) and warns once for each that is not (`Warnings`) |
| Query.RecordsPathMode | src/vectorcode/subcommands/query/__init__.py:99-105 | each record holds the file's content under `abspath` with `use_absolute_path` and under `relpath` from the project root otherwise (`OutputPath`); the choice changes the paths only, never the contents or their order |
| Query.MaterializedAccounting | src/vectorcode/subcommands/query/__init__.py:97-110 | the records form an order-preserving subsequence holding exactly the existing paths, and records plus warnings account for every ranked path |
| Query.EmitHuman | src/vectorcode/subcommands/query/__init__.py:114-119 | the printing loop emits `HumanLines(records)` |
| Query.HumanLayoutUpTo | src/vectorcode/subcommands/query/__init__.py:114-119 | after n records the output has the Path, Content and separator lines at positions 3i, 3i+1 and 3i+2 |
| Query.HumanLayout | src/vectorcode/subcommands/query/__init__.py:114-119 | each record is a Path line and a Content line, consecutive records are separated by exactly one blank line and none follows the last |
| Query.Present | src/vectorcode/subcommands/query/__init__.py:97-119 | the existing files' records are printed as JSON in pipe mode and in the human layout otherwise, each missing file giving one warning |
| Query.RerankerSelection | src/vectorcode/subcommands/query/__init__.py:86-95 | without a named reranker the mean-distance reranker decides (`Reranked`), the query chunks play no part and the paths are distinct; a named reranker receives the query chunks |
| Query.Search | src/vectorcode/subcommands/query/__init__.py:70-120 | an IndexError from the store returns 0 with nothing more printed; otherwise the selected reranker's result is presented or its exception escapes |
| Query.LookupMessagesDistinguish | src/vectorcode/subcommands/query/__init__.py:27-43 | each lookup failure prints one message and a found collection none (`LookupMessage`); the missing-collection message ends with the project root; the dimension and index-error messages differ |
| Query.Query | src/vectorcode/subcommands/query/__init__.py:18-120 | every lookup failure returns 1 with its message before any query; an empty collection returns 1 without a store query; otherwise the request has the concatenated chunks, the pool size and the filter, and the run is the reranked, materialised output |
| Vectorise.Collection.Update | src/vectorcode/subcommands/vectorise.py:41-43 | the entry with that id gets the new content and path; an unknown id changes nothing |
| Vectorise.Collection.Add | src/vectorcode/subcommands/vectorise.py:46-48 | a new id gets the entry; an existing id changes nothing |
| Vectorise.Collection.DeleteWherePath | src/vectorcode/subcommands/vectorise.py:56 | the table loses exactly the entries with that metadata path (`Keep`), the others unchanged |
| Vectorise.Collection.Snapshot | src/vectorcode/subcommands/vectorise.py:51 | every id once, each with its entry's metadata path |
| Vectorise.Join | src/vectorcode/subcommands/vectorise.py:19 | the gitignore path starts with the project root and ends with the file name |
| Vectorise.ForcedIgnoresRules | src/vectorcode/subcommands/vectorise.py:28-34 | with `force` the file loop does what it does for a project without a `.gitignore`: the skip rule `Skipped` never fires |
| Vectorise.SkippedLeaveNoTrace | src/vectorcode/subcommands/vectorise.py:28-34 | files matched by the gitignore rules, when not forced, change neither the table nor the counters |
| Vectorise.Store | src/vectorcode/subcommands/vectorise.py:39-49 | storing a file raises exactly one counter, `update` exactly when its path is already stored, and leaves every other id alone; the content is written under the path when the id and the stored path agree, and otherwise ChromaDB ignores the call and the table is unchanged |
| Vectorise.StaleIdCountedNotStored | src/vectorcode/subcommands/vectorise.py:39-49 | when the id is taken by an entry recorded under another path, the file is counted as added but its content is not stored |
| Vectorise.IndexFileCounts | src/vectorcode/subcommands/vectorise.py:28-49 | one file adds one to `add + update` when neither skipped nor empty and nothing otherwise; no counter decreases |
| Vectorise.IndexCounts | src/vectorcode/subcommands/vectorise.py:27-49 | `add + update` grows by the number of non-skipped, non-empty files, duplicates included, and neither counter decreases |
| Vectorise.IndexFrame | src/vectorcode/subcommands/vectorise.py:39-49 | an id that no indexed file expands to keeps its entry or its absence |
| Vectorise.StoreWellKeyed | src/vectorcode/subcommands/vectorise.py:39-49 | in a table keyed by path, storing maps the absolute path to the new content and is an update exactly when the key existed |
| Vectorise.IndexKeepsWellKeyed | src/vectorcode/subcommands/vectorise.py:39-49 | a table in which every entry carries its own id as path stays so after the file loop |
| Vectorise.IndexLastWriteWins | src/vectorcode/subcommands/vectorise.py:27-49 | in a table keyed by path (every entry carrying its own id as path), a path holds the content of the last indexed file that expands to it |
| Vectorise.UpsertFiles | src/vectorcode/subcommands/vectorise.py:27-49 | the file loop leaves the table and counters given by the fold `IndexAll` |
| Vectorise.OrphansAreDeleted | src/vectorcode/subcommands/vectorise.py:51-57 | when every entry has a path, the counted entries are exactly the deleted ones |
| Vectorise.PathlessCountedNotDeleted | src/vectorcode/subcommands/vectorise.py:54-57 | an entry without a path is counted (it reads as "None") but not deleted |
| Vectorise.OrphanPathsMembers | src/vectorcode/subcommands/vectorise.py:53-57 | the deleted paths are exactly the rendered snapshot paths that are not files |
| Vectorise.DeletedLeavesSurvivors | src/vectorcode/subcommands/vectorise.py:51-57 | deleting the orphan paths of a full snapshot leaves `Survivors` |
| Vectorise.OrphanStep | src/vectorcode/subcommands/vectorise.py:53-57 | one snapshot entry adds its path to the deletions and one to `removed` exactly when that path is not a file |
| Vectorise.SnapshotOrphanCount | src/vectorcode/subcommands/vectorise.py:53-57 | counting along a snapshot counts each orphan entry once |
| Vectorise.DeleteOrphanPaths | src/vectorcode/subcommands/vectorise.py:53-57 | the loop deletes the orphan paths of the listing and counts them |
| Vectorise.PruneOrphans | src/vectorcode/subcommands/vectorise.py:51-57 | the orphan pass leaves `Survivors` (every entry without a path and every entry whose path is a file, unchanged) and `removed` is the number of orphan entries |
| Vectorise.ReportReadsBack | src/vectorcode/subcommands/vectorise.py:59-65 | the human report has the removal line exactly when something was removed, and each counter reads back from its line |
| Base.DecimalRoundTrip | src/vectorcode/subcommands/vectorise.py:62-65 | a counter's decimal rendering reads back as the counter |
| Vectorise.Vectorise | src/vectorcode/subcommands/vectorise.py:12-66 | a rejected embedding function returns 1 touching nothing; otherwise the table is `Survivors` of the upserted table: orphans with a path are deleted, entries without a path stay even when counted in `removed`; 0 is returned and the report states the three counters |

## Left out

- `FlagEmbeddingReranker` (`src/vectorcode/subcommands/query/reranker.py:44-67`): it loads an external model and its `rerank` has no body that returns a list; the model-backed branch of `query` is the parameter `QueryEnv.modelRerank`.
- `StringChunker` is not part of this model: the chunker is the parameter `chunk`.
- ChromaDB (`get_client`, `get_collection`, `make_or_get_collection`, `count`, `query`, `verify_ef`, embeddings): the lookup outcome, collection size and store answer are fields of `QueryEnv`; for `vectorise` the collection is the `Collection` table and `verify_ef` is `efMatches`.
- The store's own filtering and ranking: the store's answer is a parameter; `WhereFilterAdmits` states what the request asks of it.
- File system and path calls (`os.path.isfile`, `abspath`, `relpath`, `expand_globs`, `expand_path`, `open`/`read`) and `pathspec` gitignore matching are parameters.
- `json.dumps` is the parameter `dumps`; its text is not modelled.
- Query.Query: `collection.count()` is called twice in the source; the model reads one value for both calls.
- Query.Query: `reranker_params` forwarded to the model-backed reranker are not modelled.
- Reranker.ArithmeticMeanReranker.Rerank: distances are exact reals and the mean is sum over count; `numpy.mean`'s floating-point rounding is not modelled.
- Reranker.ArithmeticMeanReranker.Rerank: a metadata value that is not a string is taken as its `str()` rendering; non-string paths are not distinguished.
- Vectorise.Vectorise: a snapshot entry with no metadata at all (where `.get` would raise) is not modelled; every entry has a metadata record whose "path" may be missing.
- Vectorise.Collection.Snapshot: the order in which the store lists ids is chosen arbitrarily; no property depends on it.
- Query.Search: exceptions other than `IndexError` raised by `collection.query` (a dimension mismatch at query time, for example), and any exception from `collection.count()`, from `open(path)` or from the model-backed reranker, propagate out of `query` in the source; the model's store answer, file reads and model-backed reranker cannot fail, so those escaping exceptions are not modelled.
- Vectorise.UpsertFiles: reading a file can raise (an unreadable or non-UTF-8 file); in the source the exception escapes `vectorise` after the earlier files are stored, with no orphan pass and no report. The model's `read` cannot fail, so that partial run is not modelled.
- Reranker.ArithmeticMeanReranker.Rerank: a chunk's metadata entry that is `None` makes `meta["path"]` raise `TypeError`; the model's metadata entries always exist (a missing "path" key is the `PathMissing` error), so that exception is not modelled.
- `tqdm` progress bars, the "Starting querying..." banner's interleaving with stderr, and the concurrency of the async client are not modelled; output is two line sequences.
- `src/vectorcode/lsp_main.py`, `src/vectorcode/main.py`, `src/vectorcode/subcommands/ls.py`, `src/vectorcode/query.py` and `src/vectorcode/subcommands/query.py` are not part of this model.
