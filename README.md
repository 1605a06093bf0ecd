# rag_demo core: ingestion, query matching, log configuration and folder helpers

This project models the parts of the `rag_demo` retrieval-augmented question
answering application that the application's own code implements around its
libraries:

- **Ingestion** (`DocumentEmbedder.create_faiss_db`). It deletes any database
  at the target path and collects the chunks of every PDF that processes
  without raising. With no chunks it raises `ValueError`. Otherwise it creates
  the directory `database/faiss_db`, embeds the chunks, and writes
  `index.faiss` and then `documents.npy` under the target path.
- **Query matching** (`QueryMatcher.match_query`). It checks for and loads
  the index, then the document store. It embeds the query, searches for `k`
  neighbours and keeps each returned pair whose position passes
  `idx < len(stored_docs)`, scoring it `1 - dist`. Every failure surfaces as
  `RuntimeError("Failed to match query: ...")`.
- **Log configuration** (`LogLoader.validate_log_level`,
  `LogLoader.configure_logger`). The level is valid when its upper-cased form
  is one of the seven loguru level names. An invalid level is refused before
  the logger is touched. A valid one installs a file handler and a stdout
  handler at the upper-cased level.
- **Folder helpers** (`count_pdf_files`, `path_exists`). The application
  holds two copies of `count_pdf_files` with the same body; both are
  modelled by one definition.

Module layout:

- `Wrappers`: `Option`, `Result`, `Outcome`.
- `Text`: ASCII case mapping, `endswith`, decimal rendering.
- `FileUtils`: the folder helpers.
- `AppConfig`: the log loader.
- `Storage`: the file system as ingestion and querying see it. A path is a
  sequence of components. States are values, and a `FileSystem` object
  changes in place.
- `Embeddings`: ingestion.
- `QueryMatching`: query matching.

Each imperative operation is a method whose `ensures` states its result and
its new state. The file-system, ingestion and query methods do this by tying
them to a specification function, and the properties are lemmas about those
functions. `LogLoader.ConfigureLogger` lists the new handlers directly.

The libraries are parameters:

- what `process_pdf` returned or raised for each file, in enumeration order;
- the embedding model, as a function from text to vector;
- the FAISS search, as a function from the stored vectors, the query vector
  and `k` to the two result rows or an exception;
- whether the folder exists and what `os.listdir` returns.

## Model

| member | source | states |
|---|---|---|
| FileUtils.CountPdfFiles | utils/file_utils.py:3-12 | 0 when the folder does not exist; otherwise the number of listing positions whose lower-cased name ends with ".pdf", never more than the listing has entries |
| FileUtils.PdfEntries | utils/file_utils.py:12 | the comprehension keeps an entry exactly when it is in the listing and passes the case-insensitive ".pdf" test, and is never longer than the listing |
| FileUtils.PdfCountMatchesPositions | page_renderers/utils/file_utils.py:6-8 | the length of the comprehension (the same in both copies of `count_pdf_files`) equals the number of listing positions that pass the filter |
| FileUtils.PdfNameIgnoresCase | utils/file_utils.py:12 | whether a name counts does not change when the name is upper- or lower-cased |
| FileUtils.CountIgnoresCase | utils/file_utils.py:12 | upper-casing every listed name leaves the count unchanged |
| FileUtils.CountGrowsByMatchingEntry | utils/file_utils.py:12 | one more entry adds one to the count exactly when its name passes the filter |
| FileUtils.NonzeroCountMeansFolderExists | utils/file_utils.py:9-20 | a nonzero count implies `path_exists` holds for the folder; a folder `path_exists` rejects counts 0 |
| FileUtils.SuffixExamples | utils/file_utils.py:12 | "A.PDF", "b.Pdf" and "x.pdf" count; "x.pdf.bak", "pdf" and "" do not |
| AppConfig.ValidateLogLevelSpellsAName | app_config.py:50-60 | a level is valid iff it spells one of TRACE, DEBUG, INFO, SUCCESS, WARNING, ERROR, CRITICAL, letter by letter, ignoring case |
| AppConfig.ValidateLogLevelIgnoresCase | app_config.py:60 | validation gives the same answer for the level, its upper-cased form and its lower-cased form |
| AppConfig.ValidateLogLevelExamples | app_config.py:50-60 | "debug", "Warning" and "CRITICAL" are valid; "WARN", "" and "verbose" are not |
| AppConfig.Retention | app_config.py:82 | the retention string ends in " days", and the part before it is a decimal numeral whose value is the retention period, written canonically: no leading zero and no "-0" |
| AppConfig.DefaultRetentionIsTenDays | app_config.py:31 | with the default period the retention string is "10 days" |
| AppConfig.LogLoader.Default | app_config.py:31-36 | a loader built with no arguments has folder "logs" and a 10-day retention period |
| AppConfig.LogLoader.constructor | app_config.py:31-36 | the loader keeps the folder and retention period it is given |
| AppConfig.LogLoader.ConfigureLogger | app_config.py:62-90 | an invalid level fails with "Invalid logging level: <level> is not supported." and leaves the handlers as they were; a valid level replaces all handlers with a file handler (log folder and file, "50 MB" rotation, the retention string) and a stdout handler, both at the upper-cased level, which is one of the seven names |
| Text.IntToDecimalRoundTrip | app_config.py:82 | the f-string rendering of an integer reads back as the same integer |
| Text.CaseMappingsAbsorb | app_config.py:60 | upper-casing first changes nothing a later upper- or lower-casing produces, and upper-casing is idempotent |
| Storage.Ancestry | utils/embeddings.py:84-85 | the directories `mkdir(parents=True)` needs are exactly the non-empty prefixes of the path |
| Storage.AfterRemoveTree | utils/embeddings.py:64-65 | `rmtree` fails exactly when the path is not a directory; otherwise everything at or below the path is gone, nothing else changes, and the removal is recorded |
| Storage.AfterMakeDirs | utils/embeddings.py:84-85 | `mkdir(parents=True, exist_ok=True)` fails exactly when a file stands at the path or a prefix of it; otherwise it adds the path and its prefixes as directories and leaves the files alone |
| Storage.AfterWrite | utils/embeddings.py:96-99 | a write fails exactly when the containing directory is missing or the path is a directory; otherwise that file holds the artifact, the other files and all directories are unchanged, and the write is recorded |
| Storage.RemoveTreeKeepsValid | utils/embeddings.py:64-65 | removing a subtree keeps the tree well formed |
| Storage.MakeDirsKeepsValid | utils/embeddings.py:84-85 | creating directories keeps the tree well formed |
| Storage.WriteKeepsValid | utils/embeddings.py:96-99 | writing a file keeps the tree well formed |
| Storage.FileSystem.RemoveTree | utils/embeddings.py:65 | on success the state becomes the removal's result; on failure the error is returned and the state is unchanged |
| Storage.FileSystem.MakeDirs | utils/embeddings.py:85 | the same for directory creation |
| Storage.FileSystem.Write | utils/embeddings.py:96-99 | the same for a file write |
| Embeddings.CollectAppend | utils/embeddings.py:68-77 | collecting over two runs of files is collecting over each in turn |
| Embeddings.CollectOne | utils/embeddings.py:72-77 | a single file contributes its own chunks, or none when it raised |
| Embeddings.FailedFileContributesNothing | utils/embeddings.py:72-77 | a file that raised contributes nothing, and the files after it are still collected |
| Embeddings.CollectPlacesFileChunks | utils/embeddings.py:68-75 | the chunks of file i sit together, after those of every earlier file and before those of every later one |
| Embeddings.CollectMembership | utils/embeddings.py:71-77 | a chunk is collected iff some file that processed without raising produced it |
| Embeddings.CollectEmptyIff | utils/embeddings.py:79-81 | nothing is collected iff every file raised or produced no chunks, including when there are no files |
| Embeddings.IngestOrder | utils/embeddings.py:63-99 | a run makes a prefix of: remove the existing database, make the directory, write the index, write the documents; it passes iff it made all of them |
| Embeddings.IngestProgress | utils/embeddings.py:63-99 | the number of those changes a run made |
| Embeddings.StoreOrder | utils/embeddings.py:88-99 | the index is written before the documents; storing passes iff both writes were made |
| Embeddings.NothingBelowMissing | utils/embeddings.py:64 | in a well-formed tree nothing exists below a path that does not exist |
| Embeddings.ClearedLeavesNothingBelow | utils/embeddings.py:63-66 | after the clearing step nothing exists at or below the database path |
| Embeddings.EmptyRunLeavesNoDatabase | utils/embeddings.py:63-81 | the "No valid chunks" error is raised iff nothing was collected and the clearing succeeded; it then leaves nothing at or below the database path, and the files are the old ones minus that subtree |
| Embeddings.FailedRunLeavesNoDocuments | utils/embeddings.py:63-99 | in a well-formed tree, a run that fails at any step (clearing, no chunks, directory creation, ragged embeddings, either write) leaves no document store at the database path |
| Embeddings.SuccessfulRunStoresAlignedArtifacts | utils/embeddings.py:88-99 | after a successful run the documents file holds exactly the collected chunks, and the index holds one vector per chunk, vector i being the embedding of chunk i; the dimension is the length of the first embedding and every vector has it |
| Embeddings.SuccessfulRunLeavesNoStaleFiles | utils/embeddings.py:63-99 | after a successful run the only files at or below the database path are the two new artifacts |
| Embeddings.OnlyFaissDbDirIsCreated | utils/embeddings.py:84-85 | every directory after a run was already there or is `database/faiss_db` or its parent, whatever the database path, and after a passing run `database/faiss_db` exists |
| Embeddings.AsWrittenSucceedsOnlyAtFaissDbDir | utils/embeddings.py:84-96 | as written, a run can pass only when the database path is `database/faiss_db` or `database` |
| Embeddings.AsWrittenFailsForOtherDbPath | utils/embeddings.py:84-96 | on an empty tree, with database path "my_db" and one PDF with one chunk, the index write fails with no such file or directory `my_db/index.faiss` |
| Embeddings.AsWrittenLosesOldDatabase | utils/embeddings.py:63-96 | as written, rebuilding an existing database at a path other than `database/faiss_db` or `database` always fails and leaves nothing at or below that path: the old database is deleted and nothing replaces it |
| Embeddings.IntendedIngestSucceeds | utils/embeddings.py:63-99 | creating the database directory itself, a run passes whenever chunks were collected, the embeddings have one length, and no file stands at or above the database path |
| Embeddings.DocumentEmbedder.Default | utils/embeddings.py:18-23 | an embedder built with no arguments has chunk size 1000, overlap 200 and model name "all-MiniLM-L6-v2" |
| Embeddings.DocumentEmbedder.constructor | utils/embeddings.py:18-45 | the embedder keeps its chunk size, overlap, model name and model |
| Embeddings.DocumentEmbedder.CreateFaissDb | utils/embeddings.py:57-100 | the returned outcome and the new file system state are those of the ingestion function on the old state |
| QueryMatching.KeptPairs | utils/query_matching.py:68-69 | a pair is kept iff it is returned and its position is below the number of stored chunks |
| QueryMatching.AssembleFailureSticks | utils/query_matching.py:68-71 | once a prefix of the loop has raised, the whole loop raises the same way |
| QueryMatching.AssembleFailsIffBelowRange | utils/query_matching.py:68-71 | the loop raises iff some returned position is below -len(stored_docs) |
| QueryMatching.AssembleScoresKeptPairs | utils/query_matching.py:67-71 | when the loop does not raise, it returns one result per kept pair, in search order, each the chunk numpy finds at that pair's position scored `1 - dist` |
| QueryMatching.AssembleAllInRange | utils/query_matching.py:67-71 | when every position points into the stored chunks, result j is the chunk at position j's index scored `1 - dist`, one result per pair |
| QueryMatching.AssembleLength | utils/query_matching.py:67-71 | the loop never returns more results than the search returned pairs |
| QueryMatching.PaddingPositionRepeatsLastChunk | utils/query_matching.py:69-71 | with three chunks, the padding position -1 passes the guard and is scored as the last chunk |
| QueryMatching.IntendedAssemblyUsesStoredChunks | utils/query_matching.py:67-71 | with the guard `0 <= idx < len`, every result is the text of a stored chunk, and there are no more results than pairs |
| QueryMatching.IntendedAssemblyCountsPositions | utils/query_matching.py:67-71 | with that guard, when no stored position is returned twice (out-of-range positions such as repeated -1 padding may repeat), there is one result per distinct stored position, so never more results than stored chunks |
| QueryMatching.RepeatedPaddingIsDropped | utils/query_matching.py:64-71 | with three chunks and search rows `[0, -1, -1]` (the default `k` of 5 over a small index pads twice), the corrected loop returns only chunk 0 |
| QueryMatching.IntendedAgreesOnNonNegativePositions | utils/query_matching.py:67-71 | when the search returns no negative position, the loop as written and the corrected loop give the same results |
| QueryMatching.MissingIndexFailsFirst | utils/query_matching.py:44-48 | a missing index fails the call with "Failed to match query: FAISS index not found at <path>", whatever the document store, query or search |
| QueryMatching.MissingDocumentsFailBeforeEmbedding | utils/query_matching.py:53-60 | with a readable index, a missing document store fails with "Failed to match query: Document store not found at <path>", whatever the query or search |
| QueryMatching.EveryFailureIsWrapped | utils/query_matching.py:75-77 | every failure is a RuntimeError whose message starts "Failed to match query: " |
| QueryMatching.ResultsComeFromSearchPairs | utils/query_matching.py:64-73 | a successful call loaded both artifacts and searched; it returned one result per kept pair, in search order, each scoring its own pair; there are at most as many results as pairs, so at most `k` when the search returns `k` |
| QueryMatching.QueryOnLoadedCorpus | utils/query_matching.py:44-73 | when both artifacts load and the search returns only positions of stored vectors, the call succeeds and result j is the chunk at the j-th position scored `1 - dist` |
| QueryMatching.IntendedBuildLoads | utils/embeddings.py:88-99 | what the corrected ingestion stores loads back as the embeddings and the collected chunks |
| QueryMatching.QueryAfterIntendedIngest | utils/query_matching.py:44-73 | after the corrected ingestion, a query whose search returns positions of stored vectors succeeds, and result j is the collected chunk at the j-th position scored `1 - dist` |
| QueryMatching.QueryMatcher.Default | utils/query_matching.py:15-31 | a matcher built with no arguments has model name "all-MiniLM-L6-v2" and `k` 5 |
| QueryMatching.QueryMatcher.constructor | utils/query_matching.py:15-31 | the matcher keeps its model name, model and `k` |
| QueryMatching.QueryMatcher.MatchQuery | utils/query_matching.py:33-77 | the result is the query function applied to the file system state |
| QueryMatching.QueryMatcher.AssembleResults | utils/query_matching.py:67-71 | the loop's result is the assembly function of the zipped rows and the stored chunks |

The members above state properties. The source functions themselves are
modelled by these definitions. `EmbedAll`, `DocAt` and `Zip` have
`ensures` clauses that only restate their bodies; the others have no contract
of their own:

- `FileUtils.IsPdfName`: the filter `f.lower().endswith('.pdf')` (utils/file_utils.py:12).
- `FileUtils.PathExists`: `path_exists` (utils/file_utils.py:14-20).
- `AppConfig.ValidateLogLevel`: `validate_log_level` (app_config.py:44-60).
- `Embeddings.Collect`: `all_chunks` after the loop over the PDFs (utils/embeddings.py:68-77).
- `Embeddings.EmbedAll`: `embed_documents` over the chunk texts (utils/embeddings.py:88-89).
- `Embeddings.StoreArtifacts` and `Embeddings.EmbedAndStore`: building the index and writing both artifacts (utils/embeddings.py:88-99).
- `Embeddings.IngestWith`: `create_faiss_db`, parametrised by the directory it creates (utils/embeddings.py:57-100).
- `Embeddings.Ingest`: `create_faiss_db` as written, creating `database/faiss_db`.
- `Embeddings.IngestIntended`: the corrected version, creating `db_path`.
- `QueryMatching.LoadCorpus`: the existence checks and loads of the index and the documents (utils/query_matching.py:44-57).
- `QueryMatching.DocAt`: numpy indexing of the stored documents (utils/query_matching.py:71).
- `QueryMatching.Zip`: `zip(indices[0], distances[0])` (utils/query_matching.py:68).
- `QueryMatching.Assemble`: the result loop as written (utils/query_matching.py:67-71).
- `QueryMatching.AssembleIntended`: the result loop with the guard `0 <= idx < len(stored_docs)`.
- `QueryMatching.MatchBody`: the body of `match_query` inside its `try` (utils/query_matching.py:44-73).
- `QueryMatching.Match`: `match_query` with every failure wrapped (utils/query_matching.py:33-77).

## Left out

- Text splitting and PDF loading (`process_pdf`, `RecursiveCharacterTextSplitter`, `PyPDFLoader`) are library calls. Each file's returned chunks or raised exception is an input. Chunk size and overlap are kept but have no effect in the model.
- The HuggingFace models are functions from text to vector. Loading them, the `device` setting and the log lines they emit are not modelled.
- FAISS `IndexFlatL2` search is an input function. Its nearest-neighbour ordering, its -1 padding and its distance values are not modelled; the lemmas hold for any search result.
- Float32 arithmetic is left out. Distances, vectors and scores are reals, and no claim is made about rounding.
- `faiss.read_index` and `np.load` failing on a corrupt file is modelled as "the file does not hold the right artifact". The library's message text is not modelled and is written as "could not read <path>".
- The Streamlit pages, `PageManager`, `app.py`, `config.py` and `ConfigLoader.load_config` are UI glue and TOML I/O, and are not part of this model.
- AppConfig.LogLoader.constructor: `_validate_log_folder` creates the log folder on disk, and that directory creation is not modelled.
- AppConfig.LogLoader.Default: the same `__init__` with its default arguments, so the log folder creation is not modelled here either.
- AppConfig.LogLoader.ConfigureLogger: the handler list records sink, format, level, rotation and retention. `backtrace`/`diagnose` and loguru's own sink behaviour are not modelled.
- Text.Upper: case mapping covers ASCII letters only. In Python a few non-ASCII characters upper-case to ASCII: ß to SS, ı to I, ſ to S, and the ligatures ﬀ, ﬁ, ﬂ, ﬃ, ﬄ, ﬅ and ﬆ. So Python accepts some level spellings that the model rejects, such as "succeß" and "ınfo". PDF names are not affected, because no non-ASCII character lower-cases to a string containing ".", "p", "d" or "f". The ".pdf" test therefore accepts the same names in both.
- Paths are component sequences relative to the working directory. Absolute paths, "." and "..", empty strings and path-string parsing are not modelled.
- FileUtils.CountPdfFiles: `os.listdir` on a path that is a file raises in Python. The model takes the listing as given and does not model that error.
- The enumeration order of `Path.glob("*.pdf")` and its case sensitivity depend on the platform, so the list of per-file outcomes is taken in whatever order it is given.
- QueryMatching.ResultsComeFromSearchPairs: the "at most `k` results" bound holds when the search returns `k` pairs. What FAISS returns for a given `k` is an input, not a modelled fact.
- Log lines written by `logger.info`/`logger.error` throughout are not modelled.

## Findings

| source | as written | input that shows it | evidently intended | confidence | as-written member | corrected member |
|---|---|---|---|---|---|---|
| utils/embeddings.py:84-96 | the directory created before writing is the fixed `database/faiss_db`, while the artifacts are written under `db_path` after any database there was deleted; rebuilding a database elsewhere fails and loses the old one (Embeddings.AsWrittenLosesOldDatabase) | `db_path` "my_db" on an empty tree with one PDF that yields a chunk: `write_index` finds no directory `my_db` | create `db_path` itself before writing into it | not executed | Embeddings.AsWrittenFailsForOtherDbPath | Embeddings.IntendedIngestSucceeds |
| utils/query_matching.py:69 | the guard `idx < len(stored_docs)` has no lower bound, so the -1 that FAISS returns for a missing neighbour passes and numpy reads the last chunk | three stored chunks and search rows `[0, -1]`: two results, the second being the last chunk | `0 <= idx < len(stored_docs)` | not executed | QueryMatching.PaddingPositionRepeatsLastChunk | QueryMatching.IntendedAssemblyCountsPositions |
