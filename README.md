# Song similarity engine: index bookkeeping, search wrapper and query pipeline

This project is a Dafny model of the bookkeeping around a FAISS
nearest-neighbour index of per-track audio embeddings. The numerical index
stays opaque.

- **`VectorDatabase`** (`vector_database_setup.dfy`, module
  `VectorDatabaseSetup`). The class keeps the fields the Python object
  updates: `embeddingMap`, `trackIds`, `vectors` and `index`.
  - `LoadVectors` walks the enabled category folders in the order genre,
    instrument, emotion. It keeps embeddings whose first axis equals the
    configured dimension and parses the track id from the file name, through
    Python's `int` as modelled in `python_int.dfy`. It records each embedding
    under (track, category) and lists each track once. Then it concatenates
    each track's enabled embeddings.
  - Each loop follows a recursive specification function: `ScanFiles`,
    `ScanFolders` or `CombineAll`. The lemmas about those functions state
    the listed properties:
    - well-formedness;
    - first-seen order of track ids;
    - last file wins;
    - a raise stops the scan;
    - alignment of `vectors` with `trackIds`.
  - `dimensionality_calculation`, the metadata rows, index creation (type
    dispatch, dimension, training, normalisation), saving and loading are
    modelled as well.
- **`SimilaritySearch`** (`similarity_search.dfy`). It reloads the index on
  every query and raises when none is held. It reshapes a 1-D query into one
  row and returns `(indices, distances)`.
- **Query side** (`inference_similar_songs.dfy`):
  - the `%s` placeholder list;
  - the four-table inner join as a function, with its meaning proved as a
    membership equivalence;
  - `fetch_track_details` and its empty branches;
  - per-model concatenation;
  - the top-6 search;
  - the Cosine-only normalisation and the flattening of result indices into
    vector ids.
- **Audio segmentation** (`audio_utils.dfy`). A clip is cut into exactly
  three slices at 10 s and 20 s. `process_file` and `process_file_custom`
  append embeddings segment-major, then in model order.

Common material is in `common.dfy`: vectors, `Option`/`Result`, and
`np.concatenate(..., axis=None)` as `Flatten`.

Some parts are parameters or opaque values:
- FAISS search, `faiss.normalize_L2` and model inference are function-typed
  parameters.
- A FAISS index is a value that records its kind, dimension, training flag
  and added vectors.
- The file system is a value: a flag for the genre-folder existence check,
  and folder listings of `(name, content)` pairs.
- The relational store is a value of the four tables the query reads.

Behaviours of the code a reader may not expect; the model follows the code:
- **Tracks missing an enabled category.** They are not excluded: the code
  concatenates whatever the track has, so such a track gets a shorter vector
  (`MissingCategoryShortensVector`).
- **A missing genre folder.** The code is meant to log this and return
  (`vector_database_setup.py`, lines 47-48), but the log message names an
  undefined variable `path`, so `load_vectors` raises `NameError`
  (`Err(UndefinedName)`).
- **A file that fails to load or parse.** The code does not skip just that
  file: it leaves the whole loop at the first raise, logs the exception and
  skips the concatenation pass, so the listed tracks may outnumber the
  vectors (`PartialLoadExample`).
- **An empty id list.** `fetch_track_details` builds `IN ()`, which MySQL
  rejects (`Err(EmptyInList)`).
- **No vectors to index.** `np.array([])` is 1-D, and the build raises
  (`Err(NotAMatrix)`).
- **A Cosine index at query time.** The code means to normalise the query
  (`inference_similar_songs.py`, lines 203-204), but the query `main` builds
  is 1-D and `faiss.normalize_L2` reads `x.shape[1]`, so a Cosine run raises
  before the search (`CosineQueryNeverNormalises`, `Err(NormalizationFailed)`).

## Model

| member | source | states |
|---|---|---|
| PythonInt.ParseDigits | similarity_engine/vector_database_setup.py:63 | a non-empty all-digit string is accepted by `int` and denotes its decimal value |
| PythonInt.LeadingZerosIgnored | similarity_engine/vector_database_setup.py:63 | leading zeros do not change the value of a digit string |
| PythonInt.ZeroPaddedNameRoundTrip | similarity_engine/vector_database_setup.py:63 | `int(name[:-4])` of any zero padding, then the decimal spelling of n, then a 4-character extension, is n |
| PythonInt.PaddedTrackExample | similarity_engine/vector_database_setup.py:63 | "000574.npy" is track 574 |
| PythonInt.ShortNameExample | similarity_engine/vector_database_setup.py:63 | "574.npy" is also track 574 |
| PythonInt.NonNumericNameRejected | similarity_engine/vector_database_setup.py:63 | ".DS_Store" has no track id (`int` raises) |
| PythonInt.ParseInt | similarity_engine/vector_database_setup.py:63 | models Python's `int(text)` on a string: surrounding whitespace, one sign, digit groups joined by single underscores; None where it raises ValueError, for instance on the empty string |
| PythonInt.TrackIdOf | similarity_engine/vector_database_setup.py:63 | models `int(file_[:-4])`; a name of four characters or fewer has an empty stem and raises |
| PythonInt.StripExtension | similarity_engine/vector_database_setup.py:63 | `[:-4]` drops exactly the last four characters, or gives "" for shorter names |
| AudioUtils.Segments | utils/audio_utils.py:29 | the clip is split at 10 s and 20 s: the first slice is the first 10000 ms (the whole clip if shorter), the second at most the next 10000 ms, the third the rest (empty up to 20 s), and the three concatenate back to the clip |
| AudioUtils.ShortClipSegments | utils/audio_utils.py:67 | a clip shorter than 10 s gives itself and two empty slices |
| AudioUtils.ProcessFile | utils/audio_utils.py:12-49 | the result is the three segment embeddings concatenated in segment order |
| AudioUtils.CustomPiecesOrder | utils/audio_utils.py:73-120 | 3 x models pieces; piece `i*|models|+j` is model `j` on segment `i` (segment-major) |
| AudioUtils.ProcessFileCustom | utils/audio_utils.py:52-131 | raises exactly when there are no models; otherwise returns the flattening of the segment-major pieces |
| AudioUtils.CustomOutputLength | utils/audio_utils.py:126-128 | the output length is the sum of the piece lengths |
| VectorDatabaseSetup.EnabledCategories | similarity_engine/vector_database_setup.py:51-53 | a category is visited exactly when its combinator flag is set |
| VectorDatabaseSetup.DimensionalityCalculation | similarity_engine/vector_database_setup.py:163-181 | defined exactly for {genre}, {genre, instrument} and all three, where it is the number of enabled categories (1 to 3); None for the other five |
| VectorDatabaseSetup.MultiplierMeansPrefix | similarity_engine/vector_database_setup.py:163-181 | a multiplier exists exactly when the enabled categories are a non-empty prefix of genre, instrument, emotion |
| VectorDatabaseSetup.NonPrefixCombinationsHaveNoMultiplier | similarity_engine/vector_database_setup.py:163-181 | instrument-only, emotion-only and genre+emotion have no multiplier |
| VectorDatabaseSetup.LoadFile | similarity_engine/vector_database_setup.py:59-72 | models one pass of the file loop: `np.load` failing or a 0-d array raises, a first axis other than the dimension skips the file, a stem that is not a number raises, otherwise the embedding is recorded |
| VectorDatabaseSetup.ScanFiles | similarity_engine/vector_database_setup.py:58-72 | models the file loop over one folder's listing in order, stopping at the first file that raises |
| VectorDatabaseSetup.ScanFolders | similarity_engine/vector_database_setup.py:52-72 | models the category loop in genre, instrument, emotion order, skipping disabled categories and stopping at the first raise |
| VectorDatabaseSetup.RecordWellFormed | similarity_engine/vector_database_setup.py:65-71 | recording an accepted embedding of an enabled category keeps the load invariant (listed ids = map keys, no repeats, only accepted embeddings) |
| VectorDatabaseSetup.ScanFilesWellFormed | similarity_engine/vector_database_setup.py:58-72 | the file loop keeps the load invariant |
| VectorDatabaseSetup.ScanFoldersWellFormed | similarity_engine/vector_database_setup.py:53-68 | only embeddings of enabled categories whose first axis equals the dimension are ever recorded |
| VectorDatabaseSetup.ScanFilesStuck | similarity_engine/vector_database_setup.py:58-72 | once a file raises, the rest of the folder changes nothing |
| VectorDatabaseSetup.ScanFoldersStuck | similarity_engine/vector_database_setup.py:49-95 | once a category raises, later categories change nothing |
| VectorDatabaseSetup.PiecesNonEmpty | similarity_engine/vector_database_setup.py:77-83 | a listed track has at least one piece to concatenate |
| VectorDatabaseSetup.CombineAll | similarity_engine/vector_database_setup.py:76-88 | models the concatenation pass: for each listed track in order, the concatenation of its enabled embeddings, when it has any |
| VectorDatabaseSetup.CombineAllAligned | similarity_engine/vector_database_setup.py:76-88 | one combined vector per listed track, vector i belonging to track i |
| VectorDatabaseSetup.CombinedVectorLength | similarity_engine/vector_database_setup.py:77-87 | with every enabled embedding present, the combined vector has dimension x enabled-categories elements |
| VectorDatabaseSetup.MissingCategoryShortensVector | similarity_engine/vector_database_setup.py:77-87 | a track missing an enabled category still gets a vector, of only the embeddings it has |
| VectorDatabaseSetup.AppendNewProperties | similarity_engine/vector_database_setup.py:70-71 | appending unseen ids keeps the list duplicate-free, keeps its prefix and adds exactly the new ids |
| VectorDatabaseSetup.AppendNewConcat | similarity_engine/vector_database_setup.py:70-71 | appending unseen ids from two lists in turn is appending from their concatenation |
| VectorDatabaseSetup.ScanFilesIds | similarity_engine/vector_database_setup.py:58-71 | a folder lists its new tracks in the order of their first accepted file |
| VectorDatabaseSetup.ScanFoldersIds | similarity_engine/vector_database_setup.py:51-71 | `track_ids` is the earlier list then each new accepted track once, in first-seen order over genre, instrument, emotion |
| VectorDatabaseSetup.LoadFileKeepsOtherCategories | similarity_engine/vector_database_setup.py:65-68 | one file never changes another category's embedding |
| VectorDatabaseSetup.ScanFilesKeepsOtherCategories | similarity_engine/vector_database_setup.py:68 | a folder's loop changes no other category's embeddings |
| VectorDatabaseSetup.LoadFileEffect | similarity_engine/vector_database_setup.py:59-68 | an accepted file sets its track's entry for the category; any other file leaves it |
| VectorDatabaseSetup.LastFileWins | similarity_engine/vector_database_setup.py:63-68 | a track's embedding for a category comes from the last accepted file naming it |
| VectorDatabaseSetup.RecordIntoEmpty | similarity_engine/vector_database_setup.py:65-71 | the first embedding creates the track's entry and lists the track |
| VectorDatabaseSetup.RecordReplaces | similarity_engine/vector_database_setup.py:68-71 | a second embedding for the same (track, category) replaces the first and does not relist the track |
| VectorDatabaseSetup.TwoFilesSameTrack | similarity_engine/vector_database_setup.py:63-68 | two accepted files naming one track leave the later embedding, the track listed once |
| VectorDatabaseSetup.OverwriteExample | similarity_engine/vector_database_setup.py:63-68 | "000574.npy" then "574.npy": track 574 keeps the second file's embedding |
| VectorDatabaseSetup.PartialLoadExample | similarity_engine/vector_database_setup.py:49-95 | a stray ".DS_Store" after a good file stops the load with track 574 listed and no vector built |
| VectorDatabaseSetup.MetadataTable | similarity_engine/vector_database_setup.py:135-143 | raises without a multiplier or when the column lengths differ; otherwise row i is (i, track_ids[i], dimension x multiplier, index_type) |
| VectorDatabaseSetup.MetadataAlignedWithVectors | similarity_engine/vector_database_setup.py:135-142 | after a clean load the metadata has one row per vector and row i's track owns vector i |
| VectorDatabaseSetup.ShapeOf | similarity_engine/vector_database_setup.py:102 | `np.array` of the vectors is 1-D exactly when empty, a matrix exactly when non-empty with all rows of one length, ragged otherwise |
| VectorDatabaseSetup.KindFor | similarity_engine/vector_database_setup.py:104-120 | models the type dispatch: FlatL2, IVFFlat with 100 partitions, Cosine as inner product; no index for any other type |
| VectorDatabaseSetup.Train | similarity_engine/vector_database_setup.py:111 | models `index.train(x)`: a success needs a matrix of the index's width (and for IVF at least one point per partition) and only marks the index trained |
| VectorDatabaseSetup.AddVectors | similarity_engine/vector_database_setup.py:127-129 | a successful `add` appends the rows in order |
| VectorDatabaseSetup.VectorDatabase.constructor | similarity_engine/vector_database_setup.py:16-30 | no index, no vectors, no ids, an empty map; the configuration is kept |
| VectorDatabaseSetup.VectorDatabase.LoadVectors | similarity_engine/vector_database_setup.py:45-95 | missing genre folder raises and changes nothing; otherwise the state is the folder scan; a clean scan appends the combined vectors, a raised one appends none; the invariant holds; a clean load from empty is aligned |
| VectorDatabaseSetup.VectorDatabase.ReadFolders | similarity_engine/vector_database_setup.py:52-72 | the state after the outer loop is `ScanFolders` of the state before |
| VectorDatabaseSetup.VectorDatabase.ReadFolder | similarity_engine/vector_database_setup.py:57-72 | the state after one folder is `ScanFiles` of the state before |
| VectorDatabaseSetup.VectorDatabase.ReadFile | similarity_engine/vector_database_setup.py:59-72 | one file's effect is `LoadFile`; a raising file changes nothing |
| VectorDatabaseSetup.VectorDatabase.CombineVectors | similarity_engine/vector_database_setup.py:76-88 | appends `CombineAll` of the listed tracks |
| VectorDatabaseSetup.VectorDatabase.CreateIndex | similarity_engine/vector_database_setup.py:97-133 | raises without a multiplier; succeeds exactly under `CreateIndexSucceeds`; a known type yields a trained index of dimension x multiplier holding the (Cosine: normalised) vectors; an unknown type adds to the held index; on a raise, the index is unchanged when the raise precedes the assignment (no multiplier, ragged vectors, Cosine on 1-D vectors, unknown type) and is otherwise the fresh empty index of the type, untrained only for IVFFlat |
| VectorDatabaseSetup.VectorDatabase.InsertMetadata | similarity_engine/vector_database_setup.py:135-145 | succeeds exactly with a multiplier and one id per vector; row i is (i, track_ids[i], dimension x multiplier, index_type) |
| VectorDatabaseSetup.VectorDatabase.SaveIndex | similarity_engine/vector_database_setup.py:147-150 | writes the held index; raises when there is none |
| VectorDatabaseSetup.VectorDatabase.LoadIndex | similarity_engine/vector_database_setup.py:152-161 | a readable file replaces the index; a missing or unreadable one leaves it |
| VectorDatabaseSetup.SaveLoadRoundTrip | similarity_engine/vector_database_setup.py:147-161 | loading a saved index gives back the same index |
| SimilaritySearchEngine.AsQueryBatch | similarity_engine/similarity_search.py:46-47 | a 1-D query of length d becomes shape (1, d) with the same data; other shapes pass unchanged |
| SimilaritySearchEngine.ReshapeKeepsSize | similarity_engine/similarity_search.py:46-47 | the reshape keeps the element count |
| SimilaritySearchEngine.SwapToIndicesFirst | similarity_engine/similarity_search.py:50-51 | returns FAISS's labels first and distances second; a raising search stays an error |
| SimilaritySearchEngine.SimilaritySearch.constructor | similarity_engine/similarity_search.py:21-23 | the wrapped database has no index, vectors or ids |
| SimilaritySearchEngine.SimilaritySearch.FindSimilarEmbeddings | similarity_engine/similarity_search.py:25-51 | reloads the index first; raises exactly when none is held afterwards; otherwise the swapped search result of the reshaped query with `top_k` (default 5) |
| SimilaritySearchEngine.SearchWithoutIndexFails | similarity_engine/similarity_search.py:38-43 | a fresh engine without a readable index file always raises |
| InferenceSimilarSongs.MarkerCountStep | inference_similar_songs.py:44 | each ", %s" adds exactly one marker |
| InferenceSimilarSongs.Placeholders | inference_similar_songs.py:44 | models `", ".join(["%s"] * n)` |
| InferenceSimilarSongs.PlaceholdersShape | inference_similar_songs.py:44 | the placeholder list has exactly n markers and 4n-2 characters (0 for n = 0) |
| InferenceSimilarSongs.PlaceholdersMatchParams | inference_similar_songs.py:44-57 | one marker per parameter; the list is empty exactly when the ids are |
| InferenceSimilarSongs.InFlatMap | inference_similar_songs.py:47-54 | an element is produced exactly when some input produces it |
| InferenceSimilarSongs.JoinRows | inference_similar_songs.py:47-54 | models the SELECT with its three inner joins and the `IN` filter, in one fixed row order |
| InferenceSimilarSongs.JoinRowsMembership | inference_similar_songs.py:47-54 | a row is returned exactly when a track, a metadata row with a requested vector id, an artist and an album share its track id |
| InferenceSimilarSongs.JoinRowsAreRequested | inference_similar_songs.py:47-54 | a returned track has a requested vector id, its artist row and its album row |
| InferenceSimilarSongs.FetchTrackDetails | inference_similar_songs.py:26-71 | empty ids raise; an empty result returns None without disposing the engine; otherwise the joined rows, engine disposed |
| InferenceSimilarSongs.FetchedTracksRequested | inference_similar_songs.py:47-71 | every fetched track belongs to a requested vector id |
| InferenceSimilarSongs.ProcessAudioToEmbeddings | inference_similar_songs.py:74-95 | raises exactly without models; otherwise the per-model `process_file` outputs concatenated in model order |
| InferenceSimilarSongs.PartPosition | inference_similar_songs.py:91-93 | part i of a concatenation sits right after the parts before it |
| InferenceSimilarSongs.ModelEmbeddingOrder | inference_similar_songs.py:86-95 | model i's output occupies its own slice after the earlier models', and the length is the sum of the outputs |
| InferenceSimilarSongs.PerformSimilaritySearch | inference_similar_songs.py:117-129 | asks for 6 neighbours of the reshaped query on the index read from the file; raises when there is none |
| InferenceSimilarSongs.NormalizeL2 | inference_similar_songs.py:204 | models `faiss.normalize_L2`: its rank check (it reads `x.shape[1]`), with the renormalisation a parameter |
| InferenceSimilarSongs.QueryArray | inference_similar_songs.py:199 | models the result of `np.concatenate(..., axis=None)`: a 1-D array holding the embedding |
| InferenceSimilarSongs.PrepareQuery | inference_similar_songs.py:203-204 | only a Cosine index normalises the query; any other type gets it unchanged |
| InferenceSimilarSongs.CosineQueryNeverNormalises | inference_similar_songs.py:199-204 | on the 1-D query `main` builds, a Cosine index always raises at normalisation; every other type passes the query on unchanged |
| InferenceSimilarSongs.LiftQueryError | inference_similar_songs.py:219 | models an exception of `fetch_track_details` escaping `main`; a result passes through |
| InferenceSimilarSongs.VectorIds | inference_similar_songs.py:216 | models `indices.flatten().tolist()` |
| InferenceSimilarSongs.VectorIdsRowMajor | inference_similar_songs.py:216 | neighbour j of query i is vector id i*k+j |
| InferenceSimilarSongs.VectorIdsMembership | inference_similar_songs.py:216 | an id is a vector id exactly when some query row holds it |
| InferenceSimilarSongs.RunQuery | inference_similar_songs.py:198-219 | no models: fails at embedding; Cosine: fails at normalisation; no readable index file: fails at the search; otherwise the vector ids are the row-major flattening of the neighbours FAISS finds for the 1-D concatenated embedding, and the outcome is the track query on exactly those ids; every fetched track belongs to one of them |

## Left out

- FAISS numerics are left out: index construction internals, L2 and inner-product distances, `search`, `write_index` and `read_index`. The index is a value, and search is a parameter.
- `faiss.normalize_L2` and `np.linalg.norm` are left out because they are floating-point numerics. Normalisation is a parameter: `normalizeRow` when building the index (assumed to keep lengths); in `RunQuery`, `renorm` stands for the row renormalisation, and only the library's rank check (`x.shape[1]`) is modelled.
- AudioUtils.Segments: a clip is a whole number of one-millisecond frames, so the three slices concatenate back to it exactly; pydub's `len` rounds to whole milliseconds, so its `audio[20000:]` can drop or pad part of a millisecond at the end, which the model does not capture.
- float32 conversion and element values: a vector is a `seq<real>`, and only its length and order matter.
- Model inference and audio I/O are left out: `btest.test_model`, `drop_layers`, `FeatureExtractorDataset`, `DataLoader`, `test`, `load_cnn`, `torch`, WAV decoding and export, temporary files, and path construction. Inference is the `embed` parameter, which also flattens its output.
- Database I/O is left out: SQLAlchemy engines, connection strings, `pd.read_sql_query` and the `to_sql` write. The query is modelled as a function of the four tables, and the metadata write as the rows it would write.
- FetchTrackDetails: returns the join rows in one fixed order. SQL gives no row order, and the model does not capture the order of the returned rows.
- Printing and logging are left out, including the `tqdm` progress bar.
- `load_config` is left out because it is file I/O. The configuration is a `Config` value holding the combinator, the dimension and the index type.
- `create_db_engine` is left out because it makes a connection.
- The constructor flags `create_index` and `load_vectors` are left out. Only the `False`/`False` construction used by `SimilaritySearch` is modelled.
- `process_audio_to_embeddings_model` is left out because it forwards to `process_file_custom`, which `RunQuery` calls directly.
- `load_embeddings` is left out because `main` does not call it.
- The model-loading loop of `main` is left out; the models appear as their names in dict order.
- PythonInt.ParseInt: ASCII only. It does not model Unicode digits or Unicode white space, which Python's `int` also accepts.
- VectorDatabaseSetup.VectorDatabase.CreateIndex: the index's own checks are reduced to three: the vectors form a matrix, the width matches, and IVF has at least 100 training points.
- Aliasing is not modelled. The file read by `load_index` is a fresh value, so it cannot share state with the index object that was saved.
