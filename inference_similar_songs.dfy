/** inference_similar_songs.py: the query side. A clip is embedded;
    for a Cosine index `main` tries to normalise the 1-D query and raises
    there; otherwise the persisted index is searched for the six nearest vectors, and the tracks behind those
    vector ids are fetched from the relational store.

    The relational store is a value of the four tables the query joins; the
    query's result is the inner join written out, in one fixed row order. */
module InferenceSimilarSongs {
  import opened Common
  import opened AudioUtils
  import opened VectorDatabaseSetup
  import opened SimilaritySearchEngine

  // ---------------------------------------------------------------------
  // SQL placeholders (line 44)
  // ---------------------------------------------------------------------

  const Marker: string := "%s"
  const Separator: string := ", "

  /** Python's `sep.join(parts)`. */
  function Join(sep: string, parts: seq<string>): string
  {
    if |parts| == 0 then ""
    else if |parts| == 1 then parts[0]
    else Join(sep, parts[..|parts| - 1]) + sep + parts[|parts| - 1]
  }

  /** `", ".join(["%s"] * n)`. */
  function Placeholders(n: nat): string
  {
    Join(Separator, seq(n, _ => Marker))
  }

  /** The number of positions at which `%s` starts in `s`. */
  function MarkerCount(s: string): nat
  {
    if |s| < 2 then 0
    else MarkerCount(s[..|s| - 1]) + (if s[|s| - 2] == '%' && s[|s| - 1] == 's' then 1 else 0)
  }

  /** One more character completes a marker exactly when it is `s` and the
      character before it is `%`. */
  lemma MarkerCountSnoc(s: string, c: char)
    ensures MarkerCount(s + [c]) == MarkerCount(s) + (if |s| > 0 && s[|s| - 1] == '%' && c == 's' then 1 else 0)
  {
    var t := s + [c];
    assert t[..|t| - 1] == s;
  }

  /** Appending ", %s" adds exactly one marker, whatever precedes it. */
  lemma MarkerCountStep(x: string)
    ensures MarkerCount(x + Separator + Marker) == MarkerCount(x) + 1
  {
    var y1 := x + [','];
    var y2 := y1 + [' '];
    var y3 := y2 + ['%'];
    MarkerCountSnoc(x, ',');
    MarkerCountSnoc(y1, ' ');
    MarkerCountSnoc(y2, '%');
    MarkerCountSnoc(y3, 's');
    assert x + Separator + Marker == y3 + ['s'];
  }

  /** The placeholder list holds exactly `n` markers and, for `n > 0`, is
      `4n - 2` characters long: `n` markers and `n - 1` separators. */
  lemma {:induction false} PlaceholdersShape(n: nat)
    ensures MarkerCount(Placeholders(n)) == n
    ensures |Placeholders(n)| == if n == 0 then 0 else 4 * n - 2
  {
    if n == 1 {
      assert Placeholders(1) == Marker;
      assert Marker[..1] == "%";
    } else if n > 1 {
      var parts := seq(n, _ => Marker);
      assert parts[..n - 1] == seq(n - 1, _ => Marker);
      assert Placeholders(n) == Placeholders(n - 1) + Separator + Marker;
      PlaceholdersShape(n - 1);
      MarkerCountStep(Placeholders(n - 1));
    }
  }

  /** Lines 44 and 57: the statement has one marker per parameter, because
      both come from the same id list. */
  lemma PlaceholdersMatchParams(vectorIds: seq<int>)
    ensures MarkerCount(Placeholders(|vectorIds|)) == |vectorIds|
    ensures vectorIds == [] <==> Placeholders(|vectorIds|) == ""
  {
    PlaceholdersShape(|vectorIds|);
  }

  // ---------------------------------------------------------------------
  // The joined query (lines 47-57)
  // ---------------------------------------------------------------------

  /** A row of `tracks`; `released` is `YEAR(date_created)`. */
  datatype TrackRow = TrackRow(trackId: int, title: string, released: int, genreTop: string)
  datatype ArtistRow = ArtistRow(trackId: int, name: string)
  datatype AlbumRow = AlbumRow(trackId: int, title: string)

  /** The four tables the query reads. */
  datatype Database = Database(
    tracks: seq<TrackRow>,
    vectorMetadata: seq<MetadataRow>,
    artists: seq<ArtistRow>,
    albums: seq<AlbumRow>)

  /** One result row: track_id, title, artist, released, album, genre. */
  datatype TrackDetails = TrackDetails(trackId: int, title: string, artist: string, released: int, album: string, genre: string)

  function Detail(t: TrackRow, a: ArtistRow, al: AlbumRow): TrackDetails
  {
    TrackDetails(t.trackId, t.title, a.name, t.released, al.title, t.genreTop)
  }

  /** For each element in order, its pieces in order. */
  function FlatMap<A, B>(xs: seq<A>, f: A -> seq<B>): seq<B>
  {
    Flatten(seq(|xs|, i requires 0 <= i < |xs| => f(xs[i])))
  }

  lemma InFlatMap<A, B>(xs: seq<A>, f: A -> seq<B>, y: B)
    ensures y in FlatMap(xs, f) <==> exists x :: x in xs && y in f(x)
  {
    var parts := seq(|xs|, i requires 0 <= i < |xs| => f(xs[i]));
    InFlatten(parts, y);
    if exists x :: x in xs && y in f(x) {
      var x :| x in xs && y in f(x);
      var i :| 0 <= i < |xs| && xs[i] == x;
      assert y in parts[i];
    }
  }

  function AlbumMatches(t: TrackRow, a: ArtistRow, al: AlbumRow): seq<TrackDetails>
  {
    if al.trackId == t.trackId then [Detail(t, a, al)] else []
  }

  function ArtistMatches(db: Database, t: TrackRow, a: ArtistRow): seq<TrackDetails>
  {
    if a.trackId == t.trackId then FlatMap(db.albums, al => AlbumMatches(t, a, al)) else []
  }

  function MetadataMatches(db: Database, vectorIds: seq<int>, t: TrackRow, vm: MetadataRow): seq<TrackDetails>
  {
    if vm.trackId == t.trackId && vm.vectorId in vectorIds then FlatMap(db.artists, a => ArtistMatches(db, t, a)) else []
  }

  function TrackMatches(db: Database, vectorIds: seq<int>, t: TrackRow): seq<TrackDetails>
  {
    FlatMap(db.vectorMetadata, vm => MetadataMatches(db, vectorIds, t, vm))
  }

  /** The SELECT: tracks inner-joined with vector_metadata, artists and
      albums on track_id, keeping the metadata rows whose vector_id is one
      of the parameters. */
  function JoinRows(db: Database, vectorIds: seq<int>): seq<TrackDetails>
  {
    FlatMap(db.tracks, t => TrackMatches(db, vectorIds, t))
  }

  /** What an inner join means: a row is in the result exactly when some
      track, some metadata row with a requested vector id, some artist row
      and some album row all share its track id and it is built from them. */
  lemma JoinRowsMembership(db: Database, vectorIds: seq<int>, row: TrackDetails)
    ensures row in JoinRows(db, vectorIds) <==>
      exists t, vm, a, al ::
        && t in db.tracks && vm in db.vectorMetadata && a in db.artists && al in db.albums
        && vm.trackId == t.trackId && vm.vectorId in vectorIds
        && a.trackId == t.trackId && al.trackId == t.trackId
        && row == Detail(t, a, al)
  {
    InFlatMap(db.tracks, t => TrackMatches(db, vectorIds, t), row);
    if row in JoinRows(db, vectorIds) {
      var t :| t in db.tracks && row in TrackMatches(db, vectorIds, t);
      InFlatMap(db.vectorMetadata, vm => MetadataMatches(db, vectorIds, t, vm), row);
      var vm :| vm in db.vectorMetadata && row in MetadataMatches(db, vectorIds, t, vm);
      InFlatMap(db.artists, a => ArtistMatches(db, t, a), row);
      var a :| a in db.artists && row in ArtistMatches(db, t, a);
      InFlatMap(db.albums, al => AlbumMatches(t, a, al), row);
      var al :| al in db.albums && row in AlbumMatches(t, a, al);
      assert row == Detail(t, a, al);
    }
    if exists t, vm, a, al ::
        && t in db.tracks && vm in db.vectorMetadata && a in db.artists && al in db.albums
        && vm.trackId == t.trackId && vm.vectorId in vectorIds
        && a.trackId == t.trackId && al.trackId == t.trackId
        && row == Detail(t, a, al)
    {
      var t, vm, a, al :|
        && t in db.tracks && vm in db.vectorMetadata && a in db.artists && al in db.albums
        && vm.trackId == t.trackId && vm.vectorId in vectorIds
        && a.trackId == t.trackId && al.trackId == t.trackId
        && row == Detail(t, a, al);
      InFlatMap(db.albums, al => AlbumMatches(t, a, al), row);
      InFlatMap(db.artists, a => ArtistMatches(db, t, a), row);
      InFlatMap(db.vectorMetadata, vm => MetadataMatches(db, vectorIds, t, vm), row);
    }
  }

  /** A returned track was reached through a requested vector id and has
      an artist and an album. */
  lemma JoinRowsAreRequested(db: Database, vectorIds: seq<int>, row: TrackDetails)
    requires row in JoinRows(db, vectorIds)
    ensures exists vm :: vm in db.vectorMetadata && vm.trackId == row.trackId && vm.vectorId in vectorIds
    ensures exists a :: a in db.artists && a.trackId == row.trackId && a.name == row.artist
    ensures exists al :: al in db.albums && al.trackId == row.trackId && al.title == row.album
  {
    JoinRowsMembership(db, vectorIds, row);
  }

  // ---------------------------------------------------------------------
  // fetch_track_details (lines 26-71)
  // ---------------------------------------------------------------------

  /** Why the query fails: with no ids the statement reads `IN ()`, which
      MySQL rejects. */
  datatype SqlError = EmptyInList

  /** `rows` is None where the function prints "No tracks found" and
      returns None; `engineDisposed` says whether `engine.dispose()` ran. */
  datatype Fetched = Fetched(rows: Option<seq<TrackDetails>>, engineDisposed: bool)

  function FetchTrackDetails(vectorIds: seq<int>, db: Database): (r: Result<Fetched, SqlError>)
    ensures vectorIds == [] <==> r == Err(EmptyInList)
    ensures r.Ok? ==> (r.value.rows.None? <==> JoinRows(db, vectorIds) == [])
    ensures r.Ok? ==> (r.value.engineDisposed <==> r.value.rows.Some?)
    ensures r.Ok? && r.value.rows.Some? ==> r.value.rows.value == JoinRows(db, vectorIds)
  {
    var placeholders := Placeholders(|vectorIds|);
    PlaceholdersMatchParams(vectorIds);
    if placeholders == "" then Err(EmptyInList)
    else
      var results := JoinRows(db, vectorIds);
      if results == [] then Ok(Fetched(None, false))
      else Ok(Fetched(Some(results), true))
  }

  /** Every track `fetch_track_details` returns belongs to one of the
      requested vector ids. */
  lemma FetchedTracksRequested(vectorIds: seq<int>, db: Database, row: TrackDetails)
    requires FetchTrackDetails(vectorIds, db).Ok?
    requires FetchTrackDetails(vectorIds, db).value.rows.Some?
    requires row in FetchTrackDetails(vectorIds, db).value.rows.value
    ensures exists vm :: vm in db.vectorMetadata && vm.trackId == row.trackId && vm.vectorId in vectorIds
  {
    JoinRowsAreRequested(db, vectorIds, row);
  }

  // ---------------------------------------------------------------------
  // process_audio_to_embeddings (lines 74-95)
  // ---------------------------------------------------------------------

  /** What `process_file` returns for one model. */
  function FileEmbedding(audio: Audio, model: ModelName, embed: Embedder): Vector
  {
    var segs := Segments(audio);
    embed(model, segs[0]) + embed(model, segs[1]) + embed(model, segs[2])
  }

  function PerModel(audio: Audio, models: seq<ModelName>, embed: Embedder): seq<Vector>
  {
    seq(|models|, i requires 0 <= i < |models| => FileEmbedding(audio, models[i], embed))
  }

  /** One `process_file` result per model, concatenated in the order the
      models are iterated (for a dict, its keys in insertion order); with
      no models, `np.concatenate([])` raises. */
  method ProcessAudioToEmbeddings(audio: Audio, modelPaths: seq<ModelName>, embed: Embedder)
    returns (r: Result<Vector, ConcatError>)
    ensures modelPaths == [] <==> r.Err?
    ensures r.Ok? ==> r.value == Flatten(PerModel(audio, modelPaths, embed))
  {
    var embeddingsFromInference: seq<Vector> := [];
    for i := 0 to |modelPaths|
      invariant embeddingsFromInference == PerModel(audio, modelPaths[..i], embed)
    {
      var embeddings := ProcessFile(audio, modelPaths[i], embed);
      embeddingsFromInference := embeddingsFromInference + [embeddings];
      assert modelPaths[..i + 1] == modelPaths[..i] + [modelPaths[i]];
    }
    assert modelPaths[..|modelPaths|] == modelPaths;
    if embeddingsFromInference == [] {
      r := Err(NothingToConcatenate);
    } else {
      r := Ok(Flatten(embeddingsFromInference));
    }
  }

  /** Part `i` of a flattening sits right after the parts before it. */
  lemma PartPosition<T>(parts: seq<seq<T>>, i: nat)
    requires i < |parts|
    ensures TotalLength(parts[..i]) + |parts[i]| <= |Flatten(parts)|
    ensures Flatten(parts)[TotalLength(parts[..i])..TotalLength(parts[..i]) + |parts[i]|] == parts[i]
  {
    FlattenAppend(parts[..i + 1], parts[i + 1..]);
    assert parts == parts[..i + 1] + parts[i + 1..];
    FlattenPrefixStep(parts, i);
    FlattenLength(parts[..i]);
  }

  /** The model at position `i` contributes its whole `process_file` output,
      placed after the outputs of the models before it, and the result is as
      long as all outputs together. */
  lemma ModelEmbeddingOrder(audio: Audio, models: seq<ModelName>, embed: Embedder, i: nat)
    requires i < |models|
    ensures var parts := PerModel(audio, models, embed);
      var start := TotalLength(parts[..i]);
      && |Flatten(parts)| == TotalLength(parts)
      && start + |FileEmbedding(audio, models[i], embed)| <= |Flatten(parts)|
      && Flatten(parts)[start..start + |FileEmbedding(audio, models[i], embed)|] == FileEmbedding(audio, models[i], embed)
  {
    var parts := PerModel(audio, models, embed);
    FlattenLength(parts);
    PartPosition(parts, i);
  }

  // ---------------------------------------------------------------------
  // perform_similarity_search (lines 117-129) and main (lines 132-219)
  // ---------------------------------------------------------------------

  /** `perform_similarity_search` asks for six neighbours. */
  const QueryTopK: int := 6

  /** A fresh engine, the index reloaded from `file`, six neighbours: the
      answer depends only on what the index file holds. */
  method PerformSimilaritySearch(config: Config, file: IndexFile, search: SearchFn, embedding: NdArray)
    returns (r: Result<Hits, SearchError>)
    ensures !file.Stored? ==> r == Err(IndexNotLoaded)
    ensures file.Stored? ==> r == SwapToIndicesFirst(search(file.index, AsQueryBatch(embedding), QueryTopK))
  {
    var vDb := new SimilaritySearch(config);
    r := vDb.FindSimilarEmbeddings(file, search, embedding, topK := QueryTopK);
  }

  /** `faiss.normalize_L2(x)`: it reads `x.shape[1]`, so an array of rank
      below two raises (None); otherwise `renorm` stands for the in-place
      row normalisation of the array. */
  function NormalizeL2(x: NdArray, renorm: NdArray -> NdArray): (r: Option<NdArray>)
    ensures |x.shape| < 2 <==> r.None?
    ensures r.Some? ==> r.value == renorm(x)
  {
    if |x.shape| < 2 then None else Some(renorm(x))
  }

  /** Line 199: the query is what `process_file_custom` returns, an
      `np.concatenate(..., axis=None)`, so a one-dimensional array of the
      concatenated embedding. */
  function QueryArray(v: Vector): (a: NdArray)
    ensures |a.shape| == 1 && a.shape[0] == |v| && a.data == v
  {
    NdArray([|v|], v)
  }

  /** Lines 203-204: only a Cosine index gets an L2-normalised query; any
      other type gets it unchanged. */
  function PrepareQuery(indexType: string, query: NdArray, renorm: NdArray -> NdArray): (q: Option<NdArray>)
    ensures indexType != "Cosine" ==> q == Some(query)
    ensures indexType == "Cosine" ==> q == NormalizeL2(query, renorm)
  {
    if indexType == "Cosine" then NormalizeL2(query, renorm) else Some(query)
  }

  /** The query `main` builds is one-dimensional, so with a Cosine index
      line 204 always raises: the Cosine path never reaches the search. */
  lemma CosineQueryNeverNormalises(v: Vector, renorm: NdArray -> NdArray)
    ensures PrepareQuery("Cosine", QueryArray(v), renorm) == None
    ensures forall t :: t != "Cosine" ==> PrepareQuery(t, QueryArray(v), renorm) == Some(QueryArray(v))
  {
  }

  /** Line 216: `indices.flatten().tolist()`, row-major. */
  function VectorIds(indices: seq<seq<int>>): seq<int>
  {
    Flatten(indices)
  }

  /** For a result of `rows` queries with `k` neighbours each, neighbour `j`
      of query `i` is id number `i * k + j`. */
  lemma VectorIdsRowMajor(indices: seq<seq<int>>, k: nat, i: nat, j: nat)
    requires Rectangular(indices, k)
    requires i < |indices| && j < k
    ensures |VectorIds(indices)| == |indices| * k
    ensures i * k + j < |VectorIds(indices)| && VectorIds(indices)[i * k + j] == indices[i][j]
  {
    assert VectorIds(indices) == Flatten(indices);
    FlattenRowMajor(indices, k, i, j);
  }

  /** Every id of every query row is among the vector ids, and nothing else is. */
  lemma VectorIdsMembership(indices: seq<seq<int>>, id: int)
    ensures id in VectorIds(indices) <==> exists i :: 0 <= i < |indices| && id in indices[i]
  {
    InFlatten(indices, id);
  }

  datatype PipelineError =
    | EmbeddingFailed(concat: ConcatError)
    | NormalizationFailed
    | SearchError(search: SearchError)
    | QueryError(sql: SqlError)

  /** A failed track query surfaces as a pipeline error. */
  function LiftQueryError(fetched: Result<Fetched, SqlError>): (r: Result<Fetched, PipelineError>)
    ensures fetched.Ok? <==> r.Ok?
    ensures fetched.Ok? ==> r.value == fetched.value
    ensures fetched.Err? ==> r == Err(QueryError(fetched.error))
  {
    match fetched
    case Ok(f) => Ok(f)
    case Err(e) => Err(QueryError(e))
  }

  /** `main` from the embedding step on (lines 198-219): embed the clip with
      every model, normalise for a Cosine index, search six neighbours,
      flatten their indices into vector ids and fetch those tracks. The
      vector ids are returned beside the outcome. */
  method RunQuery(audio: Audio, models: seq<ModelName>, embed: Embedder, config: Config,
                  renorm: NdArray -> NdArray, file: IndexFile, search: SearchFn, db: Database)
    returns (r: Result<Fetched, PipelineError>, vectorIds: seq<int>)
    ensures models == [] ==> r == Err(EmbeddingFailed(NothingToConcatenate)) && vectorIds == []
    ensures models != [] && config.indexType == "Cosine" ==> r == Err(NormalizationFailed) && vectorIds == []
    ensures models != [] && config.indexType != "Cosine" && !file.Stored? ==>
      r == Err(SearchError(IndexNotLoaded)) && vectorIds == []
    ensures models != [] && config.indexType != "Cosine" && file.Stored? ==>
      var query := QueryArray(Flatten(CustomPieces(Segments(audio), models, embed)));
      var hits := SwapToIndicesFirst(search(file.index, AsQueryBatch(query), QueryTopK));
      && (hits.Err? ==> r == Err(SearchError(hits.error)) && vectorIds == [])
      && (hits.Ok? ==> vectorIds == VectorIds(hits.value.indices) && r == LiftQueryError(FetchTrackDetails(vectorIds, db)))
    ensures r.Ok? && r.value.rows.Some? ==>
      forall row :: row in r.value.rows.value ==>
        exists vm :: vm in db.vectorMetadata && vm.trackId == row.trackId && vm.vectorId in vectorIds
  {
    vectorIds := [];
    var embedded := ProcessFileCustom(audio, models, embed);
    if embedded.Err? {
      return Err(EmbeddingFailed(NothingToConcatenate)), vectorIds;
    }
    var testQuery := PrepareQuery(config.indexType, QueryArray(embedded.value), renorm);
    if testQuery.None? {
      return Err(NormalizationFailed), vectorIds;
    }
    var found := PerformSimilaritySearch(config, file, search, testQuery.value);
    if found.Err? {
      return Err(SearchError(found.error)), vectorIds;
    }
    vectorIds := VectorIds(found.value.indices);
    var fetched := FetchTrackDetails(vectorIds, db);
    r := LiftQueryError(fetched);
    if r.Ok? {
      forall row | r.value.rows.Some? && row in r.value.rows.value
        ensures exists vm :: vm in db.vectorMetadata && vm.trackId == row.trackId && vm.vectorId in vectorIds
      {
        FetchedTracksRequested(vectorIds, db, row);
      }
    }
  }
}
