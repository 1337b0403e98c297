/** similarity_engine/vector_database_setup.py: the bookkeeping around the
    FAISS index. `VectorDatabase.LoadVectors` reads per-track embedding files
    from the enabled category folders into `embeddingMap` and `trackIds`, then
    concatenates each track's embeddings into `vectors`; `CreateIndex` builds
    an index over `vectors`; `InsertMetadata` builds the table that maps a
    vector's position back to its track.

    The FAISS index itself is opaque: the model keeps its kind, its
    dimension, whether it is trained and the vectors added to it, in order. */
module VectorDatabaseSetup {
  import opened Common
  import PythonInt

  /** The embedding categories, one folder each. */
  datatype Category = Genre | Instrument | Emotion

  /** The key order of `map_of_embeddings`, which both passes of
      `load_vectors` follow. */
  const CategoryOrder: seq<Category> := [Genre, Instrument, Emotion]

  /** The `combinator` section of the configuration. */
  datatype Combinator = Combinator(genre: bool, instrument: bool, emotion: bool)
  {
    predicate Enabled(c: Category)
    {
      match c
      case Genre => genre
      case Instrument => instrument
      case Emotion => emotion
    }
  }

  /** The enabled categories, in category order. */
  function EnabledCategories(comb: Combinator): (cs: seq<Category>)
    ensures forall c :: c in cs <==> comb.Enabled(c)
  {
    (if comb.genre then [Genre] else [])
      + (if comb.instrument then [Instrument] else [])
      + (if comb.emotion then [Emotion] else [])
  }

  /** The configuration entries the model reads: the combinator flags,
      `faiss.dimension` and `faiss.index_type`. */
  datatype Config = Config(combinator: Combinator, dimension: int, indexType: string)

  /** What `np.load` returned: the array's shape and its elements, flattened. */
  datatype NpyArray = NpyArray(shape: seq<nat>, data: Vector)

  /** A file in an embedding folder: a readable array, or a file `np.load`
      raises on. */
  datatype FileContent = Npy(loaded: NpyArray) | Unloadable

  datatype EmbeddingFile = EmbeddingFile(name: string, content: FileContent)

  /** The embedding folders as `load_vectors` sees them: whether the genre
      folder passes the existence check of line 46 (made on the configured
      path as given), and, for each category folder that `os.listdir` can
      open (the path resolved against the module's directory), its files in
      listing order. */
  datatype EmbeddingFolders = EmbeddingFolders(genrePathExists: bool, listings: map<Category, seq<EmbeddingFile>>)

  /** `track_id -> {category -> embedding}`. */
  type EmbeddingMap = map<int, map<Category, NpyArray>>

  /** The two fields the file loop fills. */
  datatype LoadState = LoadState(embeddingMap: EmbeddingMap, trackIds: seq<int>)

  /** The state reached by a run of the file loop, and whether it finished
      without raising. */
  datatype Scan = Scan(state: LoadState, ok: bool)

  /** The errors the model's operations raise. */
  datatype DbError =
    | UndefinedName          // line 47 formats an undefined name `path`
    | MultiplierUndefined    // `self.dimension * None`
    | RaggedVectors          // `np.array` of vectors of different lengths
    | NotAMatrix             // a FAISS call given a one-dimensional array
    | DimensionMismatch      // an array whose width is not the index's dimension
    | TooFewTrainingPoints   // IVF training with fewer points than partitions
    | NotTrained             // adding to an untrained index
    | NoIndex                // a FAISS call on `None`
    | ColumnLengthMismatch   // DataFrame columns of different lengths

  /** How a `load_vectors` call that does not raise ended. */
  datatype LoadStatus = Loaded | LoggedError

  /** An embedding of the configured dimension: its first axis is `dimension`. */
  predicate Accepted(a: NpyArray, dimension: int)
  {
    |a.shape| > 0 && a.shape[0] == dimension
  }

  /** Lines 65-71: store the embedding under (track, category), replacing any
      earlier one, and list the track the first time it is seen. */
  function Record(st: LoadState, id: int, cat: Category, a: NpyArray): LoadState
  {
    var entry := if id in st.embeddingMap then st.embeddingMap[id] else map[];
    LoadState(
      st.embeddingMap[id := entry[cat := a]],
      if id in st.trackIds then st.trackIds else st.trackIds + [id])
  }

  /** One pass of the file loop (lines 59-72); None where it raises: `np.load`
      fails, the array has no first axis, or the name is not a number. */
  function LoadFile(st: LoadState, cat: Category, f: EmbeddingFile, dimension: int): Option<LoadState>
  {
    match f.content
    case Unloadable => None
    case Npy(a) =>
      if |a.shape| == 0 then None
      else if a.shape[0] != dimension then Some(st)
      else
        match PythonInt.TrackIdOf(f.name)
        case None => None
        case Some(id) => Some(Record(st, id, cat, a))
  }

  /** The file loop over one folder, stopping at the first file that raises. */
  function ScanFiles(st: LoadState, cat: Category, files: seq<EmbeddingFile>, dimension: int): Scan
  {
    if files == [] then Scan(st, true)
    else
      var prev := ScanFiles(st, cat, files[..|files| - 1], dimension);
      if !prev.ok then prev
      else
        match LoadFile(prev.state, cat, files[|files| - 1], dimension)
        case None => Scan(prev.state, false)
        case Some(next) => Scan(next, true)
  }

  /** One category of the outer loop: skipped when disabled; `os.listdir`
      raises when the folder cannot be listed. */
  function ScanCategory(st: LoadState, comb: Combinator, folders: EmbeddingFolders, dimension: int, cat: Category): Scan
  {
    if !comb.Enabled(cat) then Scan(st, true)
    else if cat !in folders.listings then Scan(st, false)
    else ScanFiles(st, cat, folders.listings[cat], dimension)
  }

  /** The outer loop of lines 52-72 over `cats`, stopping at the first raise. */
  function ScanFolders(st: LoadState, comb: Combinator, folders: EmbeddingFolders, dimension: int, cats: seq<Category>): Scan
  {
    if cats == [] then Scan(st, true)
    else
      var prev := ScanFolders(st, comb, folders, dimension, cats[..|cats| - 1]);
      if !prev.ok then prev
      else ScanCategory(prev.state, comb, folders, dimension, cats[|cats| - 1])
  }

  /** Lines 77-81: a track's embeddings of the enabled categories it has, in
      category order. */
  function Pieces(entry: map<Category, NpyArray>, comb: Combinator): seq<Vector>
  {
    (if comb.genre && Genre in entry then [entry[Genre].data] else [])
      + (if comb.instrument && Instrument in entry then [entry[Instrument].data] else [])
      + (if comb.emotion && Emotion in entry then [entry[Emotion].data] else [])
  }

  /** A track's combined vector: its pieces concatenated (lines 85-87). */
  function CombinedVector(entry: map<Category, NpyArray>, comb: Combinator): Vector
  {
    Flatten(Pieces(entry, comb))
  }

  /** The second pass (lines 76-88): one combined vector per listed track
      that has at least one piece. */
  function CombineAll(em: EmbeddingMap, comb: Combinator, ids: seq<int>): seq<Vector>
    requires forall t :: t in ids ==> t in em
  {
    if ids == [] then []
    else
      var last := ids[|ids| - 1];
      assert last in ids;
      var prev := CombineAll(em, comb, ids[..|ids| - 1]);
      var pieces := Pieces(em[last], comb);
      if pieces != [] then prev + [Flatten(pieces)] else prev
  }

  predicate Distinct(s: seq<int>)
  {
    forall i, j :: 0 <= i < j < |s| ==> s[i] != s[j]
  }

  /** What the file loop maintains: the listed tracks are exactly the keys
      of the map, each listed once; every track has at least one embedding;
      and every stored embedding is of an enabled category and of the
      configured dimension. */
  ghost predicate WellFormed(st: LoadState, comb: Combinator, dimension: int)
  {
    && (forall t :: t in st.embeddingMap <==> t in st.trackIds)
    && Distinct(st.trackIds)
    && (forall t :: t in st.embeddingMap ==> st.embeddingMap[t] != map[])
    && (forall t, c :: t in st.embeddingMap && c in st.embeddingMap[t] ==>
          comb.Enabled(c) && Accepted(st.embeddingMap[t][c], dimension))
  }

  /** `dimensionality_calculation` (lines 163-181): the number of enabled
      categories, defined only when the enabled set is {genre},
      {genre, instrument} or all three; None (Python's implicit return) for
      the other five combinations. */
  function DimensionalityCalculation(comb: Combinator): (m: Option<nat>)
    ensures m.Some? <==> comb.genre && (comb.emotion ==> comb.instrument)
    ensures m.Some? ==> m.value == |EnabledCategories(comb)|
    ensures m.Some? ==> 1 <= m.value <= 3
  {
    if comb.genre && comb.instrument && comb.emotion then Some(3)
    else if comb.genre && comb.instrument && !comb.emotion then Some(2)
    else if comb.genre && !comb.instrument && !comb.emotion then Some(1)
    else None
  }

  /** The three combinations with a multiplier are exactly the non-empty
      prefixes of the category order. */
  lemma MultiplierMeansPrefix(comb: Combinator)
    ensures DimensionalityCalculation(comb).Some? <==>
      exists k :: 1 <= k <= 3 && EnabledCategories(comb) == CategoryOrder[..k]
  {
    var cs := EnabledCategories(comb);
    if DimensionalityCalculation(comb).Some? {
      var k := |cs|;
      assert cs == CategoryOrder[..k];
    } else {
      forall k | 1 <= k <= 3 ensures cs != CategoryOrder[..k] {
        assert CategoryOrder[..k][0] == Genre;
        assert k >= 2 ==> CategoryOrder[..k][1] == Instrument;
        if comb.genre {
          assert cs == [Genre, Emotion];
        } else {
          assert Genre !in cs;
        }
      }
    }
  }

  /** Every enabled set that is not a prefix of genre, instrument, emotion
      (instrument only, emotion only, genre with emotion) has no
      multiplier, so index creation and metadata insertion raise under it. */
  lemma NonPrefixCombinationsHaveNoMultiplier()
    ensures DimensionalityCalculation(Combinator(false, true, false)) == None
    ensures DimensionalityCalculation(Combinator(false, false, true)) == None
    ensures DimensionalityCalculation(Combinator(true, false, true)) == None
  {
  }

  // ---------------------------------------------------------------------
  // Properties of the loading pass
  // ---------------------------------------------------------------------

  lemma RecordWellFormed(st: LoadState, comb: Combinator, dimension: int, id: int, cat: Category, a: NpyArray)
    requires WellFormed(st, comb, dimension)
    requires comb.Enabled(cat) && Accepted(a, dimension)
    ensures WellFormed(Record(st, id, cat, a), comb, dimension)
  {
    var st' := Record(st, id, cat, a);
    if id !in st.trackIds {
      forall i, j | 0 <= i < j < |st'.trackIds| ensures st'.trackIds[i] != st'.trackIds[j] {
        if j == |st.trackIds| {
          assert st'.trackIds[i] == st.trackIds[i];
        }
      }
    }
  }

  /** Each step of the file loop keeps the loading invariant. */
  lemma {:induction false} ScanFilesWellFormed(st: LoadState, comb: Combinator, cat: Category, files: seq<EmbeddingFile>, dimension: int)
    requires WellFormed(st, comb, dimension) && comb.Enabled(cat)
    ensures WellFormed(ScanFiles(st, cat, files, dimension).state, comb, dimension)
  {
    if files != [] {
      var prefix := files[..|files| - 1];
      ScanFilesWellFormed(st, comb, cat, prefix, dimension);
      var prev := ScanFiles(st, cat, prefix, dimension);
      var f := files[|files| - 1];
      if prev.ok && f.content.Npy? && Accepted(f.content.loaded, dimension) && PythonInt.TrackIdOf(f.name).Some? {
        RecordWellFormed(prev.state, comb, dimension, PythonInt.TrackIdOf(f.name).value, cat, f.content.loaded);
      }
    }
  }

  /** Only embeddings of enabled categories and of the configured dimension
      are ever recorded, and every listed track has one. */
  lemma {:induction false} ScanFoldersWellFormed(st: LoadState, comb: Combinator, folders: EmbeddingFolders, dimension: int, cats: seq<Category>)
    requires WellFormed(st, comb, dimension)
    ensures WellFormed(ScanFolders(st, comb, folders, dimension, cats).state, comb, dimension)
  {
    if cats != [] {
      var prefix := cats[..|cats| - 1];
      ScanFoldersWellFormed(st, comb, folders, dimension, prefix);
      var prev := ScanFolders(st, comb, folders, dimension, prefix);
      var cat := cats[|cats| - 1];
      if prev.ok && comb.Enabled(cat) && cat in folders.listings {
        ScanFilesWellFormed(prev.state, comb, cat, folders.listings[cat], dimension);
      }
    }
  }

  /** Once the file loop has raised, later files change nothing. */
  lemma {:induction false} ScanFilesStuck(st: LoadState, cat: Category, files: seq<EmbeddingFile>, dimension: int, i: nat)
    requires i <= |files| && !ScanFiles(st, cat, files[..i], dimension).ok
    ensures ScanFiles(st, cat, files, dimension) == ScanFiles(st, cat, files[..i], dimension)
  {
    if i < |files| {
      var prefix := files[..|files| - 1];
      assert prefix[..i] == files[..i];
      ScanFilesStuck(st, cat, prefix, dimension, i);
    } else {
      assert files[..i] == files;
    }
  }

  /** Once a category has raised, later categories change nothing. */
  lemma {:induction false} ScanFoldersStuck(st: LoadState, comb: Combinator, folders: EmbeddingFolders, dimension: int, cats: seq<Category>, i: nat)
    requires i <= |cats| && !ScanFolders(st, comb, folders, dimension, cats[..i]).ok
    ensures ScanFolders(st, comb, folders, dimension, cats) == ScanFolders(st, comb, folders, dimension, cats[..i])
  {
    if i < |cats| {
      var prefix := cats[..|cats| - 1];
      assert prefix[..i] == cats[..i];
      ScanFoldersStuck(st, comb, folders, dimension, prefix, i);
    } else {
      assert cats[..i] == cats;
    }
  }

  /** A track with at least one stored embedding, all of enabled
      categories, has at least one piece. */
  lemma PiecesNonEmpty(entry: map<Category, NpyArray>, comb: Combinator)
    requires entry != map[]
    requires forall c :: c in entry ==> comb.Enabled(c)
    ensures Pieces(entry, comb) != []
  {
    var c :| c in entry;
    match c
    case Genre =>
    case Instrument =>
    case Emotion =>
  }

  /** Alignment: when every listed track has an embedding of an enabled
      category, the second pass yields exactly one vector per listed track,
      and vector `i` is track `ids[i]`'s combined vector. */
  lemma {:induction false} CombineAllAligned(em: EmbeddingMap, comb: Combinator, ids: seq<int>)
    requires forall t :: t in ids ==> t in em
    requires forall t :: t in em ==> em[t] != map[]
    requires forall t, c :: t in em && c in em[t] ==> comb.Enabled(c)
    ensures |CombineAll(em, comb, ids)| == |ids|
    ensures forall i :: 0 <= i < |ids| ==> CombineAll(em, comb, ids)[i] == CombinedVector(em[ids[i]], comb)
  {
    if ids != [] {
      var prefix := ids[..|ids| - 1];
      CombineAllAligned(em, comb, prefix);
      var last := ids[|ids| - 1];
      assert last in ids;
      assert last in em;
      PiecesNonEmpty(em[last], comb);
    }
  }

  /** A combined vector is the track's embeddings of the enabled categories
      it has, in category order, so its length is the sum of theirs: with
      all enabled embeddings present and one-dimensional, it has
      `dimension` elements per enabled category. */
  lemma CombinedVectorLength(entry: map<Category, NpyArray>, comb: Combinator, dimension: nat)
    requires forall c :: comb.Enabled(c) ==> c in entry && entry[c].shape == [dimension] && |entry[c].data| == dimension
    ensures |CombinedVector(entry, comb)| == dimension * |EnabledCategories(comb)|
  {
    var p := Pieces(entry, comb);
    var g: seq<Vector> := if comb.genre then [entry[Genre].data] else [];
    var i: seq<Vector> := if comb.instrument then [entry[Instrument].data] else [];
    var e: seq<Vector> := if comb.emotion then [entry[Emotion].data] else [];
    assert p == g + i + e;
    assert Rectangular(p, dimension);
    assert |p| == |EnabledCategories(comb)|;
    FlattenRectLength(p, dimension);
  }

  /** A track with a genre embedding but no instrument embedding, under
      the genre+instrument combinator, still gets a vector: its genre
      embedding alone, shorter than the vectors of complete tracks. */
  lemma MissingCategoryShortensVector(a: NpyArray)
    ensures CombinedVector(map[Genre := a], Combinator(true, true, false)) == a.data
  {
    var p := Pieces(map[Genre := a], Combinator(true, true, false));
    assert Instrument !in map[Genre := a];
    assert p == [a.data];
    assert p[..0] == [];
    assert Flatten(p) == Flatten(p[..0]) + p[0];
  }

  // ---------------------------------------------------------------------
  // Which track ids are listed, and in which order
  // ---------------------------------------------------------------------

  /** The track id a file contributes, if it passes the dimension check and
      its name parses. */
  function AcceptedId(f: EmbeddingFile, dimension: int): Option<int>
  {
    if f.content.Npy? && Accepted(f.content.loaded, dimension) then PythonInt.TrackIdOf(f.name) else None
  }

  /** The ids of the accepted files of a folder, in listing order, repeats kept. */
  function AcceptedIds(files: seq<EmbeddingFile>, dimension: int): seq<int>
  {
    if files == [] then []
    else
      var last := AcceptedId(files[|files| - 1], dimension);
      AcceptedIds(files[..|files| - 1], dimension) + (if last.Some? then [last.value] else [])
  }

  /** `ids` followed by the elements of `xs` not seen before, each at its
      first occurrence. */
  function AppendNew(ids: seq<int>, xs: seq<int>): seq<int>
  {
    if xs == [] then ids
    else
      var acc := AppendNew(ids, xs[..|xs| - 1]);
      if xs[|xs| - 1] in acc then acc else acc + [xs[|xs| - 1]]
  }

  /** AppendNew keeps the ids already listed, in place, adds each new id
      once, and adds nothing else. */
  lemma {:induction false} AppendNewProperties(ids: seq<int>, xs: seq<int>)
    requires Distinct(ids)
    ensures Distinct(AppendNew(ids, xs))
    ensures |ids| <= |AppendNew(ids, xs)| && AppendNew(ids, xs)[..|ids|] == ids
    ensures forall x :: x in AppendNew(ids, xs) <==> x in ids || x in xs
  {
    if xs != [] {
      var prefix := xs[..|xs| - 1];
      AppendNewProperties(ids, prefix);
      var acc := AppendNew(ids, prefix);
      assert xs == prefix + [xs[|xs| - 1]];
      if xs[|xs| - 1] !in acc {
        var r := acc + [xs[|xs| - 1]];
        assert r[..|ids|] == acc[..|ids|];
      }
    }
  }

  lemma {:induction false} AppendNewConcat(ids: seq<int>, xs: seq<int>, ys: seq<int>)
    ensures AppendNew(ids, xs + ys) == AppendNew(AppendNew(ids, xs), ys)
  {
    if ys == [] {
      assert xs + ys == xs;
    } else {
      var prefix := ys[..|ys| - 1];
      assert (xs + ys)[..|xs + ys| - 1] == xs + prefix;
      AppendNewConcat(ids, xs, prefix);
    }
  }

  /** A folder read without a raise lists its new track ids in the order of
      their first accepted file. */
  lemma {:induction false} ScanFilesIds(st: LoadState, cat: Category, files: seq<EmbeddingFile>, dimension: int)
    requires ScanFiles(st, cat, files, dimension).ok
    ensures ScanFiles(st, cat, files, dimension).state.trackIds == AppendNew(st.trackIds, AcceptedIds(files, dimension))
  {
    if files != [] {
      var prefix := files[..|files| - 1];
      ScanFilesIds(st, cat, prefix, dimension);
      var last := AcceptedId(files[|files| - 1], dimension);
      AppendNewConcat(st.trackIds, AcceptedIds(prefix, dimension), if last.Some? then [last.value] else []);
    }
  }

  /** The accepted ids of the enabled folders, category by category. */
  function EnabledAcceptedIds(comb: Combinator, folders: EmbeddingFolders, dimension: int, cats: seq<Category>): seq<int>
  {
    if cats == [] then []
    else
      var cat := cats[|cats| - 1];
      EnabledAcceptedIds(comb, folders, dimension, cats[..|cats| - 1])
        + (if comb.Enabled(cat) && cat in folders.listings then AcceptedIds(folders.listings[cat], dimension) else [])
  }

  /** `track_ids` after a load without a raise: the earlier list, then each
      new accepted track once, in the order its first accepted file was met,
      visiting the enabled folders in category order. */
  lemma {:induction false} ScanFoldersIds(st: LoadState, comb: Combinator, folders: EmbeddingFolders, dimension: int, cats: seq<Category>)
    requires ScanFolders(st, comb, folders, dimension, cats).ok
    ensures ScanFolders(st, comb, folders, dimension, cats).state.trackIds
         == AppendNew(st.trackIds, EnabledAcceptedIds(comb, folders, dimension, cats))
  {
    if cats != [] {
      var prefix := cats[..|cats| - 1];
      var cat := cats[|cats| - 1];
      ScanFoldersIds(st, comb, folders, dimension, prefix);
      var prev := ScanFolders(st, comb, folders, dimension, prefix);
      var more := if comb.Enabled(cat) && cat in folders.listings then AcceptedIds(folders.listings[cat], dimension) else [];
      AppendNewConcat(st.trackIds, EnabledAcceptedIds(comb, folders, dimension, prefix), more);
      if comb.Enabled(cat) && cat in folders.listings {
        ScanFilesIds(prev.state, cat, folders.listings[cat], dimension);
      } else {
        assert more == [];
      }
    }
  }

  // ---------------------------------------------------------------------
  // Which embedding is kept for a (track, category) pair
  // ---------------------------------------------------------------------

  /** A folder's file loop changes no other category's embeddings. */
  lemma {:induction false} ScanFilesKeepsOtherCategories(st: LoadState, cat: Category, files: seq<EmbeddingFile>, dimension: int, id: int, other: Category)
    requires other != cat
    requires id in st.embeddingMap && other in st.embeddingMap[id]
    ensures var s := ScanFiles(st, cat, files, dimension).state;
      id in s.embeddingMap && other in s.embeddingMap[id] && s.embeddingMap[id][other] == st.embeddingMap[id][other]
  {
    if files != [] {
      var prefix := files[..|files| - 1];
      ScanFilesKeepsOtherCategories(st, cat, prefix, dimension, id, other);
      var prev := ScanFiles(st, cat, prefix, dimension);
      if prev.ok {
        LoadFileKeepsOtherCategories(prev.state, cat, files[|files| - 1], dimension, id, other);
      }
    }
  }

  lemma LoadFileKeepsOtherCategories(st: LoadState, cat: Category, f: EmbeddingFile, dimension: int, id: int, other: Category)
    requires other != cat
    requires id in st.embeddingMap && other in st.embeddingMap[id]
    ensures var r := LoadFile(st, cat, f, dimension);
      r.Some? ==>
        id in r.value.embeddingMap && other in r.value.embeddingMap[id]
        && r.value.embeddingMap[id][other] == st.embeddingMap[id][other]
  {
  }

  /** Later files win: after a folder is read without a raise, a track's
      embedding for that category comes from the last accepted file that
      names the track. */
  lemma {:induction false} LastFileWins(st: LoadState, cat: Category, files: seq<EmbeddingFile>, dimension: int, k: nat, id: int)
    requires k < |files| && ScanFiles(st, cat, files, dimension).ok
    requires AcceptedId(files[k], dimension) == Some(id)
    requires forall j :: k < j < |files| ==> AcceptedId(files[j], dimension) != Some(id)
    ensures var s := ScanFiles(st, cat, files, dimension).state;
      id in s.embeddingMap && cat in s.embeddingMap[id] && s.embeddingMap[id][cat] == files[k].content.loaded
  {
    var prefix := files[..|files| - 1];
    var prev := ScanFiles(st, cat, prefix, dimension);
    var last := files[|files| - 1];
    assert prev.ok && LoadFile(prev.state, cat, last, dimension).Some?;
    if k < |files| - 1 {
      LastFileWins(st, cat, prefix, dimension, k, id);
      assert AcceptedId(last, dimension) != Some(id);
    }
    LoadFileEffect(prev.state, cat, last, dimension, id);
  }

  /** One file's effect on a track's entry for the folder's category: set
      by an accepted file naming the track, untouched by any other. */
  lemma LoadFileEffect(st: LoadState, cat: Category, f: EmbeddingFile, dimension: int, id: int)
    ensures var r := LoadFile(st, cat, f, dimension);
      r.Some? && AcceptedId(f, dimension) == Some(id) ==>
        id in r.value.embeddingMap && cat in r.value.embeddingMap[id]
        && r.value.embeddingMap[id][cat] == f.content.loaded
    ensures var r := LoadFile(st, cat, f, dimension);
      r.Some? && AcceptedId(f, dimension) != Some(id) && id in st.embeddingMap && cat in st.embeddingMap[id] ==>
        id in r.value.embeddingMap && cat in r.value.embeddingMap[id]
        && r.value.embeddingMap[id][cat] == st.embeddingMap[id][cat]
  {
  }

  /** An accepted file whose name parses is recorded under its track. */
  lemma LoadAcceptedFile(st: LoadState, cat: Category, f: EmbeddingFile, dimension: int, id: int)
    requires f.content.Npy? && Accepted(f.content.loaded, dimension)
    requires PythonInt.TrackIdOf(f.name) == Some(id)
    ensures LoadFile(st, cat, f, dimension) == Some(Record(st, id, cat, f.content.loaded))
  {
  }

  /** Reading one more file continues the scan of the files before it. */
  lemma ScanFilesSnoc(st: LoadState, cat: Category, files: seq<EmbeddingFile>, f: EmbeddingFile, dimension: int)
    ensures var prev := ScanFiles(st, cat, files, dimension);
      ScanFiles(st, cat, files + [f], dimension)
        == if !prev.ok then prev
           else match LoadFile(prev.state, cat, f, dimension)
             case None => Scan(prev.state, false)
             case Some(next) => Scan(next, true)
  {
    assert (files + [f])[..|files|] == files;
  }

  lemma RecordIntoEmpty(id: int, cat: Category, a: NpyArray)
    ensures Record(LoadState(map[], []), id, cat, a) == LoadState(map[id := map[cat := a]], [id])
  {
  }

  lemma RecordReplaces(id: int, cat: Category, a1: NpyArray, a2: NpyArray)
    ensures Record(LoadState(map[id := map[cat := a1]], [id]), id, cat, a2)
         == LoadState(map[id := map[cat := a2]], [id])
  {
    assert map[cat := a1][cat := a2] == map[cat := a2];
  }

  /** Two accepted files of one folder that name the same track, read
      from an empty state: the later one is kept. */
  lemma TwoFilesSameTrack(cat: Category, f1: EmbeddingFile, f2: EmbeddingFile, dimension: int, id: int)
    requires f1.content.Npy? && Accepted(f1.content.loaded, dimension)
    requires f2.content.Npy? && Accepted(f2.content.loaded, dimension)
    requires PythonInt.TrackIdOf(f1.name) == Some(id) && PythonInt.TrackIdOf(f2.name) == Some(id)
    ensures ScanFiles(LoadState(map[], []), cat, [f1, f2], dimension)
         == Scan(LoadState(map[id := map[cat := f2.content.loaded]], [id]), true)
  {
    var st0 := LoadState(map[], []);
    var s1 := LoadState(map[id := map[cat := f1.content.loaded]], [id]);
    LoadAcceptedFile(st0, cat, f1, dimension, id);
    RecordIntoEmpty(id, cat, f1.content.loaded);
    ScanFilesSnoc(st0, cat, [], f1, dimension);
    assert [] + [f1] == [f1];
    assert ScanFiles(st0, cat, [f1], dimension) == Scan(s1, true);
    LoadAcceptedFile(s1, cat, f2, dimension, id);
    RecordReplaces(id, cat, f1.content.loaded, f2.content.loaded);
    ScanFilesSnoc(st0, cat, [f1], f2, dimension);
    assert [f1] + [f2] == [f1, f2];
  }

  /** "000574.npy" followed by "574.npy": both name track 574, and the
      second file's embedding is the one kept. */
  lemma OverwriteExample(a1: NpyArray, a2: NpyArray)
    requires Accepted(a1, 4) && Accepted(a2, 4)
    ensures var files := [EmbeddingFile("000574.npy", Npy(a1)), EmbeddingFile("574.npy", Npy(a2))];
      var s := ScanFiles(LoadState(map[], []), Genre, files, 4);
      s == Scan(LoadState(map[574 := map[Genre := a2]], [574]), true)
  {
    PythonInt.PaddedTrackExample();
    PythonInt.ShortNameExample();
    TwoFilesSameTrack(Genre, EmbeddingFile("000574.npy", Npy(a1)), EmbeddingFile("574.npy", Npy(a2)), 4, 574);
  }

  /** A raise part-way leaves the first pass's partial work in place and
      skips the second pass: after a good file for track 574, a stray
      ".DS_Store" that loads as an array of the right shape raises at
      `int(...)`, leaving track 574 listed with no vector. */
  lemma PartialLoadExample(a: NpyArray, junk: NpyArray)
    requires Accepted(a, 4) && Accepted(junk, 4)
    ensures var files := [EmbeddingFile("000574.npy", Npy(a)), EmbeddingFile(".DS_Store", Npy(junk))];
      var folders := EmbeddingFolders(true, map[Genre := files]);
      var s := ScanFolders(LoadState(map[], []), Combinator(true, false, false), folders, 4, CategoryOrder);
      s == Scan(LoadState(map[574 := map[Genre := a]], [574]), false)
  {
    var f1 := EmbeddingFile("000574.npy", Npy(a));
    var f2 := EmbeddingFile(".DS_Store", Npy(junk));
    var files := [f1, f2];
    var st0 := LoadState(map[], []);
    var s1 := LoadState(map[574 := map[Genre := a]], [574]);
    PythonInt.PaddedTrackExample();
    PythonInt.NonNumericNameRejected();
    LoadAcceptedFile(st0, Genre, f1, 4, 574);
    assert Record(st0, 574, Genre, a) == s1;
    assert LoadFile(s1, Genre, f2, 4) == None;
    assert files[..1] == [f1];
    assert files[..1][..0] == [];
    assert ScanFiles(st0, Genre, files[..1], 4) == Scan(s1, true);
    assert ScanFiles(st0, Genre, files, 4) == Scan(s1, false);
    var folders := EmbeddingFolders(true, map[Genre := files]);
    var comb := Combinator(true, false, false);
    assert CategoryOrder[..1] == [Genre];
    assert CategoryOrder[..1][..0] == [];
    assert ScanFolders(st0, comb, folders, 4, CategoryOrder[..1]) == Scan(s1, false);
    ScanFoldersStuck(st0, comb, folders, 4, CategoryOrder, 1);
  }

  // ---------------------------------------------------------------------
  // The metadata table
  // ---------------------------------------------------------------------

  /** A row of `vector_metadata`. */
  datatype MetadataRow = MetadataRow(vectorId: nat, trackId: int, vectorDimensions: int, faissIndex: string)

  /** The rows `insert_metadata` writes (lines 136-143). The DataFrame
      raises when its columns differ in length, that is unless there is one
      track id per vector; the product raises when there is no multiplier. */
  function MetadataTable(vectorCount: nat, trackIds: seq<int>, dimension: int, multiplier: Option<nat>, indexType: string): (r: Result<seq<MetadataRow>, DbError>)
    ensures multiplier.None? ==> r == Err(MultiplierUndefined)
    ensures multiplier.Some? && |trackIds| != vectorCount ==> r == Err(ColumnLengthMismatch)
    ensures r.Ok? ==> |r.value| == vectorCount == |trackIds|
    ensures r.Ok? ==> forall i :: 0 <= i < |r.value| ==>
      r.value[i] == MetadataRow(i, trackIds[i], dimension * multiplier.value, indexType)
  {
    if multiplier.None? then Err(MultiplierUndefined)
    else if |trackIds| != vectorCount then Err(ColumnLengthMismatch)
    else Ok(seq(vectorCount, i requires 0 <= i < vectorCount => MetadataRow(i, trackIds[i], dimension * multiplier.value, indexType)))
  }

  /** Alignment of the build: after a load from an empty state that did not
      raise, the metadata table has one row per vector, row `i` has
      `vector_id == i`, and vector `i` is the combined vector of row `i`'s
      track. */
  lemma MetadataAlignedWithVectors(comb: Combinator, folders: EmbeddingFolders, dimension: int, indexType: string)
    requires DimensionalityCalculation(comb).Some?
    requires ScanFolders(LoadState(map[], []), comb, folders, dimension, CategoryOrder).ok
    ensures var st := ScanFolders(LoadState(map[], []), comb, folders, dimension, CategoryOrder).state;
      && (forall t :: t in st.trackIds ==> t in st.embeddingMap)
      && var vs := CombineAll(st.embeddingMap, comb, st.trackIds);
      && var rows := MetadataTable(|vs|, st.trackIds, dimension, DimensionalityCalculation(comb), indexType);
      && rows.Ok? && |rows.value| == |vs|
      && forall i :: 0 <= i < |vs| ==>
           && rows.value[i].vectorId == i
           && rows.value[i].trackId in st.embeddingMap
           && vs[i] == CombinedVector(st.embeddingMap[rows.value[i].trackId], comb)
  {
    var st0 := LoadState(map[], []);
    ScanFoldersWellFormed(st0, comb, folders, dimension, CategoryOrder);
    var st := ScanFolders(st0, comb, folders, dimension, CategoryOrder).state;
    CombineAllAligned(st.embeddingMap, comb, st.trackIds);
  }

  // ---------------------------------------------------------------------
  // The FAISS index, opaque except for what the bookkeeping relies on
  // ---------------------------------------------------------------------

  /** Number of inverted lists of an IVFFlat index (line 109). */
  const IvfPartitions: nat := 100

  datatype IndexKind = FlatL2Kind | IvfFlatKind(nlist: nat) | InnerProductKind

  /** A FAISS index: its kind, its dimension, whether it is trained, and the
      vectors added to it; a vector's position is its vector id. */
  datatype FaissIndex = FaissIndex(kind: IndexKind, dim: int, trained: bool, stored: seq<Vector>)

  /** The persisted index file: missing, unreadable, or holding an index. */
  datatype IndexFile = Missing | Unreadable | Stored(index: FaissIndex)

  /** The shape of `np.array(vectors)`: one-dimensional when the list is
      empty, a matrix when every vector has the same length, otherwise an
      error. */
  datatype Shape = OneDim | Matrix(rows: nat, width: nat) | Ragged

  function ShapeOf(vs: seq<Vector>): (s: Shape)
    ensures s.Matrix? ==> s.rows == |vs| > 0 && Rectangular(vs, s.width)
    ensures s.OneDim? <==> vs == []
    ensures s.Matrix? <==> vs != [] && Rectangular(vs, |vs[0]|)
    ensures s.Ragged? <==> vs != [] && !Rectangular(vs, |vs[0]|)
  {
    if vs == [] then OneDim
    else if forall i :: 0 <= i < |vs| ==> |vs[i]| == |vs[0]| then Matrix(|vs|, |vs[0]|)
    else Ragged
  }

  /** The index kind each known `index_type` builds. */
  function KindFor(indexType: string): Option<IndexKind>
  {
    if indexType == "FlatL2" then Some(FlatL2Kind)
    else if indexType == "IVFFlat" then Some(IvfFlatKind(IvfPartitions))
    else if indexType == "Cosine" then Some(InnerProductKind)
    else None
  }

  /** `index.train(x)`: x must be a matrix of the index's width, with at
      least one training point per partition. */
  function Train(ix: FaissIndex, data: seq<Vector>): (r: Result<FaissIndex, DbError>)
    ensures r.Ok? ==> r.value == ix.(trained := true) && ShapeOf(data).Matrix? && ShapeOf(data).width == ix.dim
  {
    match ShapeOf(data)
    case OneDim => Err(NotAMatrix)
    case Ragged => Err(RaggedVectors)
    case Matrix(n, w) =>
      if w != ix.dim then Err(DimensionMismatch)
      else if ix.kind.IvfFlatKind? && n < ix.kind.nlist then Err(TooFewTrainingPoints)
      else Ok(ix.(trained := true))
  }

  /** `index.add(x)`: x must be a matrix of the index's width and the index
      trained; the rows are appended in order. */
  function AddVectors(ix: FaissIndex, data: seq<Vector>): (r: Result<FaissIndex, DbError>)
    ensures r.Ok? ==> r.value == ix.(stored := ix.stored + data)
  {
    match ShapeOf(data)
    case OneDim => Err(NotAMatrix)
    case Ragged => Err(RaggedVectors)
    case Matrix(_, w) =>
      if w != ix.dim then Err(DimensionMismatch)
      else if !ix.trained then Err(NotTrained)
      else Ok(ix.(stored := ix.stored + data))
  }

  /** `faiss.normalize_L2` applied row by row. */
  function NormalizeRows(vs: seq<Vector>, normalizeRow: Vector -> Vector): seq<Vector>
  {
    seq(|vs|, i requires 0 <= i < |vs| => normalizeRow(vs[i]))
  }

  /** The vectors `create_index` adds: normalised for a Cosine index, as
      they are otherwise. */
  function Prepared(indexType: string, vs: seq<Vector>, normalizeRow: Vector -> Vector): seq<Vector>
  {
    if indexType == "Cosine" then NormalizeRows(vs, normalizeRow) else vs
  }

  /** When `create_index` succeeds: there is a multiplier, the vectors form
      a matrix, and the index they are added to (a new one of the effective
      dimension for a known type, otherwise the index already held) accepts
      its width; an IVFFlat index needs at least `IvfPartitions` vectors to
      train on. */
  ghost predicate CreateIndexSucceeds(old_index: Option<FaissIndex>, comb: Combinator, dimension: int, indexType: string, vs: seq<Vector>)
  {
    && DimensionalityCalculation(comb).Some?
    && ShapeOf(vs).Matrix?
    && (if KindFor(indexType).Some? then
          && ShapeOf(vs).width == dimension * DimensionalityCalculation(comb).value
          && (indexType == "IVFFlat" ==> |vs| >= IvfPartitions)
        else
          old_index.Some? && old_index.value.trained && ShapeOf(vs).width == old_index.value.dim)
  }

  // ---------------------------------------------------------------------
  // The VectorDatabase object
  // ---------------------------------------------------------------------

  class VectorDatabase {
    const combinator: Combinator
    const dimension: int
    const indexType: string
    var index: Option<FaissIndex>
    var vectors: seq<Vector>
    var trackIds: seq<int>
    var embeddingMap: EmbeddingMap

    ghost function State(): LoadState
      reads this
    {
      LoadState(embeddingMap, trackIds)
    }

    ghost predicate Valid()
      reads this
    {
      WellFormed(State(), combinator, dimension)
    }

    /** `vectors` and `trackIds` line up position by position. */
    ghost predicate Aligned()
      reads this
    {
      && |vectors| == |trackIds|
      && forall i :: 0 <= i < |vectors| ==>
           trackIds[i] in embeddingMap && vectors[i] == CombinedVector(embeddingMap[trackIds[i]], combinator)
    }

    /** `VectorDatabase(config)` with both flags false (lines 16-26): nothing
        is loaded and there is no index. The database engine is not part of
        this model. */
    constructor (config: Config)
      ensures Valid()
      ensures combinator == config.combinator && dimension == config.dimension && indexType == config.indexType
      ensures index == None && vectors == [] && trackIds == [] && embeddingMap == map[]
    {
      combinator := config.combinator;
      dimension := config.dimension;
      indexType := config.indexType;
      index := None;
      vectors := [];
      trackIds := [];
      embeddingMap := map[];
    }

    /** `load_vectors` (lines 45-95). A missing genre folder raises
        NameError at line 47. Otherwise the file loop runs until it raises;
        a raise is logged, keeps what the loop did so far and skips the
        second pass, which otherwise appends one combined vector per listed
        track. */
    method LoadVectors(folders: EmbeddingFolders) returns (r: Result<LoadStatus, DbError>)
      requires Valid()
      modifies this`embeddingMap, this`trackIds, this`vectors
      ensures Valid()
      ensures !folders.genrePathExists ==>
        r == Err(UndefinedName) && State() == old(State()) && vectors == old(vectors)
      ensures folders.genrePathExists ==>
        var scan := ScanFolders(old(State()), combinator, folders, dimension, CategoryOrder);
        && State() == scan.state
        && (scan.ok ==> r == Ok(Loaded) && vectors == old(vectors) + CombineAll(embeddingMap, combinator, trackIds))
        && (!scan.ok ==> r == Ok(LoggedError) && vectors == old(vectors))
      ensures r == Ok(Loaded) && old(vectors) == [] ==> Aligned()
    {
      if !folders.genrePathExists {
        return Err(UndefinedName);
      }
      ghost var st0 := State();
      var ok := ReadFolders(folders);
      ScanFoldersWellFormed(st0, combinator, folders, dimension, CategoryOrder);
      if !ok {
        return Ok(LoggedError);
      }
      CombineVectors();
      CombineAllAligned(embeddingMap, combinator, trackIds);
      r := Ok(Loaded);
    }

    /** The outer loop of lines 52-72: each enabled category's folder in
        category order, stopping at the first raise; an enabled category
        whose folder cannot be listed raises. */
    method ReadFolders(folders: EmbeddingFolders) returns (ok: bool)
      modifies this`embeddingMap, this`trackIds
      ensures Scan(State(), ok) == ScanFolders(old(State()), combinator, folders, dimension, CategoryOrder)
    {
      ghost var st0 := State();
      ok := true;
      var ci := 0;
      while ci < |CategoryOrder| && ok
        invariant 0 <= ci <= |CategoryOrder|
        invariant Scan(State(), ok) == ScanFolders(st0, combinator, folders, dimension, CategoryOrder[..ci])
      {
        var cat := CategoryOrder[ci];
        assert CategoryOrder[..ci + 1][..ci] == CategoryOrder[..ci];
        if combinator.Enabled(cat) {
          if cat !in folders.listings {
            ok := false;
          } else {
            ok := ReadFolder(cat, folders.listings[cat]);
          }
        }
        ci := ci + 1;
      }
      if !ok {
        ScanFoldersStuck(st0, combinator, folders, dimension, CategoryOrder, ci);
      } else {
        assert CategoryOrder[..ci] == CategoryOrder;
      }
    }

    /** The file loop of lines 58-72 over one folder's files, stopping at the
        first file that raises. */
    method ReadFolder(cat: Category, files: seq<EmbeddingFile>) returns (ok: bool)
      modifies this`embeddingMap, this`trackIds
      ensures Scan(State(), ok) == ScanFiles(old(State()), cat, files, dimension)
    {
      ghost var before := State();
      ok := true;
      var fi := 0;
      while fi < |files| && ok
        invariant 0 <= fi <= |files|
        invariant Scan(State(), ok) == ScanFiles(before, cat, files[..fi], dimension)
      {
        assert files[..fi + 1][..fi] == files[..fi];
        ok := ReadFile(cat, files[fi]);
        fi := fi + 1;
      }
      if !ok {
        ScanFilesStuck(before, cat, files, dimension, fi);
      } else {
        assert files[..fi] == files;
      }
    }

    /** One pass of the file loop (lines 59-72): returns false where it
        raises, having changed nothing. */
    method ReadFile(cat: Category, f: EmbeddingFile) returns (ok: bool)
      modifies this`embeddingMap, this`trackIds
      ensures ok ==> LoadFile(old(State()), cat, f, dimension) == Some(State())
      ensures !ok ==> LoadFile(old(State()), cat, f, dimension) == None && State() == old(State())
    {
      ok := true;
      match f.content {
        case Unloadable =>
          ok := false;
        case Npy(a) =>
          if |a.shape| == 0 {
            ok := false;
          } else if a.shape[0] == dimension {
            var parsed := PythonInt.TrackIdOf(f.name);
            if parsed.None? {
              ok := false;
            } else {
              var id := parsed.value;
              ghost var em0 := embeddingMap;
              if id !in embeddingMap {
                embeddingMap := embeddingMap[id := map[]];
              }
              embeddingMap := embeddingMap[id := embeddingMap[id][cat := a]];
              assert embeddingMap == em0[id := (if id in em0 then em0[id] else map[])[cat := a]];
              if id !in trackIds {
                trackIds := trackIds + [id];
              }
            }
          }
      }
    }

    /** The second pass of lines 76-88: one combined vector per listed track
        that has at least one piece, appended in `trackIds` order. */
    method CombineVectors()
      requires forall t :: t in trackIds ==> t in embeddingMap
      modifies this`vectors
      ensures vectors == old(vectors) + CombineAll(embeddingMap, combinator, trackIds)
    {
      var i := 0;
      while i < |trackIds|
        invariant 0 <= i <= |trackIds|
        invariant vectors == old(vectors) + CombineAll(embeddingMap, combinator, trackIds[..i])
        invariant forall t :: t in trackIds ==> t in embeddingMap
      {
        assert trackIds[..i + 1][..i] == trackIds[..i];
        assert trackIds[i] in trackIds;
        var pieces := Pieces(embeddingMap[trackIds[i]], combinator);
        if pieces != [] {
          vectors := vectors + [Flatten(pieces)];
        }
        i := i + 1;
      }
      assert trackIds[..i] == trackIds;
    }

    /** `create_index` (lines 97-133): the effective dimension, the index
        type dispatch, IVF training, Cosine normalisation and the `add`. An
        unknown `index_type` adds to whatever index is already held. */
    method CreateIndex(normalizeRow: Vector -> Vector) returns (r: Result<(), DbError>)
      requires forall v :: |normalizeRow(v)| == |v|
      modifies this`index
      ensures DimensionalityCalculation(combinator).None? ==> r == Err(MultiplierUndefined) && index == old(index)
      ensures r.Ok? <==> CreateIndexSucceeds(old(index), combinator, dimension, indexType, vectors)
      ensures r.Ok? && KindFor(indexType).Some? ==>
        index == Some(FaissIndex(KindFor(indexType).value, dimension * DimensionalityCalculation(combinator).value,
                                 true, Prepared(indexType, vectors, normalizeRow)))
      ensures r.Ok? && KindFor(indexType).None? ==>
        old(index).Some? && index == Some(old(index).value.(stored := old(index).value.stored + vectors))
      ensures r.Err? && (ShapeOf(vectors).Ragged? || KindFor(indexType).None?) ==> index == old(index)
      ensures r.Err? && indexType == "Cosine" && ShapeOf(vectors).OneDim? ==> index == old(index)
      ensures r.Err? && DimensionalityCalculation(combinator).Some? && KindFor(indexType).Some? && !ShapeOf(vectors).Ragged?
              && !(indexType == "Cosine" && ShapeOf(vectors).OneDim?) ==>
        index == Some(FaissIndex(KindFor(indexType).value, dimension * DimensionalityCalculation(combinator).value,
                                 indexType != "IVFFlat", []))
    {
      var multiplier := DimensionalityCalculation(combinator);
      if multiplier.None? {
        return Err(MultiplierUndefined);
      }
      var effectiveDimension := dimension * multiplier.value;
      var shape := ShapeOf(vectors);
      if shape.Ragged? {
        return Err(RaggedVectors);
      }
      var embeddingsForIndex := vectors;
      if indexType == "FlatL2" {
        index := Some(FaissIndex(FlatL2Kind, effectiveDimension, true, []));
      } else if indexType == "IVFFlat" {
        index := Some(FaissIndex(IvfFlatKind(IvfPartitions), effectiveDimension, false, []));
        var trained := Train(index.value, embeddingsForIndex);
        if trained.Err? {
          return Err(trained.error);
        }
        index := Some(trained.value);
      } else if indexType == "Cosine" {
        var created := FaissIndex(InnerProductKind, effectiveDimension, true, []);
        if !shape.Matrix? {
          return Err(NotAMatrix);
        }
        embeddingsForIndex := NormalizeRows(embeddingsForIndex, normalizeRow);
        index := Some(created);
      }
      if index.None? {
        return Err(NoIndex);
      }
      assert shape.Matrix? ==> ShapeOf(embeddingsForIndex) == shape;
      var added := AddVectors(index.value, embeddingsForIndex);
      if added.Err? {
        return Err(added.error);
      }
      index := Some(added.value);
      assert KindFor(indexType).Some? ==> index.value.stored == Prepared(indexType, vectors, normalizeRow);
      r := Ok(());
    }

    /** `insert_metadata` (lines 135-145): the rows written to
        `vector_metadata`, which replace the table; the write itself is not
        part of this model. */
    method InsertMetadata() returns (r: Result<seq<MetadataRow>, DbError>)
      ensures DimensionalityCalculation(combinator).None? ==> r == Err(MultiplierUndefined)
      ensures r.Ok? <==> DimensionalityCalculation(combinator).Some? && |trackIds| == |vectors|
      ensures r.Ok? ==> |r.value| == |vectors| && forall i :: 0 <= i < |vectors| ==>
        r.value[i] == MetadataRow(i, trackIds[i], dimension * DimensionalityCalculation(combinator).value, indexType)
    {
      r := MetadataTable(|vectors|, trackIds, dimension, DimensionalityCalculation(combinator), indexType);
    }

    /** `save_index` (lines 147-150): `faiss.write_index` of the held index;
        writing `None` raises. */
    method SaveIndex() returns (r: Result<IndexFile, DbError>)
      ensures index.None? ==> r == Err(NoIndex)
      ensures index.Some? ==> r == Ok(Stored(index.value))
    {
      if index.None? {
        return Err(NoIndex);
      }
      r := Ok(Stored(index.value));
    }

    /** `load_index` (lines 152-161): a missing or unreadable file is logged
        and leaves the held index as it was. */
    method LoadIndex(file: IndexFile)
      modifies this`index
      ensures file.Stored? ==> index == Some(file.index)
      ensures !file.Stored? ==> index == old(index)
    {
      if file.Stored? {
        index := Some(file.index);
      }
    }
  }

  /** Saving the held index and loading the file back gives the same index.
      That FAISS's `write_index`/`read_index` round trip is exact is the
      library's promise; the `IndexFile` value, which stores the index
      itself, takes it as given. */
  method SaveLoadRoundTrip(db: VectorDatabase, reader: VectorDatabase)
    requires db.index.Some?
    modifies reader`index
    ensures reader.index == db.index
  {
    var saved := db.SaveIndex();
    reader.LoadIndex(saved.value);
  }
}
