/** similarity_engine/similarity_search.py: `SimilaritySearch` holds a
    `VectorDatabase` built without loading vectors or an index, reloads the
    persisted index on every query, and returns FAISS's neighbours as
    `(indices, distances)`.

    FAISS's `search` is the parameter `search`: given the index, the query
    array and `k`, it returns `(distances, labels)` or raises. */
module SimilaritySearchEngine {
  import opened Common
  import opened VectorDatabaseSetup

  /** The default `top_k` of `find_similar_embeddings`. */
  const DefaultTopK: int := 5

  /** A numpy array: its shape and its elements in row-major order. */
  datatype NdArray = NdArray(shape: seq<nat>, data: seq<real>)

  /** What FAISS's `search` returns: one row per query. */
  datatype Neighbours = Neighbours(distances: seq<seq<real>>, labels: seq<seq<int>>)

  /** FAISS's `index.search(x, k)`; None where it raises. */
  type SearchFn = (FaissIndex, NdArray, int) -> Option<Neighbours>

  datatype SearchError = IndexNotLoaded | SearchFailed

  /** What `find_similar_embeddings` returns, in its order. */
  datatype Hits = Hits(indices: seq<seq<int>>, distances: seq<seq<real>>)

  /** The number of elements an array of this shape holds. */
  function ElementCount(shape: seq<nat>): nat
  {
    if shape == [] then 1 else ElementCount(shape[..|shape| - 1]) * shape[|shape| - 1]
  }

  /** Lines 46-47: a one-dimensional query of length d becomes a single row
      of shape (1, d); any other array is passed on unchanged. */
  function AsQueryBatch(query: NdArray): (batch: NdArray)
    ensures batch.data == query.data
    ensures |query.shape| == 1 ==> batch.shape == [1, query.shape[0]]
    ensures |query.shape| != 1 ==> batch == query
  {
    if |query.shape| == 1 then NdArray([1, query.shape[0]], query.data) else query
  }

  /** Reshaping keeps the number of elements. */
  lemma ReshapeKeepsSize(query: NdArray)
    ensures ElementCount(AsQueryBatch(query).shape) == ElementCount(query.shape)
  {
    if |query.shape| == 1 {
      var b := AsQueryBatch(query).shape;
      assert b[..1] == [1];
      assert b[..1][..0] == [];
      assert query.shape[..0] == [];
    }
  }

  /** Lines 50-51: FAISS gives `(distances, labels)`; the caller gets
      `(indices, distances)`. */
  function SwapToIndicesFirst(result: Option<Neighbours>): (r: Result<Hits, SearchError>)
    ensures result.None? <==> r == Err(SearchFailed)
    ensures result.Some? ==> r.Ok? && r.value.indices == result.value.labels && r.value.distances == result.value.distances
  {
    match result
    case None => Err(SearchFailed)
    case Some(n) => Ok(Hits(n.labels, n.distances))
  }

  class SimilaritySearch {
    const vectorDb: VectorDatabase

    /** Line 23: the wrapped database loads no vectors and builds no index. */
    constructor (config: Config)
      ensures fresh(vectorDb)
      ensures vectorDb.index == None && vectorDb.vectors == [] && vectorDb.trackIds == [] && vectorDb.embeddingMap == map[]
      ensures vectorDb.combinator == config.combinator && vectorDb.dimension == config.dimension
      ensures vectorDb.indexType == config.indexType
    {
      vectorDb := new VectorDatabase(config);
    }

    /** `find_similar_embeddings` (lines 25-51): reload the index (a missing
        or unreadable file keeps the one held); with no index, raise
        ValueError rather than return nothing; otherwise search the reshaped
        query and return `(indices, distances)`. */
    method FindSimilarEmbeddings(file: IndexFile, search: SearchFn, queryVector: NdArray, topK: int := DefaultTopK)
      returns (r: Result<Hits, SearchError>)
      modifies vectorDb`index
      ensures file.Stored? ==> vectorDb.index == Some(file.index)
      ensures !file.Stored? ==> vectorDb.index == old(vectorDb.index)
      ensures vectorDb.index.None? <==> r == Err(IndexNotLoaded)
      ensures vectorDb.index.Some? ==>
        r == SwapToIndicesFirst(search(vectorDb.index.value, AsQueryBatch(queryVector), topK))
    {
      vectorDb.LoadIndex(file);
      if vectorDb.index.None? {
        return Err(IndexNotLoaded);
      }
      var query := AsQueryBatch(queryVector);
      var found := search(vectorDb.index.value, query, topK);
      r := SwapToIndicesFirst(found);
    }
  }

  /** A fresh engine whose index file is missing or unreadable always
      raises: the reload finds nothing and nothing was held before. */
  method SearchWithoutIndexFails(config: Config, file: IndexFile, search: SearchFn, queryVector: NdArray)
    returns (r: Result<Hits, SearchError>)
    requires !file.Stored?
    ensures r == Err(IndexNotLoaded)
  {
    var engine := new SimilaritySearch(config);
    r := engine.FindSimilarEmbeddings(file, search, queryVector);
  }
}
