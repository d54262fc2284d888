/** The default reranker object (reranker.py): it remembers n_result when built and
    aggregates the store's per-chunk answers by mean distance. */
module Reranker {
  import opened Base
  import opened Sorting
  import opened Aggregation
  import opened CliUtils

  class ArithmeticMeanReranker {
    const nResult: int

    /** RerankerBase.__init__: capture n_result from the configuration. */
    constructor (configs: Config)
      ensures nResult == configs.nResult
    {
      nResult := configs.nResult;
    }

    /** Fills the insertion-ordered `documents` table chunk by chunk and position by
        position, then sorts its keys stably by mean distance and keeps the first n_result.
        The result is the specification MeanRank, whose properties the lemmas of
        Aggregation establish. */
    method Rerank(results: QueryResult) returns (r: Result<seq<string>, RerankError>)
      ensures r == MeanRank(results, nResult)
    {
      if results.metadatas.None? {
        return Err(MetadatasMissing);
      }
      if results.distances.None? {
        return Err(DistancesMissing);
      }
      var metas, dists := results.metadatas.value, results.distances.value;
      var n := |results.ids|;
      var keys: seq<string> := [];
      var documents: map<string, seq<real>> := map[];
      ghost var pool: seq<Candidate> := [];
      ghost var whole := Gathered(metas, dists, 0, n);
      assert whole.Ok? ==> [] + whole.value == whole.value;
      var i := 0;
      while i < n
        invariant i <= n
        invariant Pool(results) == AfterPrefix(pool, Gathered(metas, dists, i, n))
        invariant TableOf(pool, keys, documents)
      {
        if i >= |metas| || i >= |dists| {
          return Err(ChunkIndexOutOfRange);
        }
        var chunkMetas, chunkDistances := metas[i], dists[i];
        var paths := ChunkPaths(chunkMetas);
        if paths.None? {
          return Err(PathMissing);
        }
        if |paths.value| != |chunkDistances| {
          return Err(LengthMismatch);
        }
        ghost var chunk := Zip(paths.value, chunkDistances);
        assert ChunkCandidates(metas, dists, i) == Ok(chunk);
        GatheredStep(metas, dists, i, n, pool, chunk);
        keys, documents := AddChunk(keys, documents, pool, paths.value, chunkDistances);
        pool := pool + chunk;
        i := i + 1;
      }
      assert pool + [] == pool;
      var ranked := TopByMean(keys, documents, pool);
      r := Ok(ranked);
    }

    /** `sorted(documents.keys(), key=mean)[:n_result]` over a table built from `pool`. */
    method TopByMean(keys: seq<string>, documents: map<string, seq<real>>, ghost pool: seq<Candidate>)
      returns (ranked: seq<string>)
      requires TableOf(pool, keys, documents)
      ensures ranked == Ranking(pool, nResult)
    {
      var scored := seq(|keys|, k requires 0 <= k < |keys| && keys[k] in documents
                                  => Scored(keys[k], Mean(documents[keys[k]])));
      TableScores(pool, keys, documents, scored);
      var docs := Paths(SortByMean(scored));
      ranked := docs[..SliceEnd(|docs|, nResult)];
    }

    /** The inner loop of rerank: `documents[path].append(distance)` for each pair of one
        chunk, adding a key the first time a path is seen. */
    method AddChunk(keys: seq<string>, documents: map<string, seq<real>>, ghost pool: seq<Candidate>,
                    paths: seq<string>, distances: seq<real>)
      returns (keys': seq<string>, documents': map<string, seq<real>>)
      requires |paths| == |distances|
      requires TableOf(pool, keys, documents)
      ensures TableOf(pool + Zip(paths, distances), keys', documents')
    {
      ghost var chunk := Zip(paths, distances);
      keys', documents' := keys, documents;
      assert pool + chunk[..0] == pool;
      var j := 0;
      while j < |distances|
        invariant j <= |distances|
        invariant TableOf(pool + chunk[..j], keys', documents')
      {
        var path, distance := paths[j], distances[j];
        ghost var nextKeys, nextDocuments := TableSnoc(pool + chunk[..j], keys', documents', chunk[j]);
        AppendPrefixSnoc(pool, chunk, j);
        if path in documents' {
          documents' := documents'[path := documents'[path] + [distance]];
        } else {
          keys' := keys' + [path];
          documents' := documents'[path := [distance]];
        }
        j := j + 1;
      }
      assert chunk[..j] == chunk;
    }
  }
}
