/** What ArithmeticMeanReranker.rerank computes, as functions over the store's answer:
    the candidates of every query chunk are pooled in chunk order, the distances seen for
    each distinct path are collected in an insertion-ordered table, the paths are sorted
    stably by the arithmetic mean of their distances (smaller is better), and the first
    n_result are returned. Distances are exact reals. */
module Aggregation {
  import opened Base
  import opened Sorting

  /** The "path" entry of one candidate's metadata, as `str()` renders it; None when the
      metadata has no "path" key. */
  datatype Meta = Meta(path: Option<string>)

  /** The store's answer to a batched query: one inner list per query chunk. The two
      optional fields are None when the store did not include them. */
  datatype QueryResult = QueryResult(
    ids: seq<seq<string>>,
    metadatas: Option<seq<seq<Meta>>>,
    distances: Option<seq<seq<real>>>
  )

  /** The exceptions rerank can raise: the two AssertionErrors on missing fields, an
      IndexError when a chunk has no metadata or distance list, a KeyError for metadata
      without "path", and the AssertionError on a length mismatch. */
  datatype RerankError =
    | MetadatasMissing
    | DistancesMissing
    | ChunkIndexOutOfRange
    | PathMissing
    | LengthMismatch

  /** One (path, distance) pair of one query chunk. */
  datatype Candidate = Candidate(path: string, distance: real)

  /** `[str(meta["path"]) for meta in chunk_metas]`; None when some metadata lacks "path". */
  function ChunkPaths(metas: seq<Meta>): (r: Option<seq<string>>)
    ensures r.Some? <==> forall k :: 0 <= k < |metas| ==> metas[k].path.Some?
    ensures r.Some? ==> |r.value| == |metas|
    ensures r.Some? ==> forall k :: 0 <= k < |metas| ==> metas[k].path == Some(r.value[k])
  {
    if forall k :: 0 <= k < |metas| ==> metas[k].path.Some? then
      Some(seq(|metas|, k requires 0 <= k < |metas| => metas[k].path.value))
    else None
  }

  /** `zip(chunk_distances, paths)` for lists of equal length. */
  function Zip(paths: seq<string>, dists: seq<real>): (r: seq<Candidate>)
    requires |paths| == |dists|
    ensures |r| == |paths|
    ensures forall k :: 0 <= k < |r| ==> r[k] == Candidate(paths[k], dists[k])
  {
    seq(|paths|, k requires 0 <= k < |paths| => Candidate(paths[k], dists[k]))
  }

  /** The candidates of query chunk `i`, or the exception reading them raises. */
  function ChunkCandidates(metas: seq<seq<Meta>>, dists: seq<seq<real>>, i: nat): Result<seq<Candidate>, RerankError>
  {
    if i >= |metas| || i >= |dists| then Err(ChunkIndexOutOfRange)
    else match ChunkPaths(metas[i])
      case None => Err(PathMissing)
      case Some(paths) =>
        if |paths| != |dists[i]| then Err(LengthMismatch) else Ok(Zip(paths, dists[i]))
  }

  /** The candidates of chunks i, i+1, ..., n-1 concatenated in order, or the first
      exception met on the way. */
  function Gathered(metas: seq<seq<Meta>>, dists: seq<seq<real>>, i: nat, n: nat): Result<seq<Candidate>, RerankError>
    requires i <= n
    decreases n - i
  {
    if i == n then Ok([])
    else match ChunkCandidates(metas, dists, i)
      case Err(e) => Err(e)
      case Ok(c) =>
        match Gathered(metas, dists, i + 1, n)
        case Err(e) => Err(e)
        case Ok(rest) => Ok(c + rest)
  }

  /** The pool once `prefix` has been read and `rest` is what the remaining chunks give. */
  function AfterPrefix(prefix: seq<Candidate>, rest: Result<seq<Candidate>, RerankError>): Result<seq<Candidate>, RerankError>
  {
    match rest
    case Err(e) => Err(e)
    case Ok(cs) => Ok(prefix + cs)
  }

  /** Every candidate of every query chunk, in chunk order then position order. */
  function Pool(res: QueryResult): Result<seq<Candidate>, RerankError>
  {
    if res.metadatas.None? then Err(MetadatasMissing)
    else if res.distances.None? then Err(DistancesMissing)
    else Gathered(res.metadatas.value, res.distances.value, 0, |res.ids|)
  }

  /** The keys of the `documents` table in insertion order: each distinct path once, at its
      first appearance. */
  function Order(cs: seq<Candidate>): (r: seq<string>)
    ensures Distinct(r)
    ensures forall k :: 0 <= k < |cs| ==> cs[k].path in r
    ensures |r| <= |cs|
  {
    if cs == [] then []
    else
      var o := Order(cs[..|cs| - 1]);
      if cs[|cs| - 1].path in o then o else o + [cs[|cs| - 1].path]
  }

  /** Every key of the table is the path of some candidate. */
  lemma {:induction false} OrderOnlyCandidates(cs: seq<Candidate>, p: string)
    requires p in Order(cs)
    ensures exists k :: 0 <= k < |cs| && cs[k].path == p
  {
    var init := cs[..|cs| - 1];
    if p in Order(init) {
      OrderOnlyCandidates(init, p);
      var k :| 0 <= k < |init| && init[k].path == p;
      assert cs[k] == init[k];
    } else {
      assert cs[|cs| - 1].path == p;
    }
  }

  /** `documents[p]`: the distances of the candidates whose path is `p`, in pool order. */
  function DistancesFor(cs: seq<Candidate>, p: string): seq<real>
  {
    if cs == [] then []
    else
      DistancesFor(cs[..|cs| - 1], p)
        + (if cs[|cs| - 1].path == p then [cs[|cs| - 1].distance] else [])
  }

  function Sum(ds: seq<real>): real
  {
    if ds == [] then 0.0 else Sum(ds[..|ds| - 1]) + ds[|ds| - 1]
  }

  /** Arithmetic mean. The empty case never arises for a key of the table. */
  function Mean(ds: seq<real>): real
  {
    if ds == [] then 0.0 else Sum(ds) / (|ds| as real)
  }

  function MeanDistance(cs: seq<Candidate>, p: string): real
  {
    Mean(DistancesFor(cs, p))
  }

  /** The table's keys, each with its sort key. */
  function Scores(cs: seq<Candidate>): (r: seq<Scored>)
    ensures Paths(r) == Order(cs)
    ensures forall k :: 0 <= k < |r| ==> r[k].mean == MeanDistance(cs, r[k].path)
  {
    var o := Order(cs);
    seq(|o|, k requires 0 <= k < |o| => Scored(o[k], MeanDistance(cs, o[k])))
  }

  /** The length of Python's `s[:n]`: a negative `n` counts from the end. */
  function SliceEnd(len: nat, n: int): (e: nat)
    ensures e <= len
    ensures n >= 0 ==> e == if n < len then n else len
  {
    if n >= 0 then (if n < len then n else len)
    else if len + n > 0 then len + n else 0
  }

  /** The reranked paths: `sorted(documents.keys(), key=mean)[:n]`. */
  function Ranking(cs: seq<Candidate>, n: int): seq<string>
  {
    var sorted := Paths(SortByMean(Scores(cs)));
    sorted[..SliceEnd(|sorted|, n)]
  }

  /** ArithmeticMeanReranker(n_result).rerank(res). */
  function MeanRank(res: QueryResult, n: int): Result<seq<string>, RerankError>
  {
    match Pool(res)
    case Err(e) => Err(e)
    case Ok(cs) => Ok(Ranking(cs, n))
  }

  // ---------------------------------------------------------------------------
  // The distance table

  /** `keys` and `documents` are the insertion-ordered table built from `pool`. */
  ghost predicate TableOf(pool: seq<Candidate>, keys: seq<string>, documents: map<string, seq<real>>) {
    && keys == Order(pool)
    && (forall p :: p in documents <==> p in keys)
    && (forall p :: p in documents ==> documents[p] == DistancesFor(pool, p))
  }

  /** Appending one distance to the table keeps it the table of the longer pool. */
  lemma TableSnoc(pool: seq<Candidate>, keys: seq<string>, documents: map<string, seq<real>>, x: Candidate)
      returns (keys': seq<string>, documents': map<string, seq<real>>)
    requires TableOf(pool, keys, documents)
    ensures keys' == if x.path in documents then keys else keys + [x.path]
    ensures documents' == documents[x.path := if x.path in documents then documents[x.path] + [x.distance] else [x.distance]]
    ensures TableOf(pool + [x], keys', documents')
  {
    OrderAndDistancesSnoc(pool, x);
    keys' := if x.path in documents then keys else keys + [x.path];
    documents' := documents[x.path := if x.path in documents then documents[x.path] + [x.distance] else [x.distance]];
    forall p | p in documents' ensures documents'[p] == DistancesFor(pool + [x], p) {
      if p != x.path {
        assert documents'[p] == documents[p];
      } else if x.path !in documents {
        assert DistancesFor(pool, p) == [] by {
          DistancesForNonEmpty(pool, p);
        }
      }
    }
  }

  /** Reading one more chunk moves its candidates from the unread rest to the prefix. */
  lemma GatheredStep(metas: seq<seq<Meta>>, dists: seq<seq<real>>, i: nat, n: nat,
                     prefix: seq<Candidate>, chunk: seq<Candidate>)
    requires i < n && ChunkCandidates(metas, dists, i) == Ok(chunk)
    ensures AfterPrefix(prefix, Gathered(metas, dists, i, n))
         == AfterPrefix(prefix + chunk, Gathered(metas, dists, i + 1, n))
  {
    var rest := Gathered(metas, dists, i + 1, n);
    if rest.Ok? {
      assert prefix + (chunk + rest.value) == (prefix + chunk) + rest.value;
    }
  }

  /** The sort keys computed from the table are Scores of its pool. */
  lemma TableScores(pool: seq<Candidate>, keys: seq<string>, documents: map<string, seq<real>>, scored: seq<Scored>)
    requires TableOf(pool, keys, documents)
    requires |scored| == |keys|
    requires forall k :: 0 <= k < |keys| ==> keys[k] in documents && scored[k] == Scored(keys[k], Mean(documents[keys[k]]))
    ensures scored == Scores(pool)
  {
  }

  /** One more candidate: its path becomes a new key unless already present, and its
      distance goes at the end of that path's list. */
  lemma OrderAndDistancesSnoc(cs: seq<Candidate>, x: Candidate)
    ensures Order(cs + [x]) == if x.path in Order(cs) then Order(cs) else Order(cs) + [x.path]
    ensures forall p :: DistancesFor(cs + [x], p)
                        == DistancesFor(cs, p) + (if x.path == p then [x.distance] else [])
  {
    assert (cs + [x])[..|cs + [x]| - 1] == cs;
  }

  /** Pooling chunk after chunk: the list for `p` is the list from the earlier chunks
      followed by the list from the later ones. */
  lemma {:induction false} DistancesForAppend(a: seq<Candidate>, b: seq<Candidate>, p: string)
    ensures DistancesFor(a + b, p) == DistancesFor(a, p) + DistancesFor(b, p)
    decreases |b|
  {
    if b != [] {
      var b' := b[..|b| - 1];
      assert (a + b)[..|a + b| - 1] == a + b';
      DistancesForAppend(a, b', p);
    } else {
      assert a + b == a;
    }
  }

  /** A chunk in which `p` does not occur adds nothing to its list: no score is imputed. */
  lemma {:induction false} DistancesForAbsent(cs: seq<Candidate>, p: string)
    requires forall k :: 0 <= k < |cs| ==> cs[k].path != p
    ensures DistancesFor(cs, p) == []
  {
    if cs != [] {
      DistancesForAbsent(cs[..|cs| - 1], p);
    }
  }

  /** A path's list is non-empty exactly when the path is a key of the table, so its mean
      is always the mean of at least one distance. */
  lemma {:induction false} DistancesForNonEmpty(cs: seq<Candidate>, p: string)
    ensures |DistancesFor(cs, p)| > 0 <==> p in Order(cs)
  {
    if cs != [] {
      DistancesForNonEmpty(cs[..|cs| - 1], p);
    }
  }

  /** Order lists the paths by first appearance: the path at position i occurs in the pool
      before any occurrence of the path at a later position j. */
  lemma {:induction false} OrderIsFirstAppearance(cs: seq<Candidate>, i: nat, j: nat)
    requires i < j < |Order(cs)|
    ensures exists a :: 0 <= a < |cs| && cs[a].path == Order(cs)[i]
                      && forall b :: 0 <= b <= a ==> cs[b].path != Order(cs)[j]
  {
    assert cs != [];
    var init := cs[..|cs| - 1];
    var o := Order(init);
    if j < |o| {
      OrderIsFirstAppearance(init, i, j);
      assert Order(cs)[i] == o[i] && Order(cs)[j] == o[j];
      var a :| 0 <= a < |init| && init[a].path == o[i]
               && forall b :: 0 <= b <= a ==> init[b].path != o[j];
      FirstAppearancePrefix(cs, init, a, o[i], o[j]);
    } else {
      NewPathAppearsLast(cs, init, o, i);
    }
  }

  lemma FirstAppearancePrefix(cs: seq<Candidate>, init: seq<Candidate>, a: nat, p: string, q: string)
    requires |init| <= |cs| && init == cs[..|init|] && a < |init|
    requires init[a].path == p && forall b :: 0 <= b <= a ==> init[b].path != q
    ensures exists a' :: 0 <= a' < |cs| && cs[a'].path == p && forall b :: 0 <= b <= a' ==> cs[b].path != q
  {
    assert cs[a] == init[a];
    forall b | 0 <= b <= a ensures cs[b].path != q {
      assert cs[b] == init[b];
    }
  }

  lemma NewPathAppearsLast(cs: seq<Candidate>, init: seq<Candidate>, o: seq<string>, i: nat)
    requires cs != [] && init == cs[..|cs| - 1] && o == Order(init)
    requires i < |o| < |Order(cs)|
    ensures exists a :: 0 <= a < |cs| && cs[a].path == Order(cs)[i]
                      && forall b :: 0 <= b <= a ==> cs[b].path != Order(cs)[|o|]
  {
    var p := cs[|cs| - 1].path;
    assert p !in o && Order(cs) == o + [p];
    OrderOnlyCandidates(init, o[i]);
    var a :| 0 <= a < |init| && init[a].path == o[i];
    assert forall b :: 0 <= b < |init| ==> init[b].path in o;
    FirstAppearancePrefix(cs, init, a, o[i], p);
  }

  /** The number of returned candidates' distinct paths is the length of Order. */
  lemma DistinctPathCount(cs: seq<Candidate>)
    ensures |Order(cs)| == |set k | 0 <= k < |cs| :: cs[k].path|
  {
    var o := Order(cs);
    DistinctCardinality(o);
    forall x | x in o ensures exists k :: 0 <= k < |cs| && cs[k].path == x {
      OrderOnlyCandidates(cs, x);
    }
    assert (set x | x in o) == (set k | 0 <= k < |cs| :: cs[k].path);
  }

  // ---------------------------------------------------------------------------
  // The sorted, sliced result

  /** The facts about the sorted key list that the ranking lemmas share. */
  lemma SortedScores(cs: seq<Candidate>)
    ensures var t := SortByMean(Scores(cs));
      && |t| == |Order(cs)|
      && SortedByMean(t)
      && DistinctPaths(t)
      && StableWrt(t, Scores(cs))
      && (forall k :: 0 <= k < |t| ==> t[k].path in Order(cs) && t[k].mean == MeanDistance(cs, t[k].path))
      && (forall p :: p in Order(cs) ==> p in Paths(t))
  {
    var s := Scores(cs);
    var t := SortByMean(s);
    SortByMeanPermutes(s);
    SortByMeanSorted(s);
    SortByMeanStable(s);
    ScoresDistinct(cs);
    SortByMeanKeepsDistinct(s);
    forall k | 0 <= k < |t| ensures t[k].path in Order(cs) && t[k].mean == MeanDistance(cs, t[k].path) {
      SortedEntry(cs, k);
    }
    forall p | p in Order(cs) ensures p in Paths(t) {
      SortedCovers(cs, p);
    }
  }

  lemma ScoresDistinct(cs: seq<Candidate>)
    ensures DistinctPaths(Scores(cs))
  {
    var s := Scores(cs);
    forall i, j | 0 <= i < j < |s| ensures s[i].path != s[j].path {
      assert s[i].path == Paths(s)[i] && s[j].path == Paths(s)[j];
    }
  }

  /** Each sorted entry is a key of the table with its mean distance. */
  lemma SortedEntry(cs: seq<Candidate>, k: nat)
    requires k < |SortByMean(Scores(cs))|
    ensures var t := SortByMean(Scores(cs));
      t[k].path in Order(cs) && t[k].mean == MeanDistance(cs, t[k].path)
  {
    var s := Scores(cs);
    var t := SortByMean(s);
    SortByMeanPermutes(s);
    var m := PermutedEntry(t, s, k);
    assert Paths(s)[m] == s[m].path;
  }

  /** Every key of the table is among the sorted paths. */
  lemma SortedCovers(cs: seq<Candidate>, p: string)
    requires p in Order(cs)
    ensures p in Paths(SortByMean(Scores(cs)))
  {
    var s := Scores(cs);
    var t := SortByMean(s);
    SortByMeanPermutes(s);
    var m :| 0 <= m < |Paths(s)| && Paths(s)[m] == p;
    var k := PermutedEntry(s, t, m);
    assert Paths(t)[k] == t[k].path;
  }

  /** The returned list has no duplicate paths. */
  lemma RankingDistinct(cs: seq<Candidate>, n: int)
    ensures Distinct(Ranking(cs, n))
  {
    SortedScores(cs);
    var t := SortByMean(Scores(cs));
    var r := Ranking(cs, n);
    forall i, j | 0 <= i < j < |r| ensures r[i] != r[j] {
      assert r[i] == t[i].path && r[j] == t[j].path;
    }
  }

  /** For n >= 0 the result has min(n, number of distinct candidate paths) entries. */
  lemma RankingLength(cs: seq<Candidate>, n: int)
    requires n >= 0
    ensures var d := |set k | 0 <= k < |cs| :: cs[k].path|;
      |Ranking(cs, n)| == if n < d then n else d
  {
    SortedScores(cs);
    DistinctPathCount(cs);
  }

  /** Every returned path is the path of some candidate. */
  lemma RankingFromCandidates(cs: seq<Candidate>, n: int, p: string)
    requires p in Ranking(cs, n)
    ensures exists k :: 0 <= k < |cs| && cs[k].path == p
  {
    SortedScores(cs);
    var t := SortByMean(Scores(cs));
    var r := Ranking(cs, n);
    var i :| 0 <= i < |r| && r[i] == p;
    assert r[i] == t[i].path;
    OrderOnlyCandidates(cs, p);
  }

  /** Returned paths are in non-decreasing order of mean distance. */
  lemma RankingSorted(cs: seq<Candidate>, n: int)
    ensures var r := Ranking(cs, n);
      forall i, j :: 0 <= i < j < |r| ==> MeanDistance(cs, r[i]) <= MeanDistance(cs, r[j])
  {
    SortedScores(cs);
    var t := SortByMean(Scores(cs));
    var r := Ranking(cs, n);
    forall i, j | 0 <= i < j < |r| ensures MeanDistance(cs, r[i]) <= MeanDistance(cs, r[j]) {
      assert r[i] == t[i].path && r[j] == t[j].path;
    }
  }

  /** Top-k: a candidate path that was not returned has a mean no smaller than that of any
      returned path. */
  lemma RankingTopK(cs: seq<Candidate>, n: int, p: string, q: string)
    requires p in Order(cs) && p !in Ranking(cs, n)
    requires q in Ranking(cs, n)
    ensures MeanDistance(cs, q) <= MeanDistance(cs, p)
  {
    SortedScores(cs);
    var t := SortByMean(Scores(cs));
    var sorted := Paths(t);
    var e := SliceEnd(|sorted|, n);
    var r := Ranking(cs, n);
    assert r == sorted[..e];
    var a :| 0 <= a < |r| && r[a] == q;
    var b :| 0 <= b < |sorted| && sorted[b] == p;
    PrefixHas(sorted, e, b);
    assert sorted[a] == t[a].path && sorted[b] == t[b].path;
  }

  lemma PrefixHas<T>(s: seq<T>, e: nat, b: nat)
    requires e <= |s| && b < |s|
    ensures b < e ==> s[b] in s[..e]
  {
    if b < e {
      assert s[..e][b] == s[b];
    }
  }

  /** Stability: of two returned paths with equal means, the one first met in the pool is
      returned first. */
  lemma RankingStable(cs: seq<Candidate>, n: int, i: nat, j: nat)
    requires i < j < |Ranking(cs, n)|
    requires MeanDistance(cs, Ranking(cs, n)[i]) == MeanDistance(cs, Ranking(cs, n)[j])
    ensures exists a, b :: 0 <= a < b < |Order(cs)| && Order(cs)[a] == Ranking(cs, n)[i]
                                                   && Order(cs)[b] == Ranking(cs, n)[j]
  {
    SortedScores(cs);
    var s := Scores(cs);
    var t := SortByMean(s);
    var r := Ranking(cs, n);
    assert r[i] == t[i].path && r[j] == t[j].path;
    assert Precedes(s, t[i], t[j]);
    var a, b :| 0 <= a < b < |s| && s[a] == t[i] && s[b] == t[j];
    assert Paths(s)[a] == s[a].path && Paths(s)[b] == s[b].path;
  }

  // ---------------------------------------------------------------------------
  // The pool

  /** `x` is the pair at position `j` of query chunk `c`. */
  ghost predicate FromChunk(metas: seq<seq<Meta>>, dists: seq<seq<real>>, c: int, j: int, x: Candidate) {
    && 0 <= c < |metas| && 0 <= j && c < |dists| && j < |metas[c]| && j < |dists[c]|
    && metas[c][j].path == Some(x.path) && dists[c][j] == x.distance
  }

  /** Every pooled candidate is the (path, distance) pair at some position of some
      query chunk in range. */
  lemma {:induction false} GatheredProvenance(metas: seq<seq<Meta>>, dists: seq<seq<real>>, i: nat, n: nat, cs: seq<Candidate>, k: nat)
    requires i <= n && Gathered(metas, dists, i, n) == Ok(cs) && k < |cs|
    ensures exists c, j :: i <= c < n && FromChunk(metas, dists, c, j, cs[k])
    decreases n - i
  {
    assert i < n;
    var first := ChunkCandidates(metas, dists, i).value;
    var rest := Gathered(metas, dists, i + 1, n).value;
    var paths := ChunkPaths(metas[i]).value;
    assert cs == first + rest;
    if k < |first| {
      assert cs[k] == Candidate(paths[k], dists[i][k]);
      assert FromChunk(metas, dists, i, k, cs[k]);
    } else {
      GatheredProvenance(metas, dists, i + 1, n, rest, k - |first|);
      assert cs[k] == rest[k - |first|];
    }
  }

  /** With no query chunks, or only empty ones, the pool is empty. */
  lemma {:induction false} GatheredEmpty(metas: seq<seq<Meta>>, dists: seq<seq<real>>, i: nat, n: nat)
    requires i <= n && n <= |metas| && n <= |dists|
    requires forall c :: i <= c < n ==> metas[c] == [] && dists[c] == []
    ensures Gathered(metas, dists, i, n) == Ok([])
    decreases n - i
  {
    if i < n {
      GatheredEmpty(metas, dists, i + 1, n);
      assert ChunkPaths(metas[i]) == Some([]);
      assert Zip([], dists[i]) == [];
      assert ChunkCandidates(metas, dists, i) == Ok([]);
      var g: seq<Candidate> := [];
      assert Gathered(metas, dists, i + 1, n) == Ok(g);
      assert Gathered(metas, dists, i, n) == Ok(g + g);
      assert g + g == g;
    }
  }

  /** Zero chunks, or only empty chunk lists, give an empty ranking. */
  lemma MeanRankEmpty(res: QueryResult, n: int)
    requires res.metadatas.Some? && res.distances.Some?
    requires |res.ids| <= |res.metadatas.value| && |res.ids| <= |res.distances.value|
    requires forall c :: 0 <= c < |res.ids| ==> res.metadatas.value[c] == [] && res.distances.value[c] == []
    ensures MeanRank(res, n) == Ok([])
  {
    GatheredEmpty(res.metadatas.value, res.distances.value, 0, |res.ids|);
    assert Order([]) == [];
  }

  /** The pool exists exactly when every chunk in range reads without an exception. */
  lemma {:induction false} GatheredOkIff(metas: seq<seq<Meta>>, dists: seq<seq<real>>, i: nat, n: nat)
    requires i <= n
    ensures Gathered(metas, dists, i, n).Ok? <==> forall c :: i <= c < n ==> ChunkCandidates(metas, dists, c).Ok?
    decreases n - i
  {
    if i < n {
      GatheredOkIff(metas, dists, i + 1, n);
    }
  }

  /** The exception that escapes is the one of the first chunk that fails. */
  lemma {:induction false} GatheredFirstError(metas: seq<seq<Meta>>, dists: seq<seq<real>>, i: nat, n: nat, c: nat)
    requires i <= c < n
    requires forall c' :: i <= c' < c ==> ChunkCandidates(metas, dists, c').Ok?
    requires ChunkCandidates(metas, dists, c).Err?
    ensures Gathered(metas, dists, i, n) == Err(ChunkCandidates(metas, dists, c).error)
    decreases n - i
  {
    if i < c {
      GatheredFirstError(metas, dists, i + 1, n, c);
    }
  }

  /** Every (path, distance) pair of every chunk in range is pooled. */
  lemma {:induction false} GatheredCovers(metas: seq<seq<Meta>>, dists: seq<seq<real>>, i: nat, n: nat,
                                          cs: seq<Candidate>, c: nat, j: nat)
    requires i <= c < n && Gathered(metas, dists, i, n) == Ok(cs)
    requires c < |metas| && j < |metas[c]|
    ensures c < |dists| && j < |dists[c]| && metas[c][j].path.Some?
    ensures Candidate(metas[c][j].path.value, dists[c][j]) in cs
    decreases n - i
  {
    var first := ChunkCandidates(metas, dists, i).value;
    var rest := Gathered(metas, dists, i + 1, n).value;
    assert cs == first + rest;
    if c == i {
      var paths := ChunkPaths(metas[i]).value;
      assert first[j] == Candidate(paths[j], dists[i][j]);
      assert cs[j] == first[j];
    } else {
      GatheredCovers(metas, dists, i + 1, n, rest, c, j);
      var k :| 0 <= k < |rest| && rest[k] == Candidate(metas[c][j].path.value, dists[c][j]);
      assert cs[|first| + k] == rest[k];
    }
  }

  /** The paths the store returned for the query chunks in range. */
  ghost function ChunkPathSet(res: QueryResult): set<string>
    requires res.metadatas.Some?
  {
    var metas := res.metadatas.value;
    set c, j | 0 <= c < |res.ids| && c < |metas| && 0 <= j < |metas[c]| && metas[c][j].path.Some? :: metas[c][j].path.value
  }

  /** The pooled paths are exactly the paths of every chunk's candidates. */
  lemma PoolPaths(res: QueryResult, cs: seq<Candidate>)
    requires Pool(res) == Ok(cs)
    ensures (set k | 0 <= k < |cs| :: cs[k].path) == ChunkPathSet(res)
  {
    var metas, dists := res.metadatas.value, res.distances.value;
    var n := |res.ids|;
    forall k | 0 <= k < |cs| ensures cs[k].path in ChunkPathSet(res) {
      GatheredProvenance(metas, dists, 0, n, cs, k);
    }
    forall p | p in ChunkPathSet(res) ensures p in (set k | 0 <= k < |cs| :: cs[k].path) {
      var c, j :| 0 <= c < n && c < |metas| && 0 <= j < |metas[c]| && metas[c][j].path.Some? && metas[c][j].path.value == p;
      GatheredCovers(metas, dists, 0, n, cs, c, j);
      var k :| 0 <= k < |cs| && cs[k] == Candidate(p, dists[c][j]);
    }
  }

  /** rerank returns a list exactly when both fields are present and every chunk in range
      reads without an exception. */
  lemma MeanRankOk(res: QueryResult, n: int)
    ensures MeanRank(res, n).Ok? <==>
      && res.metadatas.Some? && res.distances.Some?
      && forall c :: 0 <= c < |res.ids| ==> ChunkCandidates(res.metadatas.value, res.distances.value, c).Ok?
  {
    if res.metadatas.Some? && res.distances.Some? {
      GatheredOkIff(res.metadatas.value, res.distances.value, 0, |res.ids|);
    }
  }

  /** The failures, in the order the code checks them: the two fields, then the first
      chunk in range that fails. */
  lemma MeanRankErrors(res: QueryResult, n: int, c: nat)
    ensures res.metadatas.None? ==> MeanRank(res, n) == Err(MetadatasMissing)
    ensures res.metadatas.Some? && res.distances.None? ==> MeanRank(res, n) == Err(DistancesMissing)
    ensures res.metadatas.Some? && res.distances.Some? && c < |res.ids|
            && (forall c' :: 0 <= c' < c ==> ChunkCandidates(res.metadatas.value, res.distances.value, c').Ok?)
            && ChunkCandidates(res.metadatas.value, res.distances.value, c).Err?
            ==> MeanRank(res, n) == Err(ChunkCandidates(res.metadatas.value, res.distances.value, c).error)
  {
    if res.metadatas.Some? && res.distances.Some? && c < |res.ids|
       && (forall c' :: 0 <= c' < c ==> ChunkCandidates(res.metadatas.value, res.distances.value, c').Ok?)
       && ChunkCandidates(res.metadatas.value, res.distances.value, c).Err? {
      GatheredFirstError(res.metadatas.value, res.distances.value, 0, |res.ids|, c);
    }
  }

  /** For n >= 0, rerank returns min(n, number of distinct paths over all chunks) paths. */
  lemma MeanRankLength(res: QueryResult, n: int)
    requires MeanRank(res, n).Ok? && n >= 0
    ensures var d := |ChunkPathSet(res)|;
      |MeanRank(res, n).value| == if n < d then n else d
  {
    var cs := Pool(res).value;
    PoolPaths(res, cs);
    RankingLength(cs, n);
  }

  /** Top-k over the store's answer: a path of any chunk that was not returned has a mean
      no smaller than that of any returned path. */
  lemma MeanRankTopK(res: QueryResult, n: int, p: string, q: string)
    requires MeanRank(res, n).Ok? && res.metadatas.Some?
    requires p in ChunkPathSet(res) && p !in MeanRank(res, n).value
    requires q in MeanRank(res, n).value
    ensures MeanDistance(Pool(res).value, q) <= MeanDistance(Pool(res).value, p)
  {
    var cs := Pool(res).value;
    PoolPaths(res, cs);
    var k :| 0 <= k < |cs| && cs[k].path == p;
    assert p in Order(cs);
    RankingTopK(cs, n, p, q);
  }
}
