/** The `query` subcommand (subcommands/query/__init__.py): look up the project's
    collection, chunk the query strings, expand the exclusion globs, size and send one batched
    store query, rerank the per-chunk answers, keep the ranked files that still exist, and
    print them. Every call into the store, the chunker, the file system and the JSON
    serialiser is a field of QueryEnv; printed lines are collected in QueryRun. */
module Query {
  import opened Base
  import opened Aggregation
  import opened CliUtils
  import opened Reranker

  /** How fetching the collection (and checking its embedding function) ended. */
  datatype Lookup =
    | Found(efMatches: bool)   // the collection exists; whether verify_ef accepted it
    | NoCollection             // ValueError or InvalidCollectionException
    | DimensionMismatch        // InvalidDimensionException
    | LookupIndexError         // IndexError

  /** The store's `{"path": {"$nin": paths}}` metadata filter. */
  datatype Where = PathNotIn(paths: seq<string>)

  /** The arguments of the batched `collection.query` call. */
  datatype StoreRequest = StoreRequest(texts: seq<string>, nResults: int, where: Option<Where>)

  /** The store either answers or raises IndexError ("no results found"). */
  datatype StoreAnswer = Answered(result: QueryResult) | NoResults

  /** One entry of `structured_result`. */
  datatype Record = Record(path: string, document: string)

  /** How `query` ended: a return code, or an exception escaping from the reranker. */
  datatype Exit = Returned(code: int) | Raised(error: RerankError)

  /** Everything `query` does that can be observed: how it ended, the store query it sent
      (if any), and the lines it printed to stdout and stderr, one element per `print`. */
  datatype QueryRun = QueryRun(exit: Exit, request: Option<StoreRequest>, stdout: seq<string>, stderr: seq<string>)

  /** The world `query` runs in. */
  datatype QueryEnv = QueryEnv(
    lookup: Lookup,
    count: nat,                                 // collection.count()
    chunk: string -> seq<string>,               // StringChunker(chunk_size, overlap_ratio).chunk
    expandGlobs: seq<string> -> seq<string>,    // expand_globs
    expandPath: string -> string,               // expand_path(_, True)
    isFile: string -> bool,                     // os.path.isfile
    answer: StoreRequest -> StoreAnswer,        // collection.query
    modelRerank: (seq<string>, string, int, QueryResult) -> seq<string>,  // the model-backed reranker
    read: string -> string,                     // open(path).read()
    absPath: string -> string,                  // os.path.abspath
    relPath: (string, string) -> string,        // os.path.relpath
    dumps: seq<Record> -> string                // json.dumps
  )

  // ---------------------------------------------------------------------------
  // Query chunks

  /** The chunks of every query string, concatenated in query order. */
  function ChunkAll(queries: seq<string>, chunk: string -> seq<string>): seq<string>
  {
    if queries == [] then []
    else ChunkAll(queries[..|queries| - 1], chunk) + chunk(queries[|queries| - 1])
  }

  /** No query, or an empty list of queries, gives no chunks. */
  function QueryChunks(query: Option<seq<string>>, chunk: string -> seq<string>): seq<string>
  {
    if query.Some? then ChunkAll(query.value, chunk) else []
  }

  /** Chunking two lists of queries one after the other is chunking their concatenation. */
  lemma {:induction false} ChunkAllAppend(a: seq<string>, b: seq<string>, chunk: string -> seq<string>)
    ensures ChunkAll(a + b, chunk) == ChunkAll(a, chunk) + ChunkAll(b, chunk)
    decreases |b|
  {
    if b == [] {
      assert a + b == a;
    } else {
      var b', last := b[..|b| - 1], b[|b| - 1];
      var ab := a + b;
      assert ab[..|ab| - 1] == a + b' && ab[|ab| - 1] == last;
      assert ChunkAll(ab, chunk) == ChunkAll(a + b', chunk) + chunk(last);
      assert ChunkAll(b, chunk) == ChunkAll(b', chunk) + chunk(last);
      ChunkAllAppend(a, b', chunk);
    }
  }

  /** The chunks of the first query come first, followed by those of the rest in order. */
  lemma ChunkAllCons(q: string, rest: seq<string>, chunk: string -> seq<string>)
    ensures ChunkAll([q] + rest, chunk) == chunk(q) + ChunkAll(rest, chunk)
  {
    ChunkAllAppend([q], rest, chunk);
    assert [q][..0] == [];
  }

  /** The `for q in configs.query: query_chunks.extend(chunker.chunk(q))` loop. */
  method BuildQueryChunks(query: Option<seq<string>>, chunk: string -> seq<string>) returns (chunks: seq<string>)
    ensures chunks == QueryChunks(query, chunk)
  {
    chunks := [];
    if query.Some? {
      var queries := query.value;
      for i := 0 to |queries|
        invariant chunks == ChunkAll(queries[..i], chunk)
      {
        assert queries[..i + 1][..i] == queries[..i];
        chunks := chunks + chunk(queries[i]);
      }
      assert queries[..|queries|] == queries;
    }
  }

  // ---------------------------------------------------------------------------
  // Exclusions, pool size, filter

  /** `[expand_path(i, True) for i in globbed if os.path.isfile(i)]`. */
  function Exclusions(globbed: seq<string>, isFile: string -> bool, expandPath: string -> string): (r: seq<string>)
    ensures |r| <= |globbed|
  {
    Map(Filter(globbed, isFile), expandPath)
  }

  /** A path is excluded exactly when it is the expansion of an expanded glob that is a file. */
  lemma ExclusionsMembers(globbed: seq<string>, isFile: string -> bool, expandPath: string -> string, x: string)
    ensures x in Exclusions(globbed, isFile, expandPath)
        <==> exists g :: g in globbed && isFile(g) && expandPath(g) == x
  {
    var kept := Filter(globbed, isFile);
    var r := Exclusions(globbed, isFile, expandPath);
    FilterMembers(globbed, isFile);
    if x in r {
      var k :| 0 <= k < |r| && r[k] == x;
      assert kept[k] in kept;
    }
    if exists g :: g in globbed && isFile(g) && expandPath(g) == x {
      var g :| g in globbed && isFile(g) && expandPath(g) == x;
      var k :| 0 <= k < |kept| && kept[k] == g;
      assert r[k] == x;
    }
  }

  /** `n_results`: the collection size, unless a positive multiplier asks for
      `n_result * query_multiplier` candidates per chunk. */
  function PoolSize(count: nat, nResult: int, multiplier: int): (n: int)
    ensures multiplier > 0 ==> n == nResult * multiplier
    ensures multiplier <= 0 ==> n == count
  {
    if multiplier > 0 then nResult * multiplier else count
  }

  /** With a non-negative n_result and an integer multiplier, the pool is never smaller than
      n_result, so taking `max(n_result, n_result * query_multiplier)` would change nothing. */
  lemma PoolSizeCoversResult(count: nat, nResult: int, multiplier: int)
    requires multiplier > 0 && nResult >= 0
    ensures PoolSize(count, nResult, multiplier) >= nResult
    ensures PoolSize(count, nResult, multiplier) == if nResult >= nResult * multiplier then nResult else nResult * multiplier
  {
    assert nResult * multiplier == nResult + nResult * (multiplier - 1);
  }

  /** The filter is absent for an empty exclusion list, and otherwise lists exactly it. */
  function WhereFilter(exclude: seq<string>): (w: Option<Where>)
    ensures w.None? <==> |exclude| == 0
    ensures w.Some? ==> w.value.paths == exclude
  {
    if |exclude| > 0 then Some(PathNotIn(exclude)) else None
  }

  /** Whether the store lets a candidate with this path through the filter. */
  function Admits(w: Option<Where>, path: string): bool
  {
    match w
    case None => true
    case Some(PathNotIn(paths)) => path !in paths
  }

  lemma WhereFilterAdmits(exclude: seq<string>, path: string)
    ensures Admits(WhereFilter(exclude), path) <==> path !in exclude
  {
  }

  // ---------------------------------------------------------------------------
  // Materialising and printing

  function OutputPath(configs: Config, env: QueryEnv, path: string): string
  {
    if configs.useAbsolutePath then env.absPath(path) else env.relPath(path, configs.projectRoot)
  }

  /** The records of the files that still exist, in ranking order. */
  function Records(kept: seq<string>, configs: Config, env: QueryEnv): (r: seq<Record>)
    ensures |r| == |kept|
  {
    seq(|kept|, k requires 0 <= k < |kept| => Record(OutputPath(configs, env, kept[k]), env.read(kept[k])))
  }

  /** Each record holds the file's content under the path chosen by `use_absolute_path`;
      the choice changes the paths only, never the contents or their order. */
  lemma RecordsPathMode(kept: seq<string>, configs: Config, env: QueryEnv, absolute: bool)
    ensures var r := Records(kept, configs, env);
      forall k :: 0 <= k < |kept| ==>
        && r[k].document == env.read(kept[k])
        && r[k].path == (if configs.useAbsolutePath then env.absPath(kept[k])
                         else env.relPath(kept[k], configs.projectRoot))
    ensures var r, r' := Records(kept, configs, env), Records(kept, configs.(useAbsolutePath := absolute), env);
      |r'| == |r| && forall k :: 0 <= k < |r| ==> r'[k].document == r[k].document
  {
  }

  lemma RecordsSnoc(kept: seq<string>, path: string, configs: Config, env: QueryEnv)
    ensures Records(kept + [path], configs, env)
         == Records(kept, configs, env) + [Record(OutputPath(configs, env, path), env.read(path))]
  {
    assert forall k :: 0 <= k < |kept| ==> (kept + [path])[k] == kept[k];
  }

  function Warning(path: string): string
  {
    path + " is no longer a valid file! Please re-run vectorcode vectorise to refresh the database."
  }

  function Warnings(missing: seq<string>): (r: seq<string>)
    ensures |r| == |missing|
  {
    Map(missing, Warning)
  }

  /** The `for path in aggregated_results` loop: a record for each path that is a file,
      a warning on stderr for each that is not. */
  method Materialize(paths: seq<string>, configs: Config, env: QueryEnv)
    returns (records: seq<Record>, warnings: seq<string>)
    ensures records == Records(Filter(paths, env.isFile), configs, env)
    ensures warnings == Warnings(Filter(paths, Negation(env.isFile)))
  {
    records, warnings := [], [];
    for i := 0 to |paths|
      invariant records == Records(Filter(paths[..i], env.isFile), configs, env)
      invariant warnings == Warnings(Filter(paths[..i], Negation(env.isFile)))
    {
      var path := paths[i];
      FilterPrefixSnoc(paths, i, env.isFile);
      FilterPrefixSnoc(paths, i, Negation(env.isFile));
      if env.isFile(path) {
        RecordsSnoc(Filter(paths[..i], env.isFile), path, configs, env);
        var document := env.read(path);
        var outputPath := OutputPath(configs, env, path);
        records := records + [Record(outputPath, document)];
      } else {
        MapSnoc(Filter(paths[..i], Negation(env.isFile)), path, Warning);
        warnings := warnings + [Warning(path)];
      }
    }
    assert paths[..|paths|] == paths;
  }

  /** Every ranked path yields either a record (kept in ranking order) or a warning. */
  lemma MaterializedAccounting(paths: seq<string>, isFile: string -> bool)
    ensures IsSubsequence(Filter(paths, isFile), paths)
    ensures forall p :: p in Filter(paths, isFile) <==> p in paths && isFile(p)
    ensures |Filter(paths, isFile)| + |Filter(paths, Negation(isFile))| == |paths|
  {
    FilterIsSubsequence(paths, isFile);
    FilterMembers(paths, isFile);
    FilterSplitsLength(paths, isFile);
  }

  /** The lines printed for record `idx`: its path, its content, and a blank separator
      unless it is the last record. */
  function Block(records: seq<Record>, idx: nat): seq<string>
    requires idx < |records|
  {
    ["Path: " + records[idx].path, "Content: \n" + records[idx].document]
      + (if idx != |records| - 1 then [""] else [])
  }

  function HumanLinesUpTo(records: seq<Record>, n: nat): seq<string>
    requires n <= |records|
  {
    if n == 0 then [] else HumanLinesUpTo(records, n - 1) + Block(records, n - 1)
  }

  function HumanLines(records: seq<Record>): seq<string>
  {
    HumanLinesUpTo(records, |records|)
  }

  /** The `for idx, result in enumerate(structured_result)` printing loop. */
  method EmitHuman(records: seq<Record>) returns (lines: seq<string>)
    ensures lines == HumanLines(records)
  {
    lines := [];
    for idx := 0 to |records|
      invariant lines == HumanLinesUpTo(records, idx)
    {
      lines := lines + ["Path: " + records[idx].path];
      lines := lines + ["Content: \n" + records[idx].document];
      if idx != |records| - 1 {
        lines := lines + [""];
      }
    }
  }

  lemma {:induction false} HumanLayoutUpTo(records: seq<Record>, n: nat)
    requires n <= |records|
    ensures var lines := HumanLinesUpTo(records, n);
      && |lines| == 3 * n - (if n == |records| && n > 0 then 1 else 0)
      && (forall i :: 0 <= i < n ==> lines[3 * i] == "Path: " + records[i].path)
      && (forall i :: 0 <= i < n ==> lines[3 * i + 1] == "Content: \n" + records[i].document)
      && (forall i :: 0 <= i < n && i < |records| - 1 ==> lines[3 * i + 2] == "")
  {
    if n > 0 {
      HumanLayoutUpTo(records, n - 1);
      var prev := HumanLinesUpTo(records, n - 1);
      assert |prev| == 3 * (n - 1);
      var lines := HumanLinesUpTo(records, n);
      assert lines == prev + Block(records, n - 1);
      forall i | 0 <= i < n
        ensures lines[3 * i] == "Path: " + records[i].path
        ensures lines[3 * i + 1] == "Content: \n" + records[i].document
      {
        if i < n - 1 {
          assert lines[3 * i] == prev[3 * i];
          assert lines[3 * i + 1] == prev[3 * i + 1];
        }
      }
    }
  }

  /** The human layout: for each record a "Path:" line and a "Content:" line, consecutive
      records separated by exactly one blank line, and nothing after the last record. */
  lemma HumanLayout(records: seq<Record>)
    ensures var lines := HumanLines(records);
      && |lines| == (if records == [] then 0 else 3 * |records| - 1)
      && (forall i :: 0 <= i < |records| ==> lines[3 * i] == "Path: " + records[i].path)
      && (forall i :: 0 <= i < |records| ==> lines[3 * i + 1] == "Content: \n" + records[i].document)
      && (forall k :: 0 <= k < |lines| ==> (lines[k] == "" <==> k % 3 == 2))
      && (records != [] ==> lines[|lines| - 1] == "Content: \n" + records[|records| - 1].document)
  {
    HumanLayoutUpTo(records, |records|);
    var lines := HumanLines(records);
    forall k | 0 <= k < |lines| ensures lines[k] == "" <==> k % 3 == 2 {
      var i := k / 3;
      assert k == 3 * i + k % 3;
      if k % 3 == 0 {
        assert lines[k] == "Path: " + records[i].path;
        assert lines[k][..6] == "Path: ";
      } else if k % 3 == 1 {
        assert lines[k] == "Content: \n" + records[i].document;
        assert lines[k][..9] == "Content: ";
      }
    }
    if records != [] {
      assert |lines| - 1 == 3 * (|records| - 1) + 1;
    }
  }

  // ---------------------------------------------------------------------------
  // The command

  function LookupMessage(lookup: Lookup, projectRoot: string): seq<string>
  {
    match lookup
    case Found(_) => []
    case NoCollection => ["There's no existing collection for " + projectRoot]
    case DimensionMismatch => ["The collection was embedded with a different embedding model."]
    case LookupIndexError => ["Failed to get the collection. Please check your config."]
  }

  /** Each lookup failure prints exactly one message and a found collection prints
      nothing here; the missing-collection message names the project root, and the
      dimension mismatch and the index error print different messages. */
  lemma LookupMessagesDistinguish(a: Lookup, b: Lookup, projectRoot: string)
    ensures a.Found? <==> LookupMessage(a, projectRoot) == []
    ensures !a.Found? ==> |LookupMessage(a, projectRoot)| == 1
    ensures a.DimensionMismatch? && b.LookupIndexError? ==> LookupMessage(a, projectRoot) != LookupMessage(b, projectRoot)
    ensures a.NoCollection? ==> var m := LookupMessage(a, projectRoot)[0];
      |m| >= |projectRoot| && m[|m| - |projectRoot|..] == projectRoot
  {
  }

  function Banner(pipe: bool): seq<string>
  {
    if pipe then [] else ["Starting querying..."]
  }

  /** The configuration once `query_exclude` has been replaced by the expanded paths. */
  function Expanded(configs: Config, env: QueryEnv): Config
  {
    configs.(queryExclude := Exclusions(env.expandGlobs(configs.queryExclude), env.isFile, env.expandPath))
  }

  /** The store query that `query` sends. */
  function Request(configs: Config, env: QueryEnv): StoreRequest
  {
    StoreRequest(
      QueryChunks(configs.query, env.chunk),
      PoolSize(env.count, configs.nResult, configs.queryMultiplier),
      WhereFilter(Expanded(configs, env).queryExclude))
  }

  /** Reranker selection: the mean-distance reranker when none is named, otherwise the
      named model-backed reranker, which also sees the query chunks. */
  function Reranked(configs: Config, chunks: seq<string>, res: QueryResult, env: QueryEnv): Result<seq<string>, RerankError>
  {
    if configs.reranker.None? then MeanRank(res, configs.nResult)
    else Ok(env.modelRerank(chunks, configs.reranker.value, configs.nResult, res))
  }

  /** Without a named reranker the mean-distance reranker decides, ignoring the query
      chunks, and its paths are distinct; a named reranker is handed the query chunks and
      its list is taken as it is. */
  lemma RerankerSelection(configs: Config, chunks: seq<string>, other: seq<string>, res: QueryResult, env: QueryEnv)
    ensures configs.reranker.None? ==>
      && Reranked(configs, chunks, res, env) == Reranked(configs, other, res, env)
      && Reranked(configs, chunks, res, env) == MeanRank(res, configs.nResult)
      && (Reranked(configs, chunks, res, env).Ok? ==> Distinct(Reranked(configs, chunks, res, env).value))
    ensures configs.reranker.Some? ==>
      Reranked(configs, chunks, res, env) == Ok(env.modelRerank(chunks, configs.reranker.value, configs.nResult, res))
  {
    if configs.reranker.None? {
      match Pool(res) {
        case Err(_) =>
        case Ok(cs) => RankingDistinct(cs, configs.nResult);
      }
    }
  }

  function Output(configs: Config, env: QueryEnv, records: seq<Record>): seq<string>
  {
    if configs.pipe then [env.dumps(records)] else HumanLines(records)
  }

  /** Reading the ranked files that still exist and printing them: JSON in pipe mode,
      the human layout otherwise; each missing file gives one warning. */
  method Present(paths: seq<string>, configs: Config, env: QueryEnv) returns (stdout: seq<string>, stderr: seq<string>)
    ensures stdout == Output(configs, env, Records(Filter(paths, env.isFile), configs, env))
    ensures stderr == Warnings(Filter(paths, Negation(env.isFile)))
  {
    var structured;
    structured, stderr := Materialize(paths, configs, env);
    if configs.pipe {
      stdout := [env.dumps(structured)];
    } else {
      stdout := EmitHuman(structured);
    }
  }

  /** What `query` does once the store has answered: an exception from the reranker
      escapes; otherwise the existing files are printed and each missing one is warned about. */
  function AnsweredRun(configs: Config, env: QueryEnv, request: StoreRequest,
                       ranked: Result<seq<string>, RerankError>): QueryRun
  {
    match ranked
    case Err(e) => QueryRun(Raised(e), Some(request), Banner(configs.pipe), [])
    case Ok(paths) =>
      QueryRun(Returned(0), Some(request),
               Banner(configs.pipe) + Output(configs, env, Records(Filter(paths, env.isFile), configs, env)),
               Warnings(Filter(paths, Negation(env.isFile))))
  }

  method Query(configs: Config, env: QueryEnv) returns (run: QueryRun, after: Config)
    // Any failure to obtain a usable collection returns 1 before anything else happens.
    ensures env.lookup != Found(true) ==>
      after == configs && run == QueryRun(Returned(1), None, [], LookupMessage(env.lookup, configs.projectRoot))
    ensures env.lookup == Found(true) ==> after == Expanded(configs, env)
    // An empty collection returns 1 without querying the store.
    ensures env.lookup == Found(true) && env.count == 0 ==>
      run == QueryRun(Returned(1), None, Banner(configs.pipe), ["Empty collection!"])
    ensures env.lookup == Found(true) && env.count > 0 ==> run.request == Some(Request(configs, env))
    // IndexError from the store: return 0 and print nothing more.
    ensures env.lookup == Found(true) && env.count > 0 && env.answer(Request(configs, env)).NoResults? ==>
      run == QueryRun(Returned(0), Some(Request(configs, env)), Banner(configs.pipe), [])
    ensures env.lookup == Found(true) && env.count > 0 && env.answer(Request(configs, env)).Answered? ==>
      var request := Request(configs, env);
      run == AnsweredRun(after, env, request, Reranked(after, request.texts, env.answer(request).result, env))
  {
    after := configs;
    if env.lookup != Found(true) {
      run := QueryRun(Returned(1), None, [], LookupMessage(env.lookup, configs.projectRoot));
      return;
    }
    var stdout: seq<string> := [];
    if !configs.pipe {
      stdout := stdout + ["Starting querying..."];
    }
    assert stdout == Banner(configs.pipe);
    var queryChunks := BuildQueryChunks(configs.query, env.chunk);
    var globbed := env.expandGlobs(configs.queryExclude);
    after := after.(queryExclude := Exclusions(globbed, env.isFile, env.expandPath));
    if env.count == 0 {
      run := QueryRun(Returned(1), None, stdout, ["Empty collection!"]);
      return;
    }
    var numQuery: int := env.count;
    if after.queryMultiplier > 0 {
      numQuery := after.nResult * after.queryMultiplier;
    }
    var filteredFiles: Option<Where>;
    if |after.queryExclude| > 0 {
      filteredFiles := Some(PathNotIn(after.queryExclude));
    } else {
      filteredFiles := None;
    }
    var request := StoreRequest(queryChunks, numQuery, filteredFiles);
    assert request == Request(configs, env);
    run := Search(after, env, request, stdout);
  }

  /** Querying the store and handling its answer: an IndexError returns 0 with nothing
      more printed; otherwise the results are reranked and presented. */
  method Search(configs: Config, env: QueryEnv, request: StoreRequest, stdout: seq<string>) returns (run: QueryRun)
    requires stdout == Banner(configs.pipe)
    ensures env.answer(request).NoResults? ==> run == QueryRun(Returned(0), Some(request), stdout, [])
    ensures env.answer(request).Answered? ==>
      run == AnsweredRun(configs, env, request, Reranked(configs, request.texts, env.answer(request).result, env))
  {
    var answer := env.answer(request);
    if answer.NoResults? {
      run := QueryRun(Returned(0), Some(request), stdout, []);
      return;
    }
    var results := answer.result;
    var aggregated: Result<seq<string>, RerankError>;
    if configs.reranker.None? {
      var reranker := new ArithmeticMeanReranker(configs);
      aggregated := reranker.Rerank(results);
    } else {
      aggregated := Ok(env.modelRerank(request.texts, configs.reranker.value, configs.nResult, results));
    }
    assert aggregated == Reranked(configs, request.texts, results, env);
    if aggregated.Err? {
      run := QueryRun(Raised(aggregated.error), Some(request), stdout, []);
      return;
    }
    var output, warnings := Present(aggregated.value, configs, env);
    run := QueryRun(Returned(0), Some(request), stdout + output, warnings);
  }
}
