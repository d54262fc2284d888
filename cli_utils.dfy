/** The settings the query and vectorise commands read (vectorcode.cli_utils.Config).
    Only the fields those two commands consult are kept. */
module CliUtils {
  import opened Base

  datatype Config = Config(
    projectRoot: string,
    query: Option<seq<string>>,         // None when no query string was given
    queryExclude: seq<string>,          // glob patterns of files to keep out of the results
    nResult: int,
    queryMultiplier: int,               // <= 0 means "ask for every document in the store"
    reranker: Option<string>,           // None selects the mean-distance reranker
    useAbsolutePath: bool,
    pipe: bool,                         // machine-readable output instead of human output
    files: Option<seq<string>>,         // the file globs given to vectorise
    recursive: bool,
    force: bool                         // index git-ignored files too
  )
}
