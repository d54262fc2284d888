/** The `vectorise` subcommand (subcommands/vectorise.py): upsert every matched file into
    the project's collection, keyed by its absolute path, then delete the entries whose
    recorded path is no longer a file, and report the three counters. The collection is an
    object whose entry table is updated in place; the file system, glob expansion,
    gitignore matching and the JSON serialiser are fields of VectoriseEnv. */
module Vectorise {
  import opened Base
  import opened CliUtils

  /** One stored document: its text and the "path" entry of its metadata, None when the
      metadata has no "path". */
  datatype Entry = Entry(document: string, path: Option<string>)

  /** The `stats` dictionary. */
  datatype Stats = Stats(add: nat, update: nat, removed: nat)

  /** The world `vectorise` runs in. */
  datatype VectoriseEnv = VectoriseEnv(
    efMatches: bool,                                  // verify_ef(collection, configs)
    expandGlobs: (seq<string>, bool) -> seq<string>,  // expand_globs(files, recursive=...)
    isFile: string -> bool,                           // os.path.isfile
    read: string -> string,                           // the whole text of a file
    ignoreMatch: (string, string) -> bool,            // GitIgnoreSpec.from_lines(text).match_file(file)
    expandPath: string -> string,                     // str(expand_path(str(file), True))
    dumps: Stats -> string                            // json.dumps
  )

  /** Some entry's metadata path is `p`: `collection.get(where={"path": p})` finds ids. */
  predicate PathStored(entries: map<string, Entry>, p: string) {
    exists id :: id in entries && entries[id].path == Some(p)
  }

  /** The entries left after deleting every entry whose metadata path is in `paths`. */
  function Keep(entries: map<string, Entry>, paths: set<string>): (r: map<string, Entry>)
    ensures forall id :: id in r <==> id in entries && !(entries[id].path.Some? && entries[id].path.value in paths)
    ensures forall id :: id in r ==> r[id] == entries[id]
  {
    map id | id in entries && !(entries[id].path.Some? && entries[id].path.value in paths) :: entries[id]
  }

  /** The project's collection in the vector store, as a table from id to entry. */
  class Collection {
    var entries: map<string, Entry>

    constructor (entries: map<string, Entry>)
      ensures this.entries == entries
    {
      this.entries := entries;
    }

    /** Whether `collection.get(where={"path": p})` returns any id. */
    method HasPath(p: string) returns (found: bool)
      ensures found <==> PathStored(entries, p)
    {
      found := exists id :: id in entries && entries[id].path == Some(p);
    }

    /** `collection.update`: replaces the entry with this id; an unknown id is ignored. */
    method Update(id: string, document: string, path: string)
      modifies this
      ensures entries == if id in old(entries) then old(entries)[id := Entry(document, Some(path))] else old(entries)
    {
      if id in entries {
        entries := entries[id := Entry(document, Some(path))];
      }
    }

    /** `collection.add`: inserts a new entry; an id already present is left as it is. */
    method Add(id: string, document: string, path: string)
      modifies this
      ensures entries == if id in old(entries) then old(entries) else old(entries)[id := Entry(document, Some(path))]
    {
      if id !in entries {
        entries := entries[id := Entry(document, Some(path))];
      }
    }

    /** `collection.delete(where={"path": p})`. */
    method DeleteWherePath(p: string)
      modifies this
      ensures entries == Keep(old(entries), {p})
    {
      entries := Keep(entries, {p});
    }

    /** `collection.get(include=[metadatas])`: every id once, in an order the store chooses,
        with the metadata path of its entry. */
    method Snapshot() returns (ids: seq<string>, paths: seq<Option<string>>)
      ensures Distinct(ids)
      ensures forall id :: id in ids <==> id in entries
      ensures |paths| == |ids|
      ensures forall k :: 0 <= k < |ids| ==> ids[k] in entries && paths[k] == entries[ids[k]].path
    {
      ids, paths := [], [];
      var rest := entries.Keys;
      while rest != {}
        invariant forall id :: id in entries <==> id in rest || id in ids
        invariant forall id :: id in rest ==> id !in ids
        invariant Distinct(ids)
        invariant |paths| == |ids|
        invariant forall k :: 0 <= k < |ids| ==> ids[k] in entries && paths[k] == entries[ids[k]].path
        decreases |rest|
      {
        var id :| id in rest;
        ids, paths := ids + [id], paths + [entries[id].path];
        rest := rest - {id};
      }
    }
  }

  // ---------------------------------------------------------------------------
  // Which files are indexed

  /** `os.path.join(root, name)` for a relative `name`. */
  function Join(root: string, name: string): (r: string)
    ensures |r| >= |name| && r[|r| - |name|..] == name
    ensures root != "" ==> |r| >= |root| && r[..|root|] == root
    ensures |r| <= |root| + 1 + |name|
  {
    if root == [] || root[|root| - 1] == '/' then root + name else root + "/" + name
  }

  /** The gitignore rules of the project, if it has a `.gitignore` file. */
  function IgnoreSpec(configs: Config, env: VectoriseEnv): Option<string>
  {
    var gitignore := Join(configs.projectRoot, ".gitignore");
    if env.isFile(gitignore) then Some(env.read(gitignore)) else None
  }

  /** A file is skipped exactly when not forced, there are gitignore rules, and they match it. */
  predicate Skipped(force: bool, spec: Option<string>, env: VectoriseEnv, file: string) {
    !force && spec.Some? && env.ignoreMatch(spec.value, file)
  }

  /** The files that are stored: not skipped, and not empty. */
  function Indexable(force: bool, spec: Option<string>, env: VectoriseEnv): string -> bool
  {
    file => !Skipped(force, spec, env, file) && env.read(file) != ""
  }

  // ---------------------------------------------------------------------------
  // The upsert pass

  /** The collection's entries and the two upsert counters. */
  datatype Upsert = Upsert(entries: map<string, Entry>, added: nat, updated: nat)

  /** Storing one non-empty file under `id`: an update when some entry already carries that
      path, an add otherwise. Exactly one counter goes up and no other id is touched. */
  function Store(u: Upsert, id: string, content: string): (r: Upsert)
    ensures r.added + r.updated == u.added + u.updated + 1
    ensures r.updated == u.updated + 1 <==> PathStored(u.entries, id)
    ensures forall other :: other != id ==>
      (other in r.entries <==> other in u.entries) && (other in r.entries ==> r.entries[other] == u.entries[other])
    // The content is written when the id and the stored path agree; otherwise ChromaDB
    // ignores the call (an update of an unknown id, an add of an existing id).
    ensures (id in u.entries <==> PathStored(u.entries, id)) ==> r.entries == u.entries[id := Entry(content, Some(id))]
    ensures (id in u.entries) != PathStored(u.entries, id) ==> r.entries == u.entries
  {
    var entry := Entry(content, Some(id));
    if PathStored(u.entries, id) then
      Upsert(if id in u.entries then u.entries[id := entry] else u.entries, u.added, u.updated + 1)
    else
      Upsert(if id in u.entries then u.entries else u.entries[id := entry], u.added + 1, u.updated)
  }

  /** A stale entry: when the id is taken by an entry recorded under another path, the
      file is counted as added although its content is not stored. */
  lemma StaleIdCountedNotStored(u: Upsert, id: string, content: string, other: string)
    requires id in u.entries && u.entries[id].path == Some(other) && other != id
    requires !PathStored(u.entries, id)
    ensures Store(u, id, content).added == u.added + 1
    ensures Store(u, id, content).entries == u.entries
    ensures content != u.entries[id].document ==> Store(u, id, content).entries[id].document != content
  {
  }

  /** One iteration of the file loop. */
  function IndexFile(u: Upsert, file: string, force: bool, spec: Option<string>, env: VectoriseEnv): Upsert
  {
    if Skipped(force, spec, env, file) then u
    else
      var content := env.read(file);
      if content == "" then u else Store(u, env.expandPath(file), content)
  }

  /** The file loop over `files`, in order. */
  function IndexAll(u: Upsert, files: seq<string>, force: bool, spec: Option<string>, env: VectoriseEnv): Upsert
  {
    if files == [] then u
    else IndexFile(IndexAll(u, files[..|files| - 1], force, spec, env), files[|files| - 1], force, spec, env)
  }

  /** One file adds one to `add + update` when it is indexable, and nothing otherwise. */
  lemma IndexFileCounts(u: Upsert, file: string, force: bool, spec: Option<string>, env: VectoriseEnv)
    ensures var r := IndexFile(u, file, force, spec, env);
      && r.added + r.updated == u.added + u.updated + (if Indexable(force, spec, env)(file) then 1 else 0)
      && r.added >= u.added && r.updated >= u.updated
  {
  }

  /** `add + update` grows by the number of indexable files, duplicates included. */
  lemma {:induction false} IndexCounts(u: Upsert, files: seq<string>, force: bool, spec: Option<string>, env: VectoriseEnv)
    ensures var r := IndexAll(u, files, force, spec, env);
      r.added + r.updated == u.added + u.updated + |Filter(files, Indexable(force, spec, env))|
    ensures IndexAll(u, files, force, spec, env).added >= u.added
    ensures IndexAll(u, files, force, spec, env).updated >= u.updated
  {
    if files != [] {
      var init, last := files[..|files| - 1], files[|files| - 1];
      IndexCounts(u, init, force, spec, env);
      IndexFileCounts(IndexAll(u, init, force, spec, env), last, force, spec, env);
      FilterSnoc(init, last, Indexable(force, spec, env));
      assert files == init + [last];
    }
  }

  /** Forcing indexes exactly what a project without a `.gitignore` would: the rules are
      then never consulted. */
  lemma {:induction false} ForcedIgnoresRules(u: Upsert, files: seq<string>, spec: Option<string>, env: VectoriseEnv)
    ensures IndexAll(u, files, true, spec, env) == IndexAll(u, files, false, None, env)
  {
    if files != [] {
      ForcedIgnoresRules(u, files[..|files| - 1], spec, env);
    }
  }

  /** Files the gitignore rules match, when not forced, leave the table and both counters
      as they were, whatever their content. */
  lemma {:induction false} SkippedLeaveNoTrace(u: Upsert, files: seq<string>, force: bool, spec: Option<string>, env: VectoriseEnv)
    requires forall j :: 0 <= j < |files| ==> Skipped(force, spec, env, files[j])
    ensures IndexAll(u, files, force, spec, env) == u
  {
    if files != [] {
      SkippedLeaveNoTrace(u, files[..|files| - 1], force, spec, env);
    }
  }

  /** An id that no indexable file expands to keeps its entry (or its absence). */
  lemma {:induction false} IndexFrame(u: Upsert, files: seq<string>, force: bool, spec: Option<string>, env: VectoriseEnv, id: string)
    requires forall j :: 0 <= j < |files| && Indexable(force, spec, env)(files[j]) ==> env.expandPath(files[j]) != id
    ensures var r := IndexAll(u, files, force, spec, env);
      (id in r.entries <==> id in u.entries) && (id in r.entries ==> r.entries[id] == u.entries[id])
  {
    if files != [] {
      var init := files[..|files| - 1];
      assert forall j :: 0 <= j < |init| ==> init[j] == files[j];
      IndexFrame(u, init, force, spec, env, id);
    }
  }

  /** Entries written by `vectorise` carry their own id as metadata path. */
  ghost predicate WellKeyed(entries: map<string, Entry>) {
    forall id :: id in entries ==> entries[id].path == Some(id)
  }

  /** In a well-keyed table, storing a file writes its entry under its path, and it is an
      update exactly when that path was already a key. */
  lemma StoreWellKeyed(u: Upsert, id: string, content: string)
    requires WellKeyed(u.entries)
    ensures Store(u, id, content).entries == u.entries[id := Entry(content, Some(id))]
    ensures Store(u, id, content).updated == u.updated + (if id in u.entries then 1 else 0)
    ensures WellKeyed(Store(u, id, content).entries)
  {
    assert PathStored(u.entries, id) <==> id in u.entries by {
      if id in u.entries {
        assert u.entries[id].path == Some(id);
      }
    }
  }

  lemma {:induction false} IndexKeepsWellKeyed(u: Upsert, files: seq<string>, force: bool, spec: Option<string>, env: VectoriseEnv)
    requires WellKeyed(u.entries)
    ensures WellKeyed(IndexAll(u, files, force, spec, env).entries)
  {
    if files != [] {
      var prev := IndexAll(u, files[..|files| - 1], force, spec, env);
      IndexKeepsWellKeyed(u, files[..|files| - 1], force, spec, env);
      var file := files[|files| - 1];
      if !Skipped(force, spec, env, file) && env.read(file) != "" {
        StoreWellKeyed(prev, env.expandPath(file), env.read(file));
      }
    }
  }

  /** Last write wins: in a well-keyed table, the entry of a path holds the content of the
      last indexable file that expands to it. */
  lemma {:induction false} IndexLastWriteWins(u: Upsert, files: seq<string>, force: bool, spec: Option<string>, env: VectoriseEnv, k: nat)
    requires WellKeyed(u.entries)
    requires k < |files| && Indexable(force, spec, env)(files[k])
    requires forall j :: k < j < |files| && Indexable(force, spec, env)(files[j]) ==>
      env.expandPath(files[j]) != env.expandPath(files[k])
    ensures var id := env.expandPath(files[k]);
      var r := IndexAll(u, files, force, spec, env);
      id in r.entries && r.entries[id] == Entry(env.read(files[k]), Some(id))
  {
    var init, last := files[..|files| - 1], files[|files| - 1];
    var prev := IndexAll(u, init, force, spec, env);
    var id := env.expandPath(files[k]);
    IndexKeepsWellKeyed(u, init, force, spec, env);
    if k == |files| - 1 {
      StoreWellKeyed(prev, id, env.read(last));
    } else {
      assert forall j :: 0 <= j < |init| ==> init[j] == files[j];
      IndexLastWriteWins(u, init, force, spec, env, k);
      if Indexable(force, spec, env)(last) {
        StoreWellKeyed(prev, env.expandPath(last), env.read(last));
      }
    }
  }

  // ---------------------------------------------------------------------------
  // The orphan pass

  /** `str(meta.get("path"))`: a missing path reads as the text "None". */
  function MetaPath(path: Option<string>): string
  {
    if path.Some? then path.value else "None"
  }

  /** The entries the orphan pass counts: those whose rendered path is not a file. */
  function Orphans(entries: map<string, Entry>, isFile: string -> bool): set<string>
  {
    set id | id in entries && !isFile(MetaPath(entries[id].path))
  }

  /** What the orphan pass leaves: every entry without a path, and every entry whose
      path is still a file. */
  function Survivors(entries: map<string, Entry>, isFile: string -> bool): (r: map<string, Entry>)
    ensures forall id :: id in r <==> id in entries && (entries[id].path.None? || isFile(entries[id].path.value))
    ensures forall id :: id in r ==> r[id] == entries[id]
  {
    map id | id in entries && (entries[id].path.None? || isFile(entries[id].path.value)) :: entries[id]
  }

  /** When every entry records a path, the pass counts exactly the entries it deletes. */
  lemma OrphansAreDeleted(entries: map<string, Entry>, isFile: string -> bool)
    requires forall id :: id in entries ==> entries[id].path.Some?
    ensures Orphans(entries, isFile) == entries.Keys - Survivors(entries, isFile).Keys
    ensures |Orphans(entries, isFile)| + |Survivors(entries, isFile).Keys| == |entries.Keys|
  {
    var orphans, kept := Orphans(entries, isFile), Survivors(entries, isFile).Keys;
    assert orphans == entries.Keys - kept by {
      forall id | id in entries ensures id in orphans <==> id !in kept {
        assert MetaPath(entries[id].path) == entries[id].path.value;
      }
    }
    DisjointUnionSize(entries.Keys, kept);
  }

  lemma DisjointUnionSize(all: set<string>, part: set<string>)
    requires part <= all
    ensures |all - part| + |part| == |all|
  {
    assert all == (all - part) + part;
    assert (all - part) * part == {};
  }

  /** An entry without a path is counted as removed, unless "None" names a file, and is
      never deleted: the delete looks for the path "None", which it does not carry. */
  lemma PathlessCountedNotDeleted(entries: map<string, Entry>, isFile: string -> bool, id: string)
    requires id in entries && entries[id].path.None? && !isFile("None")
    ensures id in Orphans(entries, isFile)
    ensures id in Survivors(entries, isFile) && Survivors(entries, isFile)[id] == entries[id]
  {
  }

  lemma KeepTwice(entries: map<string, Entry>, paths: set<string>, p: string)
    ensures Keep(Keep(entries, paths), {p}) == Keep(entries, paths + {p})
  {
  }

  /** `ids` lists distinct entries, and `paths` their metadata paths. */
  ghost predicate Listing(entries: map<string, Entry>, ids: seq<string>, paths: seq<Option<string>>) {
    && Distinct(ids)
    && |paths| == |ids|
    && (forall k :: 0 <= k < |ids| ==> ids[k] in entries && paths[k] == entries[ids[k]].path)
  }

  /** `ids` and `paths` list every entry once, with its metadata path. */
  ghost predicate SnapshotOf(entries: map<string, Entry>, ids: seq<string>, paths: seq<Option<string>>) {
    && Listing(entries, ids, paths)
    && (forall id :: id in entries ==> id in ids)
  }

  /** The rendered metadata paths that are not files: what the pass deletes by. */
  function OrphanPaths(paths: seq<Option<string>>, isFile: string -> bool): set<string>
  {
    if paths == [] then {}
    else
      var last := MetaPath(paths[|paths| - 1]);
      OrphanPaths(paths[..|paths| - 1], isFile) + (if isFile(last) then {} else {last})
  }

  lemma {:induction false} OrphanPathsMembers(paths: seq<Option<string>>, isFile: string -> bool, q: string)
    ensures q in OrphanPaths(paths, isFile) <==> !isFile(q) && exists k :: 0 <= k < |paths| && MetaPath(paths[k]) == q
  {
    if paths != [] {
      var init := paths[..|paths| - 1];
      OrphanPathsMembers(init, isFile, q);
      if exists k :: 0 <= k < |init| && MetaPath(init[k]) == q {
        var k :| 0 <= k < |init| && MetaPath(init[k]) == q;
        assert paths[k] == init[k];
      }
      if exists k :: 0 <= k < |paths| && MetaPath(paths[k]) == q {
        var k :| 0 <= k < |paths| && MetaPath(paths[k]) == q;
        if k < |init| {
          assert init[k] == paths[k];
        }
      }
    }
  }

  /** Deleting, by path, the rendered path of every snapshot entry that is not a file
      leaves exactly the survivors. */
  lemma DeletedLeavesSurvivors(entries: map<string, Entry>, ids: seq<string>, paths: seq<Option<string>>, isFile: string -> bool)
    requires SnapshotOf(entries, ids, paths)
    ensures Keep(entries, OrphanPaths(paths, isFile)) == Survivors(entries, isFile)
  {
    var deleted := OrphanPaths(paths, isFile);
    forall id | id in entries && entries[id].path.Some?
      ensures entries[id].path.value in deleted <==> !isFile(entries[id].path.value)
    {
      var q := entries[id].path.value;
      OrphanPathsMembers(paths, isFile, q);
      var k :| 0 <= k < |ids| && ids[k] == id;
      assert MetaPath(paths[k]) == q;
    }
  }

  /** How many of these metadata paths render to something that is not a file. */
  function OrphanCount(paths: seq<Option<string>>, isFile: string -> bool): nat
  {
    if paths == [] then 0
    else OrphanCount(paths[..|paths| - 1], isFile) + (if isFile(MetaPath(paths[|paths| - 1])) then 0 else 1)
  }

  /** The orphans among the first n snapshot entries. */
  ghost function OrphansAmong(entries: map<string, Entry>, ids: seq<string>, isFile: string -> bool, n: nat): set<string>
    requires n <= |ids|
  {
    set id | id in ids[..n] && id in entries && !isFile(MetaPath(entries[id].path))
  }

  /** Counting orphan paths along the snapshot counts distinct orphan entries. */
  lemma {:induction false} OrphanCountPrefix(entries: map<string, Entry>, ids: seq<string>, paths: seq<Option<string>>,
                                             isFile: string -> bool, n: nat)
    requires Listing(entries, ids, paths) && n <= |ids|
    ensures OrphanCount(paths[..n], isFile) == |OrphansAmong(entries, ids, isFile, n)|
  {
    if n == 0 {
      assert paths[..0] == [];
      assert OrphansAmong(entries, ids, isFile, 0) == {};
    } else {
      OrphanCountPrefix(entries, ids, paths, isFile, n - 1);
      assert paths[..n][..n - 1] == paths[..n - 1];
      OrphansAmongStep(entries, ids, paths, isFile, n);
      var before := OrphansAmong(entries, ids, isFile, n - 1);
      if !isFile(MetaPath(paths[n - 1])) {
        assert |before + {ids[n - 1]}| == |before| + 1;
      }
    }
  }

  /** One more snapshot entry adds itself to the orphans seen so far, or nothing. */
  lemma OrphansAmongStep(entries: map<string, Entry>, ids: seq<string>, paths: seq<Option<string>>,
                         isFile: string -> bool, n: nat)
    requires Listing(entries, ids, paths) && 0 < n <= |ids|
    ensures var x := ids[n - 1];
      var before := OrphansAmong(entries, ids, isFile, n - 1);
      && x !in before
      && OrphansAmong(entries, ids, isFile, n) == before + (if isFile(MetaPath(paths[n - 1])) then {} else {x})
  {
    var x := ids[n - 1];
    assert ids[..n] == ids[..n - 1] + [x];
    var prefix := ids[..n - 1];
    forall k | 0 <= k < |prefix| ensures prefix[k] != x {
      assert prefix[k] == ids[k];
    }
  }

  /** The pass counts one per orphan entry. */
  lemma SnapshotOrphanCount(entries: map<string, Entry>, ids: seq<string>, paths: seq<Option<string>>, isFile: string -> bool)
    requires SnapshotOf(entries, ids, paths)
    ensures OrphanCount(paths, isFile) == |Orphans(entries, isFile)|
  {
    OrphanCountPrefix(entries, ids, paths, isFile, |ids|);
    assert ids[..|ids|] == ids && paths[..|paths|] == paths;
    assert OrphansAmong(entries, ids, isFile, |ids|) == Orphans(entries, isFile);
  }

  /** One more snapshot entry adds its path to the orphan paths and one to the count exactly
      when that path is not a file. */
  lemma OrphanStep(paths: seq<Option<string>>, isFile: string -> bool, i: nat)
    requires i < |paths|
    ensures var last := MetaPath(paths[i]);
      && OrphanPaths(paths[..i + 1], isFile) == OrphanPaths(paths[..i], isFile) + (if isFile(last) then {} else {last})
      && OrphanCount(paths[..i + 1], isFile) == OrphanCount(paths[..i], isFile) + (if isFile(last) then 0 else 1)
  {
    assert paths[..i + 1][..i] == paths[..i];
  }

  /** The orphan loop: deletes by path every listed entry whose rendered path is not a
      file, counting each such entry. */
  method DeleteOrphanPaths(collection: Collection, paths: seq<Option<string>>, isFile: string -> bool)
    returns (removed: nat)
    modifies collection
    ensures collection.entries == Keep(old(collection.entries), OrphanPaths(paths, isFile))
    ensures removed == OrphanCount(paths, isFile)
  {
    ghost var start := collection.entries;
    removed := 0;
    for i := 0 to |paths|
      invariant collection.entries == Keep(start, OrphanPaths(paths[..i], isFile))
      invariant removed == OrphanCount(paths[..i], isFile)
    {
      OrphanStep(paths, isFile, i);
      var pathInMeta := MetaPath(paths[i]);
      if !isFile(pathInMeta) {
        KeepTwice(start, OrphanPaths(paths[..i], isFile), pathInMeta);
        collection.DeleteWherePath(pathInMeta);
        removed := removed + 1;
      }
    }
    assert paths[..|paths|] == paths;
  }

  /** Orphan pruning over a snapshot of the collection: exactly the orphans go, and each
      is counted once. */
  method PruneOrphans(collection: Collection, isFile: string -> bool) returns (removed: nat)
    modifies collection
    ensures collection.entries == Survivors(old(collection.entries), isFile)
    ensures removed == |Orphans(old(collection.entries), isFile)|
  {
    ghost var start := collection.entries;
    var ids, paths := collection.Snapshot();
    assert SnapshotOf(start, ids, paths);
    removed := DeleteOrphanPaths(collection, paths, isFile);
    SnapshotOrphanCount(start, ids, paths, isFile);
    DeletedLeavesSurvivors(start, ids, paths, isFile);
  }

  // ---------------------------------------------------------------------------
  // The command

  /** The report: JSON in pipe mode, otherwise one line per counter, the removal line only
      when something was removed. */
  function Report(stats: Stats, pipe: bool, dumps: Stats -> string): seq<string>
  {
    if pipe then [dumps(stats)]
    else
      ["Added:\t" + DecimalString(stats.add), "Updated:\t" + DecimalString(stats.update)]
        + (if stats.removed > 0 then ["Removed orphanes:\t" + DecimalString(stats.removed)] else [])
  }

  /** The human report has the removal line exactly when something was removed, and each
      counter can be read back from its line. */
  lemma ReportReadsBack(stats: Stats, dumps: Stats -> string)
    ensures var lines := Report(stats, false, dumps);
      && |lines| == (if stats.removed > 0 then 3 else 2)
      && lines[0][..7] == "Added:\t" && DecimalValue(lines[0][7..]) == stats.add
      && lines[1][..9] == "Updated:\t" && DecimalValue(lines[1][9..]) == stats.update
      && (stats.removed > 0 ==> lines[2][..18] == "Removed orphanes:\t" && DecimalValue(lines[2][18..]) == stats.removed)
  {
    var lines := Report(stats, false, dumps);
    DecimalRoundTrip(stats.add);
    DecimalRoundTrip(stats.update);
    assert lines[0][7..] == DecimalString(stats.add);
    assert lines[1][9..] == DecimalString(stats.update);
    if stats.removed > 0 {
      DecimalRoundTrip(stats.removed);
      assert lines[2][18..] == DecimalString(stats.removed);
    }
  }

  /** The glob list `configs.files or []`. */
  function FileGlobs(files: Option<seq<string>>): seq<string>
  {
    if files.Some? then files.value else []
  }

  /** The file loop: skip ignored files and empty files, update the entry of a path
      that is already stored, add the others, and count both. */
  method UpsertFiles(collection: Collection, files: seq<string>, force: bool, spec: Option<string>, env: VectoriseEnv)
    returns (add: nat, update: nat)
    modifies collection
    ensures Upsert(collection.entries, add, update) == IndexAll(Upsert(old(collection.entries), 0, 0), files, force, spec, env)
  {
    ghost var start := Upsert(collection.entries, 0, 0);
    add, update := 0, 0;
    for i := 0 to |files|
      invariant IndexAll(start, files[..i], force, spec, env) == Upsert(collection.entries, add, update)
    {
      var file := files[i];
      assert files[..i + 1][..i] == files[..i];
      if !force && spec.Some? && env.ignoreMatch(spec.value, file) {
        continue;
      }
      var content := env.read(file);
      if content != "" {
        var pathStr := env.expandPath(file);
        var found := collection.HasPath(pathStr);
        if found {
          collection.Update(pathStr, content, pathStr);
          update := update + 1;
        } else {
          collection.Add(pathStr, content, pathStr);
          add := add + 1;
        }
      }
    }
    assert files[..|files|] == files;
  }

  method Vectorise(configs: Config, env: VectoriseEnv, collection: Collection) returns (code: int, stdout: seq<string>)
    modifies collection
    // A rejected embedding function returns 1 before any file or entry is touched.
    ensures !env.efMatches ==> code == 1 && stdout == [] && collection.entries == old(collection.entries)
    ensures env.efMatches ==>
      var files := env.expandGlobs(FileGlobs(configs.files), configs.recursive);
      var upserted := IndexAll(Upsert(old(collection.entries), 0, 0), files, configs.force, IgnoreSpec(configs, env), env);
      && code == 0
      && collection.entries == Survivors(upserted.entries, env.isFile)
      && stdout == Report(Stats(upserted.added, upserted.updated, |Orphans(upserted.entries, env.isFile)|), configs.pipe, env.dumps)
  {
    if !env.efMatches {
      return 1, [];
    }
    var files := env.expandGlobs(FileGlobs(configs.files), configs.recursive);
    var gitignorePath := Join(configs.projectRoot, ".gitignore");
    var gitignoreSpec: Option<string> := None;
    if env.isFile(gitignorePath) {
      gitignoreSpec := Some(env.read(gitignorePath));
    }
    assert gitignoreSpec == IgnoreSpec(configs, env);
    var add, update := UpsertFiles(collection, files, configs.force, gitignoreSpec, env);
    var removed := PruneOrphans(collection, env.isFile);
    var stats := Stats(add, update, removed);
    if configs.pipe {
      stdout := [env.dumps(stats)];
    } else {
      stdout := ["Added:\t" + DecimalString(stats.add), "Updated:\t" + DecimalString(stats.update)];
      if stats.removed > 0 {
        stdout := stdout + ["Removed orphanes:\t" + DecimalString(stats.removed)];
      }
    }
    code := 0;
  }
}
