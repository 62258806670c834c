/**
 * The directory walks that classify files by path pattern:
 * `searchFileInDirectory` of src/utils/file.ts (named filters, ignore
 * substrings) and the single-filter walk of run-diagnostics.ts.
 *
 * Both list a directory, join each entry name onto the directory path,
 * `lstat` the result (so a link is never followed), skip paths that contain
 * an ignored substring, descend into directories and test every other
 * entry's full path. The asynchronous fan-out over entries is modelled as a
 * walk in listing order.
 */
module FileSearch {
  import opened Wrappers
  import opened Strings
  import opened Arrays
  import opened Paths
  import opened FileTree
  import opened Patterns

  /** `ignoreDirs.some((dir) => path.includes(dir))`. */
  predicate Ignored(path: string, ignoreDirs: seq<string>) {
    exists i | 0 <= i < |ignoreDirs| :: Contains(path, ignoreDirs[i])
  }

  /** Joining two outcomes of a walk: an exception in either part is an exception of the whole. */
  function Concat(a: Eval<seq<string>>, b: Eval<seq<string>>): (r: Eval<seq<string>>)
    ensures r.Throws? <==> a.Throws? || b.Throws?
    ensures r.Returns? ==> r.value == a.value + b.value
  {
    if a.Throws? || b.Throws? then Throws else Returns(a.value + b.value)
  }

  /**
   * The paths a walk from `dirPath` tests, in listing order: every entry
   * that is not a directory by `lstat` and whose path has no ignored
   * substring. Listing `node` follows links, like `readdirSync`; listing an
   * unreadable directory the walk enters raises.
   */
  function Candidates(dirPath: string, node: Node, ignoreDirs: seq<string>): (r: Eval<seq<string>>)
    ensures ReadDirectory(node).None? ==> r.Throws?
    decreases node, 1
  {
    match ReadDirectory(node)
    case None => Throws
    case Some(_) => CandidatesFrom(dirPath, Resolve(node).value, 0, ignoreDirs)
  }

  /** The candidates of the entries of `dir` from the `i`-th on. */
  function CandidatesFrom(dirPath: string, dir: Node, i: nat, ignoreDirs: seq<string>): (r: Eval<seq<string>>)
    requires dir.Directory? && i <= |dir.entries|
    decreases dir, 0, |dir.entries| - i
  {
    if i == |dir.entries| then Returns([])
    else
      assert dir.entries[i] in dir.entries;
      Concat(EntryCandidates(dirPath, dir.entries[i], ignoreDirs), CandidatesFrom(dirPath, dir, i + 1, ignoreDirs))
  }

  /** The candidates contributed by one entry of the directory at `dirPath`. */
  function EntryCandidates(dirPath: string, entry: Node, ignoreDirs: seq<string>): (r: Eval<seq<string>>)
    decreases entry, 2
  {
    var path := PathJoin(dirPath, entry.name);
    if Ignored(path, ignoreDirs) then Returns([])
    else if entry.Directory? then Candidates(path, entry, ignoreDirs)
    else Returns([path])
  }

  /** The test of one named filter, as a predicate on paths. */
  function Matches(filter: FilePattern): string -> bool {
    path => Test(filter, path)
  }

  /** The walk from entry `i` is entry `i`'s part followed by the walk from entry `i + 1`. */
  lemma CandidatesFromStep(dirPath: string, dir: Node, i: nat, ignoreDirs: seq<string>)
    requires dir.Directory? && i < |dir.entries|
    ensures CandidatesFrom(dirPath, dir, i, ignoreDirs) ==
      Concat(EntryCandidates(dirPath, dir.entries[i], ignoreDirs), CandidatesFrom(dirPath, dir, i + 1, ignoreDirs))
  {
  }

  /**
   * Walk progress: `seen` holds, in order, the candidates of the entries of
   * `dir` before the `i`-th, so that the whole walk `total` is `seen`
   * followed by the walk from entry `i`, and throws exactly when that
   * remaining walk does.
   */
  predicate WalkedTo(total: Eval<seq<string>>, seen: seq<string>, dirPath: string, dir: Node, i: nat, ignoreDirs: seq<string>) {
    && dir.Directory? && i <= |dir.entries|
    && (total.Throws? <==> CandidatesFrom(dirPath, dir, i, ignoreDirs).Throws?)
    && (CandidatesFrom(dirPath, dir, i, ignoreDirs).Returns? ==> total.value == seen + CandidatesFrom(dirPath, dir, i, ignoreDirs).value)
  }

  /** An entry whose part is `here` moves the walk on by one entry, with `here` appended to what was seen. */
  lemma WalkStep(total: Eval<seq<string>>, seen: seq<string>, dirPath: string, dir: Node, i: nat, ignoreDirs: seq<string>, here: seq<string>)
    requires WalkedTo(total, seen, dirPath, dir, i, ignoreDirs) && i < |dir.entries|
    requires EntryCandidates(dirPath, dir.entries[i], ignoreDirs) == Returns(here)
    ensures WalkedTo(total, seen + here, dirPath, dir, i + 1, ignoreDirs)
  {
    CandidatesFromStep(dirPath, dir, i, ignoreDirs);
  }

  /** An entry with no part moves the walk on by one entry with nothing more seen. */
  lemma WalkSkip(total: Eval<seq<string>>, seen: seq<string>, dirPath: string, dir: Node, i: nat, ignoreDirs: seq<string>)
    requires WalkedTo(total, seen, dirPath, dir, i, ignoreDirs) && i < |dir.entries|
    requires EntryCandidates(dirPath, dir.entries[i], ignoreDirs) == Returns([])
    ensures WalkedTo(total, seen, dirPath, dir, i + 1, ignoreDirs)
  {
    WalkStep(total, seen, dirPath, dir, i, ignoreDirs, []);
    assert seen + [] == seen;
  }

  /** An entry whose part throws makes the whole walk throw. */
  lemma WalkThrows(total: Eval<seq<string>>, seen: seq<string>, dirPath: string, dir: Node, i: nat, ignoreDirs: seq<string>)
    requires WalkedTo(total, seen, dirPath, dir, i, ignoreDirs) && i < |dir.entries|
    requires EntryCandidates(dirPath, dir.entries[i], ignoreDirs).Throws?
    ensures total.Throws?
  {
    CandidatesFromStep(dirPath, dir, i, ignoreDirs);
  }

  /** At the end of the listing the walk is exactly what was seen. */
  lemma WalkDone(total: Eval<seq<string>>, seen: seq<string>, dirPath: string, dir: Node, ignoreDirs: seq<string>)
    requires dir.Directory? && WalkedTo(total, seen, dirPath, dir, |dir.entries|, ignoreDirs)
    ensures total == Returns(seen)
  {
    assert seen + [] == seen;
  }

  /** Filtering a sequence extended by one element. */
  lemma FilterAppendOne(xs: seq<string>, x: string, keep: string -> bool)
    ensures Filter(xs + [x], keep) == Filter(xs, keep) + (if keep(x) then [x] else [])
  {
    FilterAppend(xs, [x], keep);
    assert [x][1..] == [];
  }

  // ---------------------------------------------------------------------------
  // src/utils/file.ts

  /** `results` has a key per filter, each holding the paths of `paths` that filter accepts, in order. */
  predicate FilteredPerKey(results: map<string, seq<string>>, filters: map<string, FilePattern>, paths: seq<string>) {
    results.Keys == filters.Keys && forall key | key in filters :: results[key] == Filter(paths, Matches(filters[key]))
  }

  /** The per-key results for `paths`: under each filter's key, the paths that filter accepts, in order. */
  function PerKey(filters: map<string, FilePattern>, paths: seq<string>): (r: map<string, seq<string>>)
    ensures FilteredPerKey(r, filters, paths)
  {
    map key | key in filters :: Filter(paths, Matches(filters[key]))
  }

  /** `results[key] = results[key].concat(subDirResults[key])` for every key. */
  function MergeResults(results: map<string, seq<string>>, subDirResults: map<string, seq<string>>): (r: map<string, seq<string>>)
    requires results.Keys <= subDirResults.Keys
    ensures r.Keys == results.Keys
  {
    map key | key in results :: results[key] + subDirResults[key]
  }

  /** `if (filter.test(filename)) results[key].push(filename)` for every key. */
  function RecordMatch(results: map<string, seq<string>>, filters: map<string, FilePattern>, filename: string): (r: map<string, seq<string>>)
    requires results.Keys == filters.Keys
    ensures r.Keys == results.Keys
  {
    map key | key in results :: if Test(filters[key], filename) then results[key] + [filename] else results[key]
  }

  /** Merging the per-key results of two parts of a walk gives the per-key results of the whole. */
  lemma MergeKeepsFiltered(filters: map<string, FilePattern>, seen: seq<string>, found: seq<string>)
    ensures MergeResults(PerKey(filters, seen), PerKey(filters, found)) == PerKey(filters, seen + found)
  {
    forall key | key in filters
      ensures MergeResults(PerKey(filters, seen), PerKey(filters, found))[key] == PerKey(filters, seen + found)[key]
    {
      FilterAppend(seen, found, Matches(filters[key]));
    }
  }

  /** Testing one more path against every filter gives the per-key results of the paths with it appended. */
  lemma RecordKeepsFiltered(filters: map<string, FilePattern>, seen: seq<string>, filename: string)
    ensures RecordMatch(PerKey(filters, seen), filters, filename) == PerKey(filters, seen + [filename])
  {
    forall key | key in filters
      ensures RecordMatch(PerKey(filters, seen), filters, filename)[key] == PerKey(filters, seen + [filename])[key]
    {
      FilterAppendOne(seen, filename, Matches(filters[key]));
    }
  }

  /**
   * `searchFileInDirectory(directoryPath, filters, ignoreDirs)`: a result
   * with a key per filter, each holding the candidates that filter accepts,
   * or an exception when a directory cannot be listed.
   */
  method SearchFileInDirectory(directoryPath: string, node: Node, filters: map<string, FilePattern>, ignoreDirs: seq<string>)
    returns (r: Eval<map<string, seq<string>>>)
    ensures r.Throws? <==> Candidates(directoryPath, node, ignoreDirs).Throws?
    ensures r.Returns? ==> r.value == PerKey(filters, Candidates(directoryPath, node, ignoreDirs).value)
    decreases node, 2
  {
    var results := map key | key in filters :: [];
    assert results == PerKey(filters, []);
    var files := ReadDirectory(node);
    if files.None? {
      return Throws;
    }
    var dir := Resolve(node).value;
    ghost var total := Candidates(directoryPath, node, ignoreDirs);
    ghost var seen: seq<string> := [];
    for i := 0 to |dir.entries|
      invariant results == PerKey(filters, seen)
      invariant WalkedTo(total, seen, directoryPath, dir, i, ignoreDirs)
    {
      var step;
      step, seen := SearchEntry(directoryPath, dir, i, filters, ignoreDirs, results, total, seen);
      if step.Throws? {
        return Throws;
      }
      results := step.value;
    }
    WalkDone(total, seen, directoryPath, dir, ignoreDirs);
    return Returns(results);
  }

  /**
   * One pass of the loop over the directory's entries: an ignored path is
   * skipped, a sub-directory's results are merged key by key, and a file
   * is pushed under every key whose filter accepts it.
   */
  method SearchEntry(directoryPath: string, dir: Node, i: nat, filters: map<string, FilePattern>, ignoreDirs: seq<string>,
                     results: map<string, seq<string>>, ghost total: Eval<seq<string>>, ghost seen: seq<string>)
    returns (r: Eval<map<string, seq<string>>>, ghost seenAfter: seq<string>)
    requires WalkedTo(total, seen, directoryPath, dir, i, ignoreDirs) && i < |dir.entries|
    requires results == PerKey(filters, seen)
    ensures r.Throws? ==> total.Throws?
    ensures r.Returns? ==> r.value == PerKey(filters, seenAfter) && WalkedTo(total, seenAfter, directoryPath, dir, i + 1, ignoreDirs)
    decreases dir, 1
  {
    var entry := dir.entries[i];
    assert entry in dir.entries;
    var filename := PathJoin(directoryPath, entry.name);
    if Ignored(filename, ignoreDirs) {
      WalkSkip(total, seen, directoryPath, dir, i, ignoreDirs);
      return Returns(results), seen;
    } else if entry.Directory? {
      var subDirResults := SearchFileInDirectory(filename, entry, filters, ignoreDirs);
      if subDirResults.Throws? {
        WalkThrows(total, seen, directoryPath, dir, i, ignoreDirs);
        return Throws, seen;
      }
      ghost var found := Candidates(filename, entry, ignoreDirs).value;
      WalkStep(total, seen, directoryPath, dir, i, ignoreDirs, found);
      MergeKeepsFiltered(filters, seen, found);
      return Returns(MergeResults(results, subDirResults.value)), seen + found;
    } else {
      WalkStep(total, seen, directoryPath, dir, i, ignoreDirs, [filename]);
      RecordKeepsFiltered(filters, seen, filename);
      return Returns(RecordMatch(results, filters, filename)), seen + [filename];
    }
  }

  /** Every reported path passed its filter and contains none of the ignored substrings. */
  lemma SearchResultsAreFilteredCandidates(directoryPath: string, node: Node, filters: map<string, FilePattern>, ignoreDirs: seq<string>, key: string, path: string)
    requires key in filters
    requires Candidates(directoryPath, node, ignoreDirs).Returns?
    requires path in Filter(Candidates(directoryPath, node, ignoreDirs).value, Matches(filters[key]))
    ensures Test(filters[key], path) && !Ignored(path, ignoreDirs)
  {
    NoCandidateIgnored(directoryPath, node, ignoreDirs);
  }

  /** No candidate path contains an ignored substring. */
  lemma {:induction false} NoCandidateIgnored(dirPath: string, node: Node, ignoreDirs: seq<string>)
    ensures Candidates(dirPath, node, ignoreDirs).Returns? ==>
      forall p | p in Candidates(dirPath, node, ignoreDirs).value :: !Ignored(p, ignoreDirs)
    decreases node, 1
  {
    if ReadDirectory(node).Some? {
      NoCandidateIgnoredFrom(dirPath, Resolve(node).value, 0, ignoreDirs);
    }
  }

  lemma {:induction false} NoCandidateIgnoredFrom(dirPath: string, dir: Node, i: nat, ignoreDirs: seq<string>)
    requires dir.Directory? && i <= |dir.entries|
    ensures CandidatesFrom(dirPath, dir, i, ignoreDirs).Returns? ==>
      forall p | p in CandidatesFrom(dirPath, dir, i, ignoreDirs).value :: !Ignored(p, ignoreDirs)
    decreases dir, 0, |dir.entries| - i
  {
    if i < |dir.entries| {
      var entry := dir.entries[i];
      assert entry in dir.entries;
      var path := PathJoin(dirPath, entry.name);
      if !Ignored(path, ignoreDirs) && entry.Directory? {
        NoCandidateIgnored(path, entry, ignoreDirs);
      }
      NoCandidateIgnoredFrom(dirPath, dir, i + 1, ignoreDirs);
    }
  }

  /**
   * An ignored directory is not entered: it adds nothing and, even when it
   * cannot be listed, raises nothing.
   */
  lemma IgnoredDirectoryIsNotEntered(dirPath: string, entry: Node, ignoreDirs: seq<string>)
    requires entry.Directory? && Ignored(PathJoin(dirPath, entry.name), ignoreDirs)
    ensures EntryCandidates(dirPath, entry, ignoreDirs) == Returns([])
  {
  }

  /** A link is matched like a file, whatever it points to, and never followed. */
  lemma LinkIsMatchedNotFollowed(dirPath: string, name: string, target: Option<Node>, ignoreDirs: seq<string>)
    requires !Ignored(PathJoin(dirPath, name), ignoreDirs)
    ensures EntryCandidates(dirPath, SymbolicLink(name, target), ignoreDirs) == Returns([PathJoin(dirPath, name)])
  {
  }

  /** A directory that cannot be listed makes the whole search raise. */
  lemma UnreadableSubdirectoryRaises(dirPath: string, name: string, entries: seq<Node>, ignoreDirs: seq<string>)
    requires !Ignored(PathJoin(dirPath, name), ignoreDirs)
    ensures EntryCandidates(dirPath, Directory(name, false, entries), ignoreDirs).Throws?
  {
  }

  // ---------------------------------------------------------------------------
  // run-diagnostics.ts

  /** The substring run-diagnostics.ts skips. */
  const PodsDirectory := "/Pods/"

  /** `path.includes(dir)` is the ignore test with `dir` as the only ignored substring. */
  lemma IgnoredByOne(path: string, dir: string)
    ensures Ignored(path, [dir]) <==> Contains(path, dir)
  {
    assert [dir][0] == dir;
  }

  /**
   * The single-filter walk of run-diagnostics.ts as written: it awaits
   * `fs.readdir(startPath)` from the callback API without a callback, which
   * raises before any entry is listed, so every call rejects.
   */
  function SearchWithCallbackReaddir(startPath: string, node: Node, filter: FilePattern): (r: Eval<seq<string>>)
    ensures r.Throws?
  {
    Throws
  }

  /**
   * The single-filter walk with a promise-returning `readdir` and `lstat`:
   * the candidates (with `/Pods/` paths skipped) that the filter accepts.
   */
  method SearchWithFilter(startPath: string, node: Node, filter: FilePattern) returns (r: Eval<seq<string>>)
    ensures r.Throws? <==> Candidates(startPath, node, [PodsDirectory]).Throws?
    ensures r.Returns? ==> r.value == Filter(Candidates(startPath, node, [PodsDirectory]).value, Matches(filter))
    decreases node
  {
    var results: seq<string> := [];
    var files := ReadDirectory(node);
    if files.None? {
      return Throws;
    }
    var dir := Resolve(node).value;
    ghost var total := Candidates(startPath, node, [PodsDirectory]);
    ghost var seen: seq<string> := [];
    for i := 0 to |dir.entries|
      invariant results == Filter(seen, Matches(filter))
      invariant WalkedTo(total, seen, startPath, dir, i, [PodsDirectory])
    {
      var entry := dir.entries[i];
      assert entry in dir.entries;
      var filename := PathJoin(startPath, entry.name);
      IgnoredByOne(filename, PodsDirectory);
      if Ignored(filename, [PodsDirectory]) {
        WalkSkip(total, seen, startPath, dir, i, [PodsDirectory]);
        continue;
      }
      if entry.Directory? {
        var subDirResults := SearchWithFilter(filename, entry, filter);
        if subDirResults.Throws? {
          WalkThrows(total, seen, startPath, dir, i, [PodsDirectory]);
          return Throws;
        }
        ghost var found := Candidates(filename, entry, [PodsDirectory]).value;
        WalkStep(total, seen, startPath, dir, i, [PodsDirectory], found);
        FilterAppend(seen, found, Matches(filter));
        results := results + subDirResults.value;
        seen := seen + found;
      } else {
        WalkStep(total, seen, startPath, dir, i, [PodsDirectory], [filename]);
        FilterAppendOne(seen, filename, Matches(filter));
        if Matches(filter)(filename) {
          results := results + [filename];
        }
        seen := seen + [filename];
      }
    }
    WalkDone(total, seen, startPath, dir, [PodsDirectory]);
    return Returns(results);
  }

  /** The example's project file is found: its path does not lie under `/Pods/`, as it has no `P`. */
  lemma ExampleEntryFound()
    ensures EntryCandidates("/app", RegularFile("app.pbxproj", Some("")), [PodsDirectory]) == Returns(["/app/app.pbxproj"])
  {
    var path := PathJoin("/app", "app.pbxproj");
    assert path == "/app/app.pbxproj";
    assert 'P' in PodsDirectory && 'P' !in path;
    MissingCharacterExcludes(path, PodsDirectory, 'P');
    IgnoredByOne(path, PodsDirectory);
  }

  /** A pattern made of an escaped extension accepts every path that ends in that extension. */
  lemma EscapedExtensionAccepts(ext: string, s: string)
    requires DotExtension(ext) && EndsWith(s, ext)
    ensures Test(CreateFilePattern(EscapeFirstDot(ext)), s)
  {
    EscapedExtensionAtoms(ext);
    var p := CreateFilePattern(EscapeFirstDot(ext));
    var atoms := Atoms(p.head);
    var i := |s| - |ext|;
    forall k | 0 <= k < |atoms| ensures AtomMatches(atoms[k], s[i + k], false) {
      assert s[i + k] == s[i..][k];
    }
    assert HeadAt(atoms, s, i, false);
    assert MatchesFrom(p, s, i);
  }

  /** `/\.pbxproj$/` accepts the example's project file. */
  lemma ProjectFileAccepted()
    ensures Test(CreateFilePattern("\\.pbxproj"), "/app/app.pbxproj")
  {
    var ext := ".pbxproj";
    assert EscapeFirstDot(ext) == "\\." + ext[1..];
    assert EscapeFirstDot(ext) == "\\.pbxproj";
    assert "/app/app.pbxproj"[8..] == ext;
    EscapedExtensionAccepts(ext, "/app/app.pbxproj");
  }

  /**
   * The discrepancy: a project holding one `.pbxproj` file, which the
   * intended walk reports and the walk as written never reaches.
   */
  lemma CallbackReaddirLosesProjectFiles()
    ensures var root := Directory("app", true, [RegularFile("app.pbxproj", Some(""))]);
      var filter := CreateFilePattern("\\.pbxproj");
      SearchWithCallbackReaddir("/app", root, filter).Throws? &&
      Candidates("/app", root, [PodsDirectory]) == Returns(["/app/app.pbxproj"]) &&
      Test(filter, "/app/app.pbxproj")
  {
    var root := Directory("app", true, [RegularFile("app.pbxproj", Some(""))]);
    ProjectFileAccepted();
    ExampleEntryFound();
    CandidatesFromStep("/app", root, 0, [PodsDirectory]);
    assert CandidatesFrom("/app", root, 1, [PodsDirectory]) == Returns([]);
    assert ["/app/app.pbxproj"] + [] == ["/app/app.pbxproj"];
  }
}
