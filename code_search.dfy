/**
 * The code search of src/utils/code.ts: a walk that reads the files whose
 * names match the configured name and keyword patterns and whose extension
 * has a code pattern, records every file it reads in a shared `Set`, and
 * collects those whose content the extension's code pattern accepts.
 *
 * The extension of an entry is a parameter of the walk: the code reads
 * `linkStat.extension`, a field the records of `getFileLinkStats`
 * (src/utils/file.ts) do not have, so as written every extension is
 * undefined; `path.extname` is what the code evidently intends.
 */
module CodeSearch {
  import opened Wrappers
  import opened Strings
  import opened Arrays
  import opened Paths
  import opened FileTree
  import opened Patterns

  /** One entry of `codePatternByExtension`: an extension such as `.swift` and the test of its code pattern. */
  datatype ExtensionCodePattern = ExtensionCodePattern(extension: string, codePattern: string -> bool)

  /**
   * `CodeSearchConfig`. `shouldIgnore` is `shouldIgnoreDirectory(name,
   * ignoreDirectories)`, whose definition is not part of this model.
   */
  datatype CodeSearchConfig = CodeSearchConfig(
    codePatternByExtension: seq<ExtensionCodePattern>,
    ignoreDirectories: seq<string>,
    shouldIgnore: string -> bool,
    targetFileNames: seq<string>,
    targetFilePatterns: seq<string>)

  /** How an entry's extension is obtained: `None` stands for `undefined`. */
  type ExtensionReader = string -> Option<string>

  /** `linkStat.extension` as written: the stats record has no such field. */
  function UndefinedExtension(): ExtensionReader {
    name => None
  }

  /** Index of the last `.` in `name`, if any. */
  function LastDot(name: string): (r: Option<nat>)
    ensures r.Some? ==> r.value < |name| && name[r.value] == '.' && forall k | r.value < k < |name| :: name[k] != '.'
    ensures r.None? ==> '.' !in name
  {
    if |name| == 0 then None
    else if name[|name| - 1] == '.' then Some(|name| - 1)
    else
      var r := LastDot(name[..|name| - 1]);
      assert forall k | 0 <= k < |name| - 1 :: name[..|name| - 1][k] == name[k];
      r
  }

  /** `path.extname(name)`: from the last `.` on, unless that `.` starts the name. */
  function Extname(name: string): (r: string)
    ensures r == "" || (r[0] == '.' && EndsWith(name, r) && '.' !in r[1..] && |r| < |name|)
  {
    match LastDot(name)
    case Some(i) => if i > 0 then name[i..] else ""
    case None => ""
  }

  /** `path.extname` as the extension reader the code evidently intends. */
  function ExtnameReader(): ExtensionReader {
    name => Some(Extname(name))
  }

  /** `Object.keys(config.codePatternByExtension)`. */
  function TargetExtensions(config: CodeSearchConfig): (r: seq<string>)
    ensures |r| == |config.codePatternByExtension|
  {
    Map(config.codePatternByExtension, (e: ExtensionCodePattern) => e.extension)
  }

  /** The code pattern of the first entry for `extension`. */
  function PatternOf(entries: seq<ExtensionCodePattern>, extension: string): (r: Option<string -> bool>)
    ensures r.Some? <==> extension in Map(entries, (e: ExtensionCodePattern) => e.extension)
  {
    if |entries| == 0 then None
    else if entries[0].extension == extension then Some(entries[0].codePattern)
    else
      var r := PatternOf(entries[1..], extension);
      assert Map(entries, (e: ExtensionCodePattern) => e.extension) ==
        [entries[0].extension] + Map(entries[1..], (e: ExtensionCodePattern) => e.extension);
      r
  }

  /** `config.codePatternByExtension[extension]`: present exactly for a key of the record. */
  function CodePatternFor(config: CodeSearchConfig, extension: Option<string>): (r: Option<string -> bool>)
    ensures r.Some? <==> extension.Some? && extension.value in TargetExtensions(config)
  {
    if extension.None? then None else PatternOf(config.codePatternByExtension, extension.value)
  }

  /** `filePatternsForCodeInspection`: a name pattern per target file name, then a keyword pattern per target pattern. */
  function InspectionPatterns(config: CodeSearchConfig): (r: seq<FilePattern>)
    ensures |r| == |config.targetFileNames| + |config.targetFilePatterns|
  {
    var extensions := TargetExtensions(config);
    Map(config.targetFileNames, (name: string) => ConstructFilePattern(name, extensions)) +
    Map(config.targetFilePatterns, (keyword: string) => ConstructKeywordFilePattern(keyword, extensions))
  }

  /** Some inspection pattern accepts the entry's name (`find(...)` is truthy). */
  predicate IsInspected(config: CodeSearchConfig, name: string) {
    var patterns := InspectionPatterns(config);
    exists i | 0 <= i < |patterns| :: Test(patterns[i], name)
  }

  /** `isValidFile(file, linkStat)`. */
  predicate IsValidFile(config: CodeSearchConfig, extensionOf: ExtensionReader, name: string, linkStat: FileLinkStats) {
    if config.shouldIgnore(name) then false
    else if linkStat.isSymbolicLink then false
    else linkStat.isDirectory || (linkStat.isFile && extensionOf(name).Some? && extensionOf(name).value in TargetExtensions(config))
  }

  /** What a walk finds: the matching readable paths and the readable paths it records as searched, in visit order. */
  datatype Found = Found(matched: seq<string>, searched: seq<string>)

  function Combine(a: Found, b: Found): Found {
    Found(a.matched + b.matched, a.searched + b.searched)
  }

  /**
   * What the walk from `directoryPath` finds. An unreadable or empty
   * directory contributes nothing.
   */
  function Visit(config: CodeSearchConfig, extensionOf: ExtensionReader, projectPath: string, directoryPath: string, node: Node): (r: Found)
    ensures ReadDirectory(node).None? || ReadDirectory(node).value == [] ==> r == Found([], [])
    decreases node, 1
  {
    match ReadDirectory(node)
    case None => Found([], [])
    case Some(files) =>
      if |files| == 0 then Found([], [])
      else VisitFrom(config, extensionOf, projectPath, directoryPath, Resolve(node).value, 0)
  }

  function VisitFrom(config: CodeSearchConfig, extensionOf: ExtensionReader, projectPath: string, directoryPath: string, dir: Node, i: nat): (r: Found)
    requires dir.Directory? && i <= |dir.entries|
    decreases dir, 0, |dir.entries| - i
  {
    if i == |dir.entries| then Found([], [])
    else
      assert dir.entries[i] in dir.entries;
      Combine(VisitEntry(config, extensionOf, projectPath, directoryPath, dir.entries[i]),
              VisitFrom(config, extensionOf, projectPath, directoryPath, dir, i + 1))
  }

  /** What one entry of the directory at `directoryPath` contributes. */
  function VisitEntry(config: CodeSearchConfig, extensionOf: ExtensionReader, projectPath: string, directoryPath: string, file: Node): (r: Found)
    decreases file, 2
  {
    var filePath := PathJoin(directoryPath, file.name);
    match GetFileLinkStats(file)
    case None => Found([], [])
    case Some(linkStat) =>
      if !IsValidFile(config, extensionOf, file.name, linkStat) then Found([], [])
      else if linkStat.isDirectory then Visit(config, extensionOf, projectPath, filePath, file)
      else if linkStat.isFile && IsInspected(config, file.name) then
        var readable := GetReadablePath(projectPath, filePath);
        var fileContent := ReadFileContent(file);
        var codePattern := CodePatternFor(config, extensionOf(file.name));
        var isMatch := fileContent.Some? && fileContent.value != "" && codePattern.Some? && codePattern.value(fileContent.value);
        Found(if isMatch then [readable] else [], [readable])
      else Found([], [])
  }

  // ---------------------------------------------------------------------------
  // The shared set of searched files

  /** A JavaScript `Set` of strings: its elements in insertion order, each once. */
  class StringSet {
    var elements: seq<string>

    ghost predicate Valid()
      reads this
    {
      NoDuplicates(elements)
    }

    constructor()
      ensures Valid() && elements == []
    {
      elements := [];
    }

    /** `set.add(x)`: a value already present keeps its place. */
    method Add(x: string)
      requires Valid()
      modifies this
      ensures Valid()
      ensures elements == if x in old(elements) then old(elements) else old(elements) + [x]
    {
      if x !in elements {
        elements := elements + [x];
      }
    }
  }

  /** `set.add(x)` on the elements `u`. */
  function Inserted(u: seq<string>, x: string): seq<string> {
    if x in u then u else u + [x]
  }

  /** Adding one value to the distinct values of `a`. */
  lemma AddedValue(a: seq<string>, x: string)
    ensures UniqueValues(a + [x]) == Inserted(UniqueValues(a), x)
  {
    assert (a + [x])[..|a + [x]| - 1] == a;
  }

  /** Adding values one by one to an already de-duplicated sequence de-duplicates the whole. */
  lemma {:induction false} UniqueValuesAbsorbs(a: seq<string>, b: seq<string>)
    ensures UniqueValues(UniqueValues(a) + b) == UniqueValues(a + b)
    decreases |b|
  {
    if |b| == 0 {
      assert UniqueValues(a) + b == UniqueValues(a);
      assert a + b == a;
      UniqueValuesIdempotent(a);
    } else {
      var init, x := b[..|b| - 1], b[|b| - 1];
      assert b == init + [x];
      calc {
        UniqueValues(UniqueValues(a) + b);
        { assert UniqueValues(a) + b == (UniqueValues(a) + init) + [x]; }
        UniqueValues((UniqueValues(a) + init) + [x]);
        { AddedValue(UniqueValues(a) + init, x); }
        Inserted(UniqueValues(UniqueValues(a) + init), x);
        { UniqueValuesAbsorbs(a, init); }
        Inserted(UniqueValues(a + init), x);
        { AddedValue(a + init, x); }
        UniqueValues((a + init) + [x]);
        { assert (a + init) + [x] == a + b; }
        UniqueValues(a + b);
      }
    }
  }

  // ---------------------------------------------------------------------------
  // The walk

  lemma VisitFromStep(config: CodeSearchConfig, extensionOf: ExtensionReader, projectPath: string, directoryPath: string, dir: Node, i: nat)
    requires dir.Directory? && i < |dir.entries|
    ensures VisitFrom(config, extensionOf, projectPath, directoryPath, dir, i) ==
      Combine(VisitEntry(config, extensionOf, projectPath, directoryPath, dir.entries[i]),
              VisitFrom(config, extensionOf, projectPath, directoryPath, dir, i + 1))
  {
  }

  /**
   * `searchFilesRecursivelyForCode(config, projectPath, directoryPath,
   * searchedFiles)`: returns the matching readable paths and adds every
   * inspected one to the shared set, in visit order.
   */
  method SearchFilesRecursivelyForCode(config: CodeSearchConfig, extensionOf: ExtensionReader, projectPath: string,
                                       directoryPath: string, node: Node, searchedFiles: StringSet)
    returns (matchingFiles: seq<string>)
    requires searchedFiles.Valid()
    modifies searchedFiles
    ensures searchedFiles.Valid()
    ensures matchingFiles == Visit(config, extensionOf, projectPath, directoryPath, node).matched
    ensures searchedFiles.elements ==
      UniqueValues(old(searchedFiles.elements) + Visit(config, extensionOf, projectPath, directoryPath, node).searched)
    decreases node, 1
  {
    ghost var start := searchedFiles.elements;
    UniqueValuesIdentity(start);
    assert start + [] == start;
    matchingFiles := [];
    var files := ReadDirectory(node);
    if files.None? || |files.value| == 0 {
      return;
    }
    var dir := Resolve(node).value;
    ghost var total := VisitFrom(config, extensionOf, projectPath, directoryPath, dir, 0);
    ghost var seen := Found([], []);
    CombineEmptyFront(total);
    for i := 0 to |dir.entries|
      invariant searchedFiles.Valid()
      invariant matchingFiles == seen.matched
      invariant searchedFiles.elements == UniqueValues(start + seen.searched)
      invariant total == Combine(seen, VisitFrom(config, extensionOf, projectPath, directoryPath, dir, i))
    {
      var file := dir.entries[i];
      assert file in dir.entries;
      VisitFromStep(config, extensionOf, projectPath, directoryPath, dir, i);
      ghost var here := VisitEntry(config, extensionOf, projectPath, directoryPath, file);
      ghost var rest := VisitFrom(config, extensionOf, projectPath, directoryPath, dir, i + 1);
      CombineAssociates(seen, here, rest);
      var found := InspectEntry(config, extensionOf, projectPath, directoryPath, file, searchedFiles);
      SearchedStep(start, seen.searched, here.searched);
      matchingFiles := matchingFiles + found;
      seen := Combine(seen, here);
    }
    CombineEmpty(seen);
  }

  lemma CombineAssociates(a: Found, b: Found, c: Found)
    ensures Combine(a, Combine(b, c)) == Combine(Combine(a, b), c)
  {
    assert a.matched + (b.matched + c.matched) == (a.matched + b.matched) + c.matched;
    assert a.searched + (b.searched + c.searched) == (a.searched + b.searched) + c.searched;
  }

  lemma CombineEmptyFront(a: Found)
    ensures Combine(Found([], []), a) == a
  {
    assert [] + a.matched == a.matched;
    assert [] + a.searched == a.searched;
  }

  lemma CombineEmpty(a: Found)
    ensures Combine(a, Found([], [])) == a
  {
    assert a.matched + [] == a.matched;
    assert a.searched + [] == a.searched;
  }

  /** Adding a walk's searched files to the set that already holds those seen before. */
  lemma SearchedStep(start: seq<string>, seen: seq<string>, here: seq<string>)
    ensures UniqueValues(UniqueValues(start + seen) + here) == UniqueValues(start + (seen + here))
  {
    var before := start + seen;
    assert start + (seen + here) == before + here;
    UniqueValuesAbsorbs(before, here);
  }

  /** The body of the loop over the entries of a directory: one entry, which may be a whole subdirectory. */
  method InspectEntry(config: CodeSearchConfig, extensionOf: ExtensionReader, projectPath: string,
                      directoryPath: string, file: Node, searchedFiles: StringSet)
    returns (matchingFiles: seq<string>)
    requires searchedFiles.Valid()
    modifies searchedFiles
    ensures searchedFiles.Valid()
    ensures matchingFiles == VisitEntry(config, extensionOf, projectPath, directoryPath, file).matched
    ensures searchedFiles.elements ==
      UniqueValues(old(searchedFiles.elements) + VisitEntry(config, extensionOf, projectPath, directoryPath, file).searched)
    decreases file, 2
  {
    ghost var start := searchedFiles.elements;
    UniqueValuesIdentity(start);
    assert start + [] == start;
    matchingFiles := [];
    var filePath := PathJoin(directoryPath, file.name);
    var linkStat := GetFileLinkStats(file);
    if linkStat.None? || !IsValidFile(config, extensionOf, file.name, linkStat.value) {
      return;
    }
    if linkStat.value.isDirectory {
      matchingFiles := SearchFilesRecursivelyForCode(config, extensionOf, projectPath, filePath, file, searchedFiles);
    } else if linkStat.value.isFile {
      if IsInspected(config, file.name) {
        var fileContent := ReadFileContent(file);
        var codePattern := CodePatternFor(config, extensionOf(file.name));
        var readable := GetReadablePath(projectPath, filePath);
        AddedValue(start, readable);
        searchedFiles.Add(readable);
        if fileContent.Some? && fileContent.value != "" && codePattern.Some? && codePattern.value(fileContent.value) {
          matchingFiles := [readable];
        }
      }
    }
  }

  /** The result of a code search and its formatted views. */
  datatype CodeSearchResult = CodeSearchResult(matchedFiles: seq<string>, searchedFiles: seq<string>, config: CodeSearchConfig)

  /**
   * `searchFilesForCode(config, directoryPath)` for the project at
   * `projectPath`: always a result, holding the matching files and the set
   * of searched files in insertion order.
   */
  method SearchFilesForCode(config: CodeSearchConfig, extensionOf: ExtensionReader, projectPath: string, directoryPath: string, node: Node)
    returns (result: CodeSearchResult)
    ensures result.matchedFiles == Visit(config, extensionOf, projectPath, directoryPath, node).matched
    ensures result.searchedFiles == UniqueValues(Visit(config, extensionOf, projectPath, directoryPath, node).searched)
    ensures NoDuplicates(result.searchedFiles)
    ensures result.config == config
  {
    var searchedFiles := new StringSet();
    var matchingFiles := SearchFilesRecursivelyForCode(config, extensionOf, projectPath, directoryPath, node, searchedFiles);
    assert [] + Visit(config, extensionOf, projectPath, directoryPath, node).searched == Visit(config, extensionOf, projectPath, directoryPath, node).searched;
    result := CodeSearchResult(matchingFiles, searchedFiles.elements, config);
  }

  /** A file path wrapped in single quotes. */
  function Quoted(file: string): string {
    "'" + file + "'"
  }

  /** `formattedMatchedFiles`: undefined iff nothing matched, else each path quoted, joined by `", "`. */
  function FormattedMatchedFiles(result: CodeSearchResult): (r: Option<string>)
    ensures r.None? <==> |result.matchedFiles| == 0
    ensures |result.matchedFiles| == 1 ==> r == Some("'" + result.matchedFiles[0] + "'")
  {
    if |result.matchedFiles| > 0 then Some(Join(Map(result.matchedFiles, Quoted), ", ")) else None
  }

  /** `formattedTargetFileNames`: the target names joined by `", "`. */
  function FormattedTargetFileNames(result: CodeSearchResult): (r: string)
    ensures |result.config.targetFileNames| == 1 ==> r == result.config.targetFileNames[0]
    ensures |result.config.targetFileNames| == 0 ==> r == ""
  {
    Join(result.config.targetFileNames, ", ")
  }

  /** `formattedTargetPatterns`: the target keywords joined by `", "`. */
  function FormattedTargetPatterns(result: CodeSearchResult): (r: string)
    ensures |result.config.targetFilePatterns| == 1 ==> r == result.config.targetFilePatterns[0]
    ensures |result.config.targetFilePatterns| == 0 ==> r == ""
  {
    Join(result.config.targetFilePatterns, ", ")
  }

  /** `formattedSearchedFiles`: the searched files in insertion order, joined by `", "`. */
  function FormattedSearchedFiles(result: CodeSearchResult): (r: string)
    ensures |result.searchedFiles| == 0 ==> r == ""
    ensures |result.searchedFiles| == 1 ==> r == result.searchedFiles[0]
  {
    Join(result.searchedFiles, ", ")
  }

  /** One more matched file extends the list by `", "` and that file in quotes. */
  lemma FormattedMatchedFilesAppend(result: CodeSearchResult, file: string)
    requires |result.matchedFiles| > 0
    ensures FormattedMatchedFiles(result.(matchedFiles := result.matchedFiles + [file]))
      == Some(FormattedMatchedFiles(result).value + ", '" + file + "'")
  {
    MapAppendOne(result.matchedFiles, file, Quoted);
    var joined := Join(Map(result.matchedFiles, Quoted), ", ");
    JoinAppend(Map(result.matchedFiles, Quoted), Quoted(file), ", ");
    assert joined + ", " + Quoted(file) == joined + ", '" + file + "'";
  }

  /** One more searched file extends the list by `", "` and that file. */
  lemma FormattedSearchedFilesAppend(result: CodeSearchResult, file: string)
    requires |result.searchedFiles| > 0
    ensures FormattedSearchedFiles(result.(searchedFiles := result.searchedFiles + [file]))
      == FormattedSearchedFiles(result) + ", " + file
  {
    JoinAppend(result.searchedFiles, file, ", ");
  }

  // ---------------------------------------------------------------------------
  // Properties of the walk

  /** Every matched file was also recorded as searched. */
  lemma {:induction false} MatchedAreSearched(config: CodeSearchConfig, extensionOf: ExtensionReader, projectPath: string, directoryPath: string, node: Node)
    ensures forall p | p in Visit(config, extensionOf, projectPath, directoryPath, node).matched ::
      p in Visit(config, extensionOf, projectPath, directoryPath, node).searched
    decreases node, 1
  {
    var files := ReadDirectory(node);
    if files.Some? && |files.value| > 0 {
      MatchedAreSearchedFrom(config, extensionOf, projectPath, directoryPath, Resolve(node).value, 0);
    }
  }

  lemma {:induction false} MatchedAreSearchedFrom(config: CodeSearchConfig, extensionOf: ExtensionReader, projectPath: string, directoryPath: string, dir: Node, i: nat)
    requires dir.Directory? && i <= |dir.entries|
    ensures forall p | p in VisitFrom(config, extensionOf, projectPath, directoryPath, dir, i).matched ::
      p in VisitFrom(config, extensionOf, projectPath, directoryPath, dir, i).searched
    decreases dir, 0, |dir.entries| - i
  {
    if i < |dir.entries| {
      var file := dir.entries[i];
      assert file in dir.entries;
      VisitFromStep(config, extensionOf, projectPath, directoryPath, dir, i);
      var here := VisitEntry(config, extensionOf, projectPath, directoryPath, file);
      var stat := GetFileLinkStats(file);
      if stat.Some? && IsValidFile(config, extensionOf, file.name, stat.value) && stat.value.isDirectory {
        var filePath := PathJoin(directoryPath, file.name);
        assert here == Visit(config, extensionOf, projectPath, filePath, file);
        MatchedAreSearched(config, extensionOf, projectPath, filePath, file);
      }
      assert forall p | p in here.matched :: p in here.searched;
      MatchedAreSearchedFrom(config, extensionOf, projectPath, directoryPath, dir, i + 1);
    }
  }

  /** With the extension undefined, as written, no file passes the validity test: nothing is searched or matched. */
  lemma {:induction false} UndefinedExtensionFindsNothing(config: CodeSearchConfig, projectPath: string, directoryPath: string, node: Node)
    ensures Visit(config, UndefinedExtension(), projectPath, directoryPath, node) == Found([], [])
    decreases node, 1
  {
    var files := ReadDirectory(node);
    if files.Some? && |files.value| > 0 {
      UndefinedExtensionFindsNothingFrom(config, projectPath, directoryPath, Resolve(node).value, 0);
    }
  }

  lemma {:induction false} UndefinedExtensionFindsNothingFrom(config: CodeSearchConfig, projectPath: string, directoryPath: string, dir: Node, i: nat)
    requires dir.Directory? && i <= |dir.entries|
    ensures VisitFrom(config, UndefinedExtension(), projectPath, directoryPath, dir, i) == Found([], [])
    decreases dir, 0, |dir.entries| - i
  {
    if i < |dir.entries| {
      var file := dir.entries[i];
      assert file in dir.entries;
      var stat := GetFileLinkStats(file);
      if stat.Some? && IsValidFile(config, UndefinedExtension(), file.name, stat.value) && stat.value.isDirectory {
        UndefinedExtensionFindsNothing(config, projectPath, PathJoin(directoryPath, file.name), file);
      }
      UndefinedExtensionFindsNothingFrom(config, projectPath, directoryPath, dir, i + 1);
    }
  }

  /**
   * A regular file (reached directly or through links) is read exactly when
   * its name is not ignored, its extension is a key of the code patterns
   * and some inspection pattern accepts its name.
   */
  lemma FileInspectedIff(config: CodeSearchConfig, extensionOf: ExtensionReader, projectPath: string, directoryPath: string, file: Node)
    requires Resolve(file).Some? && Resolve(file).value.RegularFile?
    ensures VisitEntry(config, extensionOf, projectPath, directoryPath, file).searched != [] <==>
      !config.shouldIgnore(file.name) && extensionOf(file.name).Some? &&
      extensionOf(file.name).value in TargetExtensions(config) && IsInspected(config, file.name)
  {
  }

  /** A file that is read but cannot be read (or is empty) is recorded as searched and never matched. */
  lemma UnreadableFileSearchedNotMatched(config: CodeSearchConfig, extensionOf: ExtensionReader, projectPath: string,
                                         directoryPath: string, name: string, content: Option<string>)
    requires !config.shouldIgnore(name) && extensionOf(name).Some? && extensionOf(name).value in TargetExtensions(config)
    requires IsInspected(config, name)
    requires content == None || content == Some("")
    ensures VisitEntry(config, extensionOf, projectPath, directoryPath, RegularFile(name, content)) ==
      Found([], [GetReadablePath(projectPath, PathJoin(directoryPath, name))])
  {
    var file := RegularFile(name, content);
    assert GetFileLinkStats(file) == Some(FileLinkStats(false, true, false));
    assert ReadFileContent(file) == content;
  }

  /** A directory whose name the ignore rule rejects is neither entered nor inspected. */
  lemma IgnoredEntryContributesNothing(config: CodeSearchConfig, extensionOf: ExtensionReader, projectPath: string, directoryPath: string, file: Node)
    requires config.shouldIgnore(file.name)
    ensures VisitEntry(config, extensionOf, projectPath, directoryPath, file) == Found([], [])
  {
  }
}
