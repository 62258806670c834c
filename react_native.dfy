/**
 * The React Native checks of src/checks/react_native.ts: the search for
 * the file that initializes the SDK, the conflicting-library check on
 * package.json, and the summary of the SDK version recorded in the lock
 * files.
 *
 * `JSON.parse` is not modelled: a parse is a function from text to a
 * document, absent when the text does not parse. Where the code reads
 * `file.path`, a property that the project's file records do not have,
 * the text is `undefined`, as JavaScript writes it.
 */
module ReactNativeChecks {
  import opened Wrappers
  import opened Strings
  import opened Arrays
  import opened Scan
  import opened Json
  import opened FileTree
  import opened CodeSearch
  import opened LockFiles
  import opened PodLock
  import opened Logging

  const PackageName := "customerio-reactnative"
  const SdkInitializationCall := "CustomerIO.initialize"
  const UndefinedPath := "undefined"

  const CheckingInitializationLine := "🔎 Checking for SDK Initialization in React Native"
  const InitializationFoundLine := "SDK Initialization found in"
  const InitializationMissingLine := "SDK Initialization not found in suggested files"
  const CheckingConflictsLine := "Checking for conflicting libraries in: "
  const NoConflictsLine := "No conflicting libraries found in package.json"
  const ConflictsLine := "More than one libraries found in package.json for handling push notifications"
  const NoLockFileLine := "No lock file found for package.json"
  const LockFileReadErrorLine := "Unable to read lock files for package.json: %s"

  // ---------------------------------------------------------------------------
  // searchFilesForSDKInitialization

  /** `allowedExtensions`. */
  const AllowedExtensions := [".js", ".jsx", ".ts", ".tsx"]

  /** `filesForCodeInspection`: the only names whose content is read. */
  const FilesForCodeInspection := ["App.js", "App.jsx", "App.ts", "App.tsx", "FeaturesUpdate.js", "CustomerIOService.js", "CustomerIOService.ts"]

  /** Entries the walk passes over by name: hidden, private and `node_modules` entries. */
  predicate SkippedName(name: string) {
    StartsWith(name, ".") || StartsWith(name, "_") || StartsWith(name, "node_modules")
  }

  /**
   * Whether an entry is passed over before its kind is looked at: by its
   * name, because it cannot be stat'ed, or as a link (which the stats,
   * taken with `statSync`, never report), or as neither a directory nor a
   * file with an allowed extension (which a stat'ed entry never is).
   */
  predicate Passed(file: Node) {
    || SkippedName(file.name)
    || GetFileLinkStats(file).None?
    || GetFileLinkStats(file).value.isSymbolicLink
    || (!GetFileLinkStats(file).value.isDirectory && !GetFileLinkStats(file).value.isFile
        && Extname(file.name) !in AllowedExtensions)
  }

  /** A listed file, read, whose text mentions `CustomerIO.initialize`. */
  predicate InitializesSdk(file: Node) {
    && file.name in FilesForCodeInspection
    && ReadFileContent(file).Some?
    && Contains(ReadFileContent(file).value, SdkInitializationCall)
  }

  /**
   * The name the search returns for the directory `n`: the first hit in
   * depth-first listing order. An unreadable or empty directory gives
   * undefined.
   */
  function InitFileIn(n: Node): (r: Option<string>)
    ensures ReadDirectory(n).None? || ReadDirectory(n).value == [] ==> r.None?
    decreases n, 1
  {
    match ReadDirectory(n)
    case None => None
    case Some(files) => if |files| == 0 then None else InitFileFrom(Resolve(n).value, 0)
  }

  /** The first hit among the entries of `dir` from index `i` on. */
  function InitFileFrom(dir: Node, i: nat): Option<string>
    requires dir.Directory? && i <= |dir.entries|
    decreases dir, 0, |dir.entries| - i
  {
    if i == |dir.entries| then None
    else
      assert dir.entries[i] in dir.entries;
      var hit := EntryInitFile(dir.entries[i]);
      if hit.Some? then hit else InitFileFrom(dir, i + 1)
  }

  /**
   * What one entry contributes: passed-over entries nothing, a directory
   * the result of searching it, a file its own name when it initializes
   * the SDK.
   */
  function EntryInitFile(file: Node): (r: Option<string>)
    ensures Passed(file) ==> r.None?
    ensures !Passed(file) && Resolve(file).value.RegularFile? ==>
      (r.Some? <==> InitializesSdk(file)) && (r.Some? ==> r.value == file.name)
    decreases file, 2
  {
    if Passed(file) then None
    else if GetFileLinkStats(file).value.isDirectory then InitFileIn(file)
    else if GetFileLinkStats(file).value.isFile && file.name in FilesForCodeInspection then
      var fileContent := ReadFileContent(file);
      if fileContent.Some? && Contains(fileContent.value, SdkInitializationCall) then Some(file.name) else None
    else None
  }

  /**
   * The reference walk: every hit of the tree in depth-first listing
   * order, without stopping at the first. Each is a listed name.
   */
  function HitsIn(n: Node): (r: seq<string>)
    ensures forall x | x in r :: x in FilesForCodeInspection
    decreases n, 1
  {
    match ReadDirectory(n)
    case None => []
    case Some(files) => if |files| == 0 then [] else HitsFrom(Resolve(n).value, 0)
  }

  function HitsFrom(dir: Node, i: nat): (r: seq<string>)
    requires dir.Directory? && i <= |dir.entries|
    ensures forall x | x in r :: x in FilesForCodeInspection
    decreases dir, 0, |dir.entries| - i
  {
    if i == |dir.entries| then []
    else
      assert dir.entries[i] in dir.entries;
      EntryHits(dir.entries[i]) + HitsFrom(dir, i + 1)
  }

  function EntryHits(file: Node): (r: seq<string>)
    ensures forall x | x in r :: x in FilesForCodeInspection
    decreases file, 2
  {
    if Passed(file) then []
    else if GetFileLinkStats(file).value.isDirectory then HitsIn(file)
    else if GetFileLinkStats(file).value.isFile && InitializesSdk(file) then [file.name]
    else []
  }

  /** The first element, if any. */
  function First(s: seq<string>): (r: Option<string>)
    ensures r.None? <==> |s| == 0
    ensures r.Some? ==> r.value == s[0]
  {
    if |s| == 0 then None else Some(s[0])
  }

  /**
   * The search stops at the first hit: its result is the first of all
   * the hits of the tree, and undefined exactly when there is none.
   */
  lemma {:induction false} InitFileIsFirstHit(n: Node)
    ensures InitFileIn(n) == First(HitsIn(n))
    decreases n, 1
  {
    match ReadDirectory(n)
    case None =>
    case Some(files) =>
      if |files| > 0 {
        InitFileFromIsFirstHit(Resolve(n).value, 0);
      }
  }

  lemma {:induction false} InitFileFromIsFirstHit(dir: Node, i: nat)
    requires dir.Directory? && i <= |dir.entries|
    ensures InitFileFrom(dir, i) == First(HitsFrom(dir, i))
    decreases dir, 0, |dir.entries| - i
  {
    if i < |dir.entries| {
      assert dir.entries[i] in dir.entries;
      EntryInitFileIsFirstHit(dir.entries[i]);
      InitFileFromIsFirstHit(dir, i + 1);
    }
  }

  lemma {:induction false} EntryInitFileIsFirstHit(file: Node)
    ensures EntryInitFile(file) == First(EntryHits(file))
    decreases file, 2
  {
    if !Passed(file) && GetFileLinkStats(file).value.isDirectory {
      InitFileIsFirstHit(file);
    }
  }

  /** The search returns a bare listed file name, never a path. */
  lemma InitFileIsListedName(n: Node)
    ensures InitFileIn(n).Some? ==> InitFileIn(n).value in FilesForCodeInspection
  {
    InitFileIsFirstHit(n);
  }

  /**
   * A hit in an earlier entry decides the search: the later entries of the
   * directory are not looked at.
   */
  lemma EarlierHitWins(dir: Node, i: nat)
    requires dir.Directory? && i < |dir.entries| && EntryInitFile(dir.entries[i]).Some?
    ensures InitFileFrom(dir, i) == EntryInitFile(dir.entries[i])
  {
  }

  /**
   * `searchFilesForSDKInitialization` (src/checks/react_native.ts:82-124):
   * the listing is walked in order, passed-over entries are skipped with
   * `continue`, a directory is searched recursively and a hit there ends
   * the loop with `break`, and a listed file that calls
   * `CustomerIO.initialize` is returned at once.
   */
  method SearchFilesForSdkInitialization(n: Node) returns (r: Option<string>)
    ensures r == InitFileIn(n)
    decreases n
  {
    var files := ReadDirectory(n);
    if files.None? || |files.value| == 0 {
      return None;
    }
    ghost var dir := Resolve(n).value;
    var fileNameForSdkInitialization: Option<string> := None;
    for i := 0 to |files.value|
      invariant InitFileFrom(dir, 0) == InitFileFrom(dir, i)
      invariant fileNameForSdkInitialization.None?
    {
      var file := files.value[i];
      assert file in dir.entries;
      var linkStat := GetFileLinkStats(file);
      if SkippedName(file.name) || linkStat.None? || linkStat.value.isSymbolicLink {
        continue;
      }
      if !linkStat.value.isDirectory && !linkStat.value.isFile && Extname(file.name) !in AllowedExtensions {
        continue;
      }
      if linkStat.value.isDirectory {
        fileNameForSdkInitialization := SearchFilesForSdkInitialization(file);
        if fileNameForSdkInitialization.Some? {
          break;
        }
      } else if linkStat.value.isFile && file.name in FilesForCodeInspection {
        var fileContent := ReadFileContent(file);
        if fileContent.Some? && Contains(fileContent.value, SdkInitializationCall) {
          return Some(file.name);
        }
      }
    }
    return fileNameForSdkInitialization;
  }

  /** The lines of `validateSDKInitialization`: a success when the search found a file, a warning otherwise. */
  function InitializationLog(found: Option<string>): (log: seq<LogEntry>)
    ensures |log| == 2 && log[0] == LogEntry(Info, CheckingInitializationLine)
    ensures log[1].level == Success <==> found.Some?
    ensures log[1].level == Warning <==> found.None?
  {
    [LogEntry(Info, CheckingInitializationLine),
     if found.Some? then LogEntry(Success, InitializationFoundLine) else LogEntry(Warning, InitializationMissingLine)]
  }

  /**
   * `validateSDKInitialization` (src/checks/react_native.ts:54-69) on the
   * tree at the project path. The file name is passed to the logger as an
   * extra argument.
   */
  method ValidateSdkInitialization(projectRoot: Node) returns (log: seq<LogEntry>)
    ensures log == InitializationLog(InitFileIn(projectRoot))
  {
    var sdkInitializationFile := SearchFilesForSdkInitialization(projectRoot);
    log := InitializationLog(sdkInitializationFile);
  }

  // ---------------------------------------------------------------------------
  // validateNoConflictingSDKs

  /**
   * `Conflicts.reactNativePackages.filter(lib => dependencies.includes(lib))`:
   * the listed libraries that are exact dependency names, in list order.
   */
  function ConflictingLibraries(reactNativePackages: seq<string>, dependencies: seq<string>): (r: seq<string>)
    ensures forall lib :: lib in r <==> lib in reactNativePackages && lib in dependencies
    ensures |r| == 0 <==> forall lib | lib in reactNativePackages :: lib !in dependencies
  {
    var r := Filter(reactNativePackages, (lib: string) => lib in dependencies);
    assert |r| > 0 ==> r[0] in r;
    r
  }

  /** The libraries are kept in list order: filtering a split list is filtering each part. */
  lemma ConflictsInListOrder(first: seq<string>, rest: seq<string>, dependencies: seq<string>)
    ensures ConflictingLibraries(first + rest, dependencies)
         == ConflictingLibraries(first, dependencies) + ConflictingLibraries(rest, dependencies)
  {
    FilterAppend(first, rest, (lib: string) => lib in dependencies);
  }

  /** `Object.keys(packageJson.dependencies || {})`. */
  function DependencyNames(packageJson: Option<Json>): (r: Eval<seq<string>>)
    ensures r.Throws? <==> Member(packageJson, "dependencies").Throws?
  {
    match Member(packageJson, "dependencies")
    case Throws => Throws
    case Returns(dependencies) =>
      if Truthy(dependencies) then ObjectKeys(dependencies) else Returns([])
  }

  /** The summary line giving the `dependencies` entry of the SDK. */
  function PackageJsonVersionEntry(sdkVersion: Option<Json>): LogEntry {
    LogEntry(Info, PackageName + " version in package.json: " + TemplateText(sdkVersion))
  }

  /**
   * The log of `validateNoConflictingSDKs` (src/checks/react_native.ts:21-52)
   * for the parsed package.json: it throws after its first line when the
   * document is missing or null or has no `dependencies`; otherwise a
   * success exactly when no listed library is a dependency.
   */
  function ConflictsRun(packageJson: Option<Json>, reactNativePackages: seq<string>): (run: CheckRun)
    ensures |run.log| >= 1 && run.log[0] == LogEntry(Info, CheckingConflictsLine + UndefinedPath)
    ensures run.threw <==> DependencyEntry(packageJson, PackageName).Throws?
    ensures run.threw ==> |run.log| == 1
    ensures !run.threw ==> |run.log| == 2
    ensures !run.threw ==> (run.log[1].level == Success <==>
      forall lib | lib in reactNativePackages :: lib !in DependencyNames(packageJson).value)
  {
    var searching := LogEntry(Info, CheckingConflictsLine + UndefinedPath);
    match DependencyNames(packageJson)
    case Throws => CheckRun([searching], true)
    case Returns(dependencies) =>
      match DependencyEntry(packageJson, PackageName)
      case Throws => CheckRun([searching], true)
      case Returns(_) =>
        var conflictingLibraries := ConflictingLibraries(reactNativePackages, dependencies);
        if |conflictingLibraries| == 0 then CheckRun([searching, LogEntry(Success, NoConflictsLine)], false)
        else CheckRun([searching, LogEntry(Warning, ConflictsLine)], false)
  }

  /** The summary entry of the check: present exactly when reading the SDK's dependency did not throw. */
  function ConflictsSummary(packageJson: Option<Json>): (entries: seq<LogEntry>)
    ensures DependencyEntry(packageJson, PackageName).Throws? ==> entries == []
    ensures DependencyEntry(packageJson, PackageName).Returns? ==>
      entries == [PackageJsonVersionEntry(DependencyEntry(packageJson, PackageName).value)]
  {
    match DependencyEntry(packageJson, PackageName)
    case Throws => []
    case Returns(v) => [PackageJsonVersionEntry(v)]
  }

  /** `validateNoConflictingSDKs`, with its summary line pushed onto the project's summary. */
  method ValidateNoConflictingSdks(summary: SummaryLog, packageJson: Option<Json>, reactNativePackages: seq<string>)
    returns (run: CheckRun)
    modifies summary
    ensures run == ConflictsRun(packageJson, reactNativePackages)
    ensures summary.entries == old(summary.entries) + ConflictsSummary(packageJson)
  {
    var searching := LogEntry(Info, CheckingConflictsLine + UndefinedPath);
    var dependencies := DependencyNames(packageJson);
    if dependencies.Throws? {
      return CheckRun([searching], true);
    }
    var sdkVersionInPackageJson := DependencyEntry(packageJson, PackageName);
    if sdkVersionInPackageJson.Throws? {
      return CheckRun([searching], true);
    }
    summary.Push(PackageJsonVersionEntry(sdkVersionInPackageJson.value));
    var conflictingLibraries := ConflictingLibraries(reactNativePackages, dependencies.value);
    if |conflictingLibraries| == 0 {
      run := CheckRun([searching, LogEntry(Success, NoConflictsLine)], false);
    } else {
      run := CheckRun([searching, LogEntry(Warning, ConflictsLine)], false);
    }
  }

  // ---------------------------------------------------------------------------
  // collectSummary

  /** The lock file `findPreferredLockFile` chose: its readable path, its `type` argument and its content. */
  datatype LockFile = LockFile(readablePath: string, lockType: string, content: Option<string>)

  /**
   * The version the first block reads from a lock file's text, by the same
   * code as the legacy `extractVersionFromPackageLock`; only the npm branch
   * parses it.
   */
  function LockFileVersion(content: string, lockType: string, parse: string -> Option<Json>): (r: Eval<Option<Json>>)
    ensures lockType != "npm" ==> r.Returns?
    ensures lockType == "yarn" ==> (r.value.Some? <==> YarnLockVersion(content, PackageName).Some?)
    ensures lockType == "npm" && ReturnsObject(DependencyEntry(parse(content), PackageName))
      ==> r == Returns(Lookup(ObjectMembers(DependencyEntry(parse(content), PackageName)), "version"))
  {
    var lock := if lockType == "npm" then parse(content) else None;
    ExtractVersionFromPackageLockLegacy(content, lockType, PackageName, lock)
  }

  /**
   * The first `try` block (src/checks/react_native.ts:127-168): the entry
   * about the lock file, or a throw when the npm lock file does not parse
   * or does not list the SDK under `dependencies`.
   */
  function LockFileSummary(packageLockFile: Option<LockFile>, parse: string -> Option<Json>): (r: Eval<LogEntry>)
    ensures packageLockFile.None? || packageLockFile.value.content.None? || packageLockFile.value.content.value == "" ==>
      r == Returns(LogEntry(Warning, NoLockFileLine))
    ensures r.Throws? ==> packageLockFile.value.lockType == "npm"
    ensures r.Returns? && r.value.level == Info ==>
      packageLockFile.Some? && packageLockFile.value.content.Some? && (packageLockFile.value.lockType in ["yarn", "npm"])
  {
    if packageLockFile.None? || packageLockFile.value.content.None? || packageLockFile.value.content.value == "" then
      Returns(LogEntry(Warning, NoLockFileLine))
    else
      match LockFileVersion(packageLockFile.value.content.value, packageLockFile.value.lockType, parse)
      case Throws => Throws
      case Returns(sdkVersionInLockFile) => Returns(LockVersionEntry(sdkVersionInLockFile))
  }

  /** The entry for the version a lock file gave: its text when it is truthy, a warning otherwise. */
  function LockVersionEntry(sdkVersionInLockFile: Option<Json>): (e: LogEntry)
    ensures e.level == Info <==> Truthy(sdkVersionInLockFile)
  {
    if Truthy(sdkVersionInLockFile) then
      LogEntry(Info, PackageName + " version in " + UndefinedPath + " file set to " + TemplateText(sdkVersionInLockFile))
    else LogEntry(Warning, PackageName + " not found in " + UndefinedPath)
  }

  /** A yarn lock file summarises the version the first matching block gives, or a warning without one. */
  lemma YarnLockSummary(readablePath: string, content: string, parse: string -> Option<Json>)
    requires content != ""
    ensures var r := LockFileSummary(Some(LockFile(readablePath, "yarn", Some(content))), parse);
      && r.Returns?
      && (YarnLockVersion(content, PackageName).Some? ==>
            r.value == LogEntry(Info, PackageName + " version in " + UndefinedPath + " file set to " + YarnLockVersion(content, PackageName).value))
      && (YarnLockVersion(content, PackageName).None? ==> r.value == LogEntry(Warning, PackageName + " not found in " + UndefinedPath))
  {
    var v := YarnLockVersion(content, PackageName);
    YarnLockVersionNonEmpty(content, PackageName);
    var e := ExtractVersionFromPackageLockLegacy(content, "yarn", PackageName, None);
    assert e == if v.Some? then Returns(Some(JString(v.value))) else Returns(None);
    assert LockFileSummary(Some(LockFile(readablePath, "yarn", Some(content))), parse) == Returns(LockVersionEntry(e.value));
  }

  /** An npm lock file that does not list the SDK under `dependencies` makes the block throw, so no entry is added. */
  lemma NpmLockWithoutSdkThrows(readablePath: string, content: string, parse: string -> Option<Json>)
    requires content != ""
    requires DependencyEntry(parse(content), PackageName).Throws? || DependencyEntry(parse(content), PackageName) == Returns(None)
    ensures LockFileSummary(Some(LockFile(readablePath, "npm", Some(content))), parse).Throws?
  {
  }

  /** The pod lines the global `iOS_POD_CIO_REACT_NATIVE` pattern matches, as whole matches. */
  function ReactNativePodMatches(text: string): (r: seq<string>)
    ensures forall i | 0 <= i < |r| :: |r[i]| > 0
  {
    var matches := AllMatches(PodMatcher(PackageName), text, 0);
    AllMatchesShape(PodMatcher(PackageName), text, 0);
    seq(|matches|, i requires 0 <= i < |matches| => text[matches[i].start..matches[i].end])
  }

  /**
   * The second `try` block (src/checks/react_native.ts:170-195). `match`
   * with a global pattern returns the whole matches, so element 1 is the
   * second pod line, not a captured version. Without content `match`
   * throws.
   */
  function PodfileLockSummary(podfileLockContent: Option<string>): (r: Eval<LogEntry>)
    ensures r.Throws? <==> podfileLockContent.None?
    ensures r.Returns? ==> (r.value.level == Info <==> |ReactNativePodMatches(podfileLockContent.value)| >= 2)
  {
    match podfileLockContent
    case None => Throws
    case Some(text) =>
      var reactNativePodMatch := ReactNativePodMatches(text);
      if |reactNativePodMatch| >= 2 then
        Returns(LogEntry(Info, PackageName + " version in " + UndefinedPath + " set to " + reactNativePodMatch[1]))
      else Returns(LogEntry(Warning, PackageName + " not found in " + UndefinedPath))
  }

  /**
   * The evidently intended reading of the Podfile.lock: the version
   * captured by the first pod line, as `match` with a non-global pattern
   * gives it, and a warning only when there is no pod line.
   */
  function PodfileLockSummaryIntended(podfileLockContent: Option<string>): (r: Eval<LogEntry>)
    ensures r.Throws? <==> podfileLockContent.None?
    ensures r.Returns? ==> (r.value.level == Info <==> exists p :: PodMatchAt(podfileLockContent.value, PackageName, p).Some?)
  {
    match podfileLockContent
    case None => Throws
    case Some(text) =>
      var m := NextMatch(PodMatcher(PackageName), text, 0);
      assert forall p: nat :: PodMatcher(PackageName)(text, p) == PodMatchAt(text, PackageName, p);
      if m.Some? then Returns(LogEntry(Info, PackageName + " version in " + UndefinedPath + " set to " + m.value.capture))
      else Returns(LogEntry(Warning, PackageName + " not found in " + UndefinedPath))
  }

  /** A Podfile.lock whose only pod line is `- customerio-reactnative (1)`. */
  const SinglePodLine := Header(PackageName) + " (1)"

  /** The single pod line is a match of the pattern, and the only one. */
  lemma SinglePodLineMatches()
    ensures PodMatchAt(SinglePodLine, PackageName, 0) == Some(Span(0, "1", |SinglePodLine|))
    ensures AllMatches(PodMatcher(PackageName), SinglePodLine, 0) == [Span(0, "1", |SinglePodLine|)]
  {
    var h := Header(PackageName);
    var t := SinglePodLine;
    assert t[..|h|] == h;
    assert t[|h|..] == " (1)";
    assert t[|h|] == ' ' && t[|h| + 1] == '(' && t[|h| + 3] == ')';
    assert t[|h| + 2..|h| + 3] == "1";
    PodMatchAtComplete(t, PackageName, 0, 1, "1");
    assert PodMatcher(PackageName)(t, 0) == PodMatchAt(t, PackageName, 0);
    assert NextMatch(PodMatcher(PackageName), t, |t|) == None;
  }

  /**
   * As written, a Podfile.lock that records the SDK's pod once is reported
   * as not listing it; as intended its version is summarised.
   */
  lemma SinglePodLineIsNotFound()
    ensures PodfileLockSummary(Some(SinglePodLine)) == Returns(LogEntry(Warning, PackageName + " not found in " + UndefinedPath))
    ensures PodfileLockSummaryIntended(Some(SinglePodLine)) == Returns(LogEntry(Info, PackageName + " version in " + UndefinedPath + " set to " + "1"))
  {
    SinglePodLineMatches();
    assert |ReactNativePodMatches(SinglePodLine)| == 1;
    assert PodMatcher(PackageName)(SinglePodLine, 0) == PodMatchAt(SinglePodLine, PackageName, 0);
    var m := NextMatch(PodMatcher(PackageName), SinglePodLine, 0);
    assert m == Some(Span(0, "1", |SinglePodLine|));
    assert PodfileLockSummaryIntended(Some(SinglePodLine))
      == Returns(LogEntry(Info, PackageName + " version in " + UndefinedPath + " set to " + m.value.capture));
  }

  /** The entry a block pushes: its own, unless it threw. */
  function Completed(e: Eval<LogEntry>): (entries: seq<LogEntry>)
    ensures e.Throws? <==> entries == []
    ensures e.Returns? ==> entries == [e.value]
  {
    if e.Throws? then [] else [e.value]
  }

  /** The line the `catch` of a block logs: one error line, when the block threw. */
  function Caught(e: Eval<LogEntry>, message: string): (log: seq<LogEntry>)
    ensures e.Throws? <==> log == [LogEntry(Error, message)]
    ensures e.Returns? <==> log == []
  {
    if e.Throws? then [LogEntry(Error, message)] else []
  }

  /** The summary entries `collectSummary` pushes: one per block that completes (the Podfile.lock block as intended). */
  function SummaryEntries(packageLockFile: Option<LockFile>, parse: string -> Option<Json>, podfileLockContent: Option<string>): seq<LogEntry> {
    Completed(LockFileSummary(packageLockFile, parse)) + Completed(PodfileLockSummaryIntended(podfileLockContent))
  }

  /** The lines `collectSummary` logs: one error per block that throws. */
  function SummaryLogLines(packageLockFile: Option<LockFile>, parse: string -> Option<Json>, podfileLockContent: Option<string>): seq<LogEntry> {
    Caught(LockFileSummary(packageLockFile, parse), LockFileReadErrorLine)
      + Caught(PodfileLockSummaryIntended(podfileLockContent), "Unable to read Podfile.lock at " + UndefinedPath + ": %s")
  }

  /** Each block either pushes its entry or logs its error, never both. */
  lemma SummaryAccountsForBothBlocks(packageLockFile: Option<LockFile>, parse: string -> Option<Json>, podfileLockContent: Option<string>)
    ensures |SummaryEntries(packageLockFile, parse, podfileLockContent)| + |SummaryLogLines(packageLockFile, parse, podfileLockContent)| == 2
    ensures forall e | e in SummaryLogLines(packageLockFile, parse, podfileLockContent) :: e.level == Error
  {
  }

  /**
   * The two blocks are independent: whatever happens to the lock file, the
   * Podfile.lock block decides the last entry or the last error line.
   */
  lemma PodfileBlockIndependent(a: Option<LockFile>, b: Option<LockFile>, parse: string -> Option<Json>, podfileLockContent: Option<string>)
    ensures var ea := SummaryEntries(a, parse, podfileLockContent);
      var eb := SummaryEntries(b, parse, podfileLockContent);
      PodfileLockSummaryIntended(podfileLockContent).Returns? ==> ea[|ea| - 1] == eb[|eb| - 1]
    ensures var la := SummaryLogLines(a, parse, podfileLockContent);
      var lb := SummaryLogLines(b, parse, podfileLockContent);
      PodfileLockSummaryIntended(podfileLockContent).Throws? ==> |la| >= 1 && |lb| >= 1 && la[|la| - 1] == lb[|lb| - 1]
  {
  }

  /**
   * `collectSummary` (src/checks/react_native.ts:126-196): both blocks, each
   * catching its own exception, with the Podfile.lock version read as the
   * first pod line's capture.
   */
  method CollectSummary(summary: SummaryLog, packageLockFile: Option<LockFile>, parse: string -> Option<Json>, podfileLockContent: Option<string>)
    returns (log: seq<LogEntry>)
    modifies summary
    ensures log == SummaryLogLines(packageLockFile, parse, podfileLockContent)
    ensures summary.entries == old(summary.entries) + SummaryEntries(packageLockFile, parse, podfileLockContent)
  {
    var lockEntry := LockFileSummary(packageLockFile, parse);
    if lockEntry.Returns? {
      summary.Push(lockEntry.value);
    }
    var podEntry := PodfileLockSummaryIntended(podfileLockContent);
    if podEntry.Returns? {
      summary.Push(podEntry.value);
    }
    log := Caught(lockEntry, LockFileReadErrorLine) + Caught(podEntry, "Unable to read Podfile.lock at " + UndefinedPath + ": %s");
  }

  // ---------------------------------------------------------------------------
  // runAllChecks

  /** What the React Native checks read from the project. */
  datatype ReactNativeInputs = ReactNativeInputs(
    projectRoot: Node,
    packageJsonContent: Option<string>,
    packageLockFile: Option<LockFile>,
    podfileLockContent: Option<string>,
    parse: string -> Option<Json>,
    reactNativePackages: seq<string>)

  /** `JSON.parse(packageFile.content!)`: absent when there is no content, which does not parse. */
  function PackageJson(inputs: ReactNativeInputs): Option<Json> {
    if inputs.packageJsonContent.None? then None else inputs.parse(inputs.packageJsonContent.value)
  }

  /** The lines of the three checks, each under `runCatching`; only the conflict check can throw. */
  function AllChecksLog(inputs: ReactNativeInputs): (log: seq<LogEntry>)
    ensures |log| >= 4
    ensures log[..2] == InitializationLog(InitFileIn(inputs.projectRoot))
    ensures log[2] == LogEntry(Info, CheckingConflictsLine + UndefinedPath)
  {
    InitializationLog(InitFileIn(inputs.projectRoot))
    + RunCatching("validateNoConflictingSDKs", ConflictsRun(PackageJson(inputs), inputs.reactNativePackages))
    + SummaryLogLines(inputs.packageLockFile, inputs.parse, inputs.podfileLockContent)
  }

  /**
   * `runAllChecks` (src/checks/react_native.ts:12-19): the initialization
   * search, the conflict check and the summary, in that order.
   */
  method RunAllChecks(inputs: ReactNativeInputs, summary: SummaryLog) returns (log: seq<LogEntry>)
    modifies summary
    ensures log == AllChecksLog(inputs)
    ensures summary.entries == old(summary.entries) + ConflictsSummary(PackageJson(inputs))
      + SummaryEntries(inputs.packageLockFile, inputs.parse, inputs.podfileLockContent)
  {
    var initialization := ValidateSdkInitialization(inputs.projectRoot);
    var conflicts := ValidateNoConflictingSdks(summary, PackageJson(inputs), inputs.reactNativePackages);
    var collected := CollectSummary(summary, inputs.packageLockFile, inputs.parse, inputs.podfileLockContent);
    log := initialization + RunCatching("validateNoConflictingSDKs", conflicts) + collected;
  }
}
