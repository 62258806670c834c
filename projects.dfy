/**
 * The project objects of src/core/projects.ts: a `File` whose content is
 * read once, and the mobile project whose iOS part locates the Xcode
 * project, entitlements and AppDelegate files under its iOS directory,
 * whose React Native part chooses the lock file to read, and whose
 * frameworks decide which check suites run.
 *
 * The file system is given as functions from absolute paths: `readFile`
 * for `readFileContent`, `modifiedTime` for `statSync(...).mtime.getTime()`,
 * `doesExist` for `doesExists`, and `parseXcode` for the `xcode` library's
 * `parseSync`, which gives `None` where it throws. The iOS directory
 * itself is a `Node` tree.
 */
module Projects {
  import opened Wrappers
  import opened Strings
  import opened Arrays
  import opened Paths
  import opened FileTree
  import opened Patterns
  import opened FileSearch
  import opened Xcode
  import opened Logging
  import RN = ReactNativeChecks

  /** A string JavaScript treats as true: present and not empty. */
  predicate HasText(s: Option<string>) {
    s.Some? && s.value != ""
  }

  /**
   * `path.resolve(projectRoot, filepath)`: an absolute path stays as it is,
   * a relative one is joined to the root. The root is taken as given; Node
   * would first resolve a relative root against the working directory.
   */
  function ResolvePath(projectRoot: string, filepath: string): string {
    if |filepath| > 0 && filepath[0] == '/' then filepath else PathJoin(projectRoot, filepath)
  }

  /** The content after `loadContent`: kept when it is non-empty, otherwise what reading the file gives. */
  function LoadedContent(content: Option<string>, read: Option<string>): Option<string> {
    if HasText(content) then content else read
  }

  /** Once a load has given text, later loads keep it, whatever the file holds by then. */
  lemma LoadKeepsText(content: Option<string>, read: Option<string>, later: Option<string>)
    requires HasText(LoadedContent(content, read))
    ensures LoadedContent(LoadedContent(content, read), later) == LoadedContent(content, read)
  {
  }

  /** An empty text is falsy, so it is read again. */
  lemma EmptyContentIsReread(read: Option<string>)
    ensures LoadedContent(Some(""), read) == read
  {
  }

  /** A file of the project: where it is, how it is shown, its tags, and its content once loaded. */
  class File {
    const args: map<string, string>
    const filename: string
    const absolutePath: string
    const readablePath: string
    var content: Option<string>

    /** `new File(projectRoot, filepath, args, loadContent)`. */
    constructor(projectRoot: string, filepath: string, args: map<string, string>, loadContent: bool, readFile: string -> Option<string>)
      ensures absolutePath == ResolvePath(projectRoot, filepath)
      ensures this.args == args
      ensures filename == GetFilename(absolutePath)
      ensures readablePath == GetReadablePath(projectRoot, absolutePath)
      ensures content == if loadContent then readFile(absolutePath) else None
    {
      var resolved := ResolvePath(projectRoot, filepath);
      absolutePath := resolved;
      this.args := args;
      filename := GetFilename(resolved);
      readablePath := GetReadablePath(projectRoot, resolved);
      content := None;
      new;
      if loadContent {
        LoadContent(readFile);
      }
    }

    /** `loadContent()`: reads the file only while the content is falsy. */
    method LoadContent(readFile: string -> Option<string>)
      modifies this
      ensures content == LoadedContent(old(content), readFile(absolutePath))
    {
      if !HasText(content) {
        content := readFile(absolutePath);
      }
    }
  }

  /**
   * The files opened from `paths`, in order: each at its resolved path,
   * with the given tags, and with the content read when it was opened.
   */
  ghost predicate Opened(files: seq<File>, projectRoot: string, paths: seq<string>, args: map<string, string>,
                         readFile: string -> Option<string>)
    reads files
  {
    |files| == |paths| && forall i | 0 <= i < |files| :: OpenedAt(files[i], projectRoot, paths[i], args, readFile)
  }

  /** One file opened from `path`. */
  ghost predicate OpenedAt(file: File, projectRoot: string, path: string, args: map<string, string>,
                           readFile: string -> Option<string>)
    reads file
  {
    file.absolutePath == ResolvePath(projectRoot, path) && file.args == args && file.content == readFile(file.absolutePath)
  }

  /** `new File(projectRoot, path, args, true)`: a new file, loaded. */
  method OpenFile(projectRoot: string, path: string, args: map<string, string>, readFile: string -> Option<string>)
    returns (file: File)
    ensures fresh(file) && OpenedAt(file, projectRoot, path, args, readFile)
  {
    file := new File(projectRoot, path, args, true, readFile);
  }

  /** `paths.map((result) => new File(projectRoot, result, args, true))`. */
  method OpenFiles(projectRoot: string, paths: seq<string>, args: map<string, string>, readFile: string -> Option<string>)
    returns (files: seq<File>)
    ensures Opened(files, projectRoot, paths, args, readFile)
    ensures forall i | 0 <= i < |files| :: fresh(files[i])
  {
    files := [];
    for i := 0 to |paths|
      invariant |files| == i
      invariant forall j | 0 <= j < i :: OpenedAt(files[j], projectRoot, paths[j], args, readFile)
      invariant forall j | 0 <= j < i :: fresh(files[j])
    {
      var file := OpenFile(projectRoot, paths[i], args, readFile);
      files := files + [file];
    }
  }

  /** An Xcode project file together with the project parsed from it. */
  datatype ProjectFile = ProjectFile(file: File, xcodeProject: XcodeProject)

  /** The files of a list of project files. */
  function FilesOf(projectFiles: seq<ProjectFile>): (files: seq<File>)
    ensures |files| == |projectFiles|
    ensures forall i | 0 <= i < |files| :: files[i] == projectFiles[i].file
  {
    seq(|projectFiles|, i requires 0 <= i < |projectFiles| => projectFiles[i].file)
  }

  /** Some path does not parse as an Xcode project. */
  predicate SomeUnparsable(paths: seq<string>, parseXcode: string -> Option<XcodeProject>) {
    exists i | 0 <= i < |paths| :: parseXcode(paths[i]).None?
  }

  /**
   * The Xcode project files of `paths`, each parsed and opened with no
   * tags; a path that does not parse ends the mapping with an exception.
   */
  method OpenProjectFiles(projectRoot: string, paths: seq<string>, readFile: string -> Option<string>,
                          parseXcode: string -> Option<XcodeProject>) returns (r: Option<seq<ProjectFile>>)
    ensures r.None? <==> SomeUnparsable(paths, parseXcode)
    ensures r.Some? ==> Opened(FilesOf(r.value), projectRoot, paths, map[], readFile)
    ensures r.Some? ==> forall i | 0 <= i < |paths| :: r.value[i].xcodeProject == parseXcode(paths[i]).value
    ensures r.Some? ==> forall i | 0 <= i < |r.value| :: fresh(r.value[i].file)
  {
    var projectFiles: seq<ProjectFile> := [];
    for i := 0 to |paths|
      invariant |projectFiles| == i
      invariant forall j | 0 <= j < i :: OpenedAt(projectFiles[j].file, projectRoot, paths[j], map[], readFile)
      invariant forall j | 0 <= j < i :: parseXcode(paths[j]).Some? && projectFiles[j].xcodeProject == parseXcode(paths[j]).value
      invariant forall j | 0 <= j < i :: fresh(projectFiles[j].file)
    {
      var xcodeProject := parseXcode(paths[i]);
      if xcodeProject.None? {
        return None;
      }
      var file := OpenFile(projectRoot, paths[i], map[], readFile);
      projectFiles := projectFiles + [ProjectFile(file, xcodeProject.value)];
    }
    return Some(projectFiles);
  }

  // ---------------------------------------------------------------------------
  // Locating the iOS files

  const AppDelegateObjectiveC := "AppDelegate.m"
  const AppDelegateObjectiveCPlusPlus := "AppDelegate.mm"
  const AppDelegateSwift := "AppDelegate.swift"
  const Entitlements := ".entitlements"
  const PbxProject := ".pbxproj"

  /**
   * `after` is `before` followed by the Xcode projects of `paths`, each
   * parsed and opened in order.
   */
  ghost predicate ProjectsAppended(before: seq<ProjectFile>, after: seq<ProjectFile>, projectRoot: string, paths: seq<string>,
                                   readFile: string -> Option<string>, parseXcode: string -> Option<XcodeProject>)
    reads FilesOf(after)
  {
    var n := |before|;
    |after| == n + |paths| && after[..n] == before
    && Opened(FilesOf(after[n..]), projectRoot, paths, map[], readFile)
    && forall i | 0 <= i < |paths| :: parseXcode(paths[i]).Some? && after[n + i].xcodeProject == parseXcode(paths[i]).value
  }

  /** `after` is `before` followed by the files of `paths`, opened in order with the tags `args`. */
  ghost predicate FilesAppended(before: seq<File>, after: seq<File>, projectRoot: string, paths: seq<string>,
                                args: map<string, string>, readFile: string -> Option<string>)
    reads after
  {
    var n := |before|;
    |after| == n + |paths| && after[..n] == before && Opened(after[n..], projectRoot, paths, args, readFile)
  }

  /**
   * `after` is `before` followed by the Swift, then the Objective-C, then
   * the Objective-C++ AppDelegate files, each tagged with its language.
   */
  ghost predicate AppDelegatesAppended(before: seq<File>, after: seq<File>, projectRoot: string,
                                       swift: seq<string>, objc: seq<string>, objcpp: seq<string>,
                                       readFile: string -> Option<string>)
    reads after
  {
    var a := |before|;
    |after| == a + |swift| + |objc| + |objcpp| && after[..a] == before
    && Opened(after[a..a + |swift|], projectRoot, swift, LanguageTag("swift"), readFile)
    && Opened(after[a + |swift|..a + |swift| + |objc|], projectRoot, objc, LanguageTag("Objective-C"), readFile)
    && Opened(after[a + |swift| + |objc|..], projectRoot, objcpp, LanguageTag("Objective-C++"), readFile)
  }

  /** The files every project opens when it is created, relative to the iOS or project directory. */
  const PodfileName := "Podfile"
  const PodfileLockName := "Podfile.lock"
  const PackageJsonName := "package.json"
  const PubspecYamlName := "pubspec.yaml"
  const PubspecLockName := "pubspec.lock"

  /** The filters of `locateFiles`: one `createFilePattern` per file name, keyed by that name. */
  function LocateFilters(): (filters: map<string, FilePattern>)
    ensures filters.Keys == {AppDelegateObjectiveC, AppDelegateObjectiveCPlusPlus, AppDelegateSwift, Entitlements, PbxProject}
  {
    map[AppDelegateObjectiveC := CreateFilePattern(AppDelegateObjectiveC),
        AppDelegateObjectiveCPlusPlus := CreateFilePattern(AppDelegateObjectiveCPlusPlus),
        AppDelegateSwift := CreateFilePattern(AppDelegateSwift),
        Entitlements := CreateFilePattern(Entitlements),
        PbxProject := CreateFilePattern(PbxProject)]
  }

  /** The paths under the iOS directory, `/Pods/` left out, that the filter of `name` accepts. */
  function LocatedPaths(candidates: seq<string>, name: string): seq<string> {
    Filter(candidates, Matches(CreateFilePattern(name)))
  }

  /** `locateFiles` throws: a directory cannot be listed, or a project file does not parse. */
  predicate LocateThrows(candidates: Eval<seq<string>>, parseXcode: string -> Option<XcodeProject>) {
    candidates.Throws? || SomeUnparsable(LocatedPaths(candidates.value, PbxProject), parseXcode)
  }

  /** The tags of an AppDelegate file of the given language. */
  function LanguageTag(language: string): map<string, string> {
    map["extension" := language]
  }

  /** Every path `locateFiles` records contains no `/Pods/` and passes its file name's filter. */
  lemma LocatedPathsPassFilter(directoryPath: string, node: Node, name: string, path: string)
    requires Candidates(directoryPath, node, [PodsDirectory]).Returns?
    requires path in LocatedPaths(Candidates(directoryPath, node, [PodsDirectory]).value, name)
    ensures !Contains(path, PodsDirectory) && Test(CreateFilePattern(name), path)
  {
    NoCandidateIgnored(directoryPath, node, [PodsDirectory]);
    assert path in Candidates(directoryPath, node, [PodsDirectory]).value;
    assert !Ignored(path, [PodsDirectory]) && [PodsDirectory][0] == PodsDirectory;
  }

  /** The parts of four appended lists can be sliced back out. */
  lemma PartsOfAppend<T>(p: seq<T>, x: seq<T>, y: seq<T>, z: seq<T>)
    ensures var s := p + x + y + z;
      s[..|p|] == p && s[|p|..|p| + |x|] == x && s[|p| + |x|..|p| + |x| + |y|] == y && s[|p| + |x| + |y|..] == z
  {
    var s := p + x + y + z;
    assert s == p + (x + (y + z));
    assert s[|p|..] == x + (y + z);
    assert s[|p| + |x|..] == y + z;
  }

  // ---------------------------------------------------------------------------
  // Lock files

  function YarnLockPath(projectPath: string): string {
    PathJoin(projectPath, "yarn.lock")
  }

  function NpmLockPath(projectPath: string): string {
    PathJoin(projectPath, "package-lock.json")
  }

  /** `lastUpdated ?? 0`. */
  function TimeOrZero(lastUpdated: Option<int>): int {
    if lastUpdated.Some? then lastUpdated.value else 0
  }

  /** The record `findPreferredLockFile` chooses: yarn's unless package-lock.json is strictly newer. */
  function PreferredLockFile(yarn: FileWithStats, npm: FileWithStats): (r: FileWithStats)
    ensures r == yarn || r == npm
  {
    if TimeOrZero(yarn.lastUpdated) >= TimeOrZero(npm.lastUpdated) then yarn else npm
  }

  /** Equal times, or two missing ones, choose yarn.lock; a missing time loses to any positive one. */
  lemma PreferredLockFileOrder(yarn: FileWithStats, npm: FileWithStats)
    ensures TimeOrZero(yarn.lastUpdated) == TimeOrZero(npm.lastUpdated) ==> PreferredLockFile(yarn, npm) == yarn
    ensures yarn.lastUpdated.None? && npm.lastUpdated.Some? && npm.lastUpdated.value > 0 ==> PreferredLockFile(yarn, npm) == npm
    ensures npm.lastUpdated.None? && yarn.lastUpdated.Some? && yarn.lastUpdated.value >= 0 ==> PreferredLockFile(yarn, npm) == yarn
  {
  }

  /** The `type` tag of the chosen lock file. */
  function LockTypeOf(projectPath: string, path: string): string {
    if path == YarnLockPath(projectPath) then "yarn" else "npm"
  }

  /**
   * The lock file after `findPreferredLockFile`: when the preferred record has
   * text, a file at its resolved path, tagged with its type and holding the
   * text already read; otherwise the file there was before.
   */
  predicate LockFileChosen(projectPath: string, readFile: string -> Option<string>, modifiedTime: string -> Option<int>,
                           file: File?, previous: File?)
    reads file
  {
    var chosen := PreferredLockFile(StatsOf(YarnLockPath(projectPath), readFile, modifiedTime),
                                    StatsOf(NpmLockPath(projectPath), readFile, modifiedTime));
    if HasText(chosen.content) then
      && file != null
      && file.absolutePath == ResolvePath(projectPath, chosen.path)
      && file.args == map["type" := LockTypeOf(projectPath, chosen.path)]
      && file.content == chosen.content
    else file == previous
  }

  /** The two lock paths differ, so the chosen record's tag tells which one was chosen. */
  lemma LockTypeNamesChoice(projectPath: string, readFile: string -> Option<string>, modifiedTime: string -> Option<int>)
    ensures var yarn := StatsOf(YarnLockPath(projectPath), readFile, modifiedTime);
      var npm := StatsOf(NpmLockPath(projectPath), readFile, modifiedTime);
      var chosen := PreferredLockFile(yarn, npm);
      LockTypeOf(projectPath, chosen.path) == "yarn" <==> TimeOrZero(yarn.lastUpdated) >= TimeOrZero(npm.lastUpdated)
  {
    var y := YarnLockPath(projectPath);
    var n := NpmLockPath(projectPath);
    assert EndsWith(y, "yarn.lock") && EndsWith(n, "package-lock.json");
    assert y[|y| - 1] == "yarn.lock"[8] == 'k';
    assert n[|n| - 1] == "package-lock.json"[16] == 'n';
  }

  /** The view the React Native checks take of a lock file: its readable path, its `type` tag and its content. */
  function LockFileView(file: File?): Option<RN.LockFile>
    reads file
  {
    if file == null then None
    else Some(RN.LockFile(file.readablePath, if "type" in file.args then file.args["type"] else "undefined", file.content))
  }

  // ---------------------------------------------------------------------------
  // Projects

  datatype Framework = IOS | ReactNative | Flutter

  /** The `framework` name each project class declares. */
  function FrameworkName(framework: Framework): string {
    match framework
    case IOS => "iOS"
    case ReactNative => "ReactNative"
    case Flutter => "Flutter"
  }

  /** Where the iOS project lives: the project itself for a native app, its `ios` directory otherwise. */
  function IosProjectPathOf(framework: Framework, projectPath: string): string {
    if framework == IOS then projectPath else PathJoin(projectPath, "ios")
  }

  datatype Suite = ReactNativeSuite | IosSuite

  /**
   * The check suites `runAllChecks` awaits, in order: every project runs
   * the iOS checks, and a React Native project runs its own checks first.
   */
  function CheckSuites(framework: Framework): (suites: seq<Suite>)
    ensures |suites| >= 1 && suites[|suites| - 1] == IosSuite
    ensures ReactNativeSuite in suites <==> framework == ReactNative
    ensures framework == ReactNative ==> suites[0] == ReactNativeSuite
  {
    if framework == ReactNative then [ReactNativeSuite, IosSuite] else [IosSuite]
  }

  /** The Podfile and the Podfile.lock of an iOS directory, neither of them read yet. */
  method PodFiles(projectPath: string, iOSProjectPath: string, readFile: string -> Option<string>)
    returns (podfile: File, podfileLock: File)
    ensures fresh(podfile) && podfile.absolutePath == ResolvePath(projectPath, PathJoin(iOSProjectPath, PodfileName))
    ensures fresh(podfileLock) && podfileLock.absolutePath == ResolvePath(projectPath, PathJoin(iOSProjectPath, PodfileLockName))
    ensures podfile.content.None? && podfileLock.content.None?
  {
    podfile := new File(projectPath, PathJoin(iOSProjectPath, PodfileName), map[], false, readFile);
    podfileLock := new File(projectPath, PathJoin(iOSProjectPath, PodfileLockName), map[], false, readFile);
  }

  /**
   * The files a framework adds to the project, none of them read yet:
   * `package.json` for React Native, `pubspec.yaml` and `pubspec.lock` for
   * Flutter, `null` where the framework has no such file.
   */
  method FrameworkFiles(framework: Framework, projectPath: string, readFile: string -> Option<string>)
    returns (packageJson: File?, pubspecYaml: File?, pubspecLock: File?)
    ensures packageJson != null <==> framework == ReactNative
    ensures pubspecYaml != null <==> framework == Flutter
    ensures pubspecLock != null <==> framework == Flutter
    ensures packageJson != null ==> (fresh(packageJson) && packageJson.absolutePath == ResolvePath(projectPath, PackageJsonName)
      && packageJson.content.None?)
    ensures pubspecYaml != null ==> (fresh(pubspecYaml) && pubspecYaml.absolutePath == ResolvePath(projectPath, PubspecYamlName)
      && pubspecYaml.content.None?)
    ensures pubspecLock != null ==> (fresh(pubspecLock) && pubspecLock.absolutePath == ResolvePath(projectPath, PubspecLockName)
      && pubspecLock.content.None? && pubspecLock != pubspecYaml)
  {
    packageJson, pubspecYaml, pubspecLock := null, null, null;
    if framework == ReactNative {
      packageJson := new File(projectPath, PackageJsonName, map[], false, readFile);
    } else if framework == Flutter {
      pubspecYaml := new File(projectPath, PubspecYamlName, map[], false, readFile);
      pubspecLock := new File(projectPath, PubspecLockName, map[], false, readFile);
    }
  }

  /**
   * `iOSNativeProject`, `ReactNativeProject` and `FlutterProject`, which
   * share the iOS part through a mixin; `framework` tells which, and the
   * fields of the other frameworks are `null`.
   */
  class MobileProject {
    const framework: Framework
    const projectPath: string
    const iOSProjectPath: string
    const summary: SummaryLog
    var podfile: File?
    var podfileLock: File?
    var isUsingCocoaPods: bool
    var projectFiles: seq<ProjectFile>
    var entitlementsFiles: seq<File>
    var appDelegateFiles: seq<File>
    const packageJsonFile: File?
    var packageLockFile: File?
    const pubspecYamlFile: File?
    const pubspecLockFile: File?

    /** The files the constructor creates exist, are distinct, and belong to the project's framework. */
    ghost predicate Valid()
      reads this
    {
      podfile != null && podfileLock != null && podfile != podfileLock
      && packageJsonFile != podfile && packageJsonFile != podfileLock
      && pubspecYamlFile != podfile && pubspecYamlFile != podfileLock
      && pubspecLockFile != podfile && pubspecLockFile != podfileLock
      && (pubspecYamlFile != null ==> pubspecYamlFile != pubspecLockFile)
      && (packageJsonFile != null <==> framework == ReactNative)
      && (pubspecYamlFile != null <==> framework == Flutter)
      && (pubspecLockFile != null <==> framework == Flutter)
    }

    /**
     * The constructors: the paths, then `initIOSProject`, then the
     * framework's own files, none of them read yet.
     */
    constructor(framework: Framework, projectPath: string, doesExist: string -> bool, readFile: string -> Option<string>)
      ensures Valid()
      ensures this.framework == framework && this.projectPath == projectPath
      ensures iOSProjectPath == IosProjectPathOf(framework, projectPath)
      ensures fresh(podfile) && podfile.absolutePath == ResolvePath(projectPath, PathJoin(iOSProjectPath, PodfileName))
      ensures fresh(podfileLock) && podfileLock.absolutePath == ResolvePath(projectPath, PathJoin(iOSProjectPath, PodfileLockName))
      ensures podfile.content.None? && podfileLock.content.None?
      ensures isUsingCocoaPods == doesExist(podfile.absolutePath)
      ensures projectFiles == [] && entitlementsFiles == [] && appDelegateFiles == []
      ensures fresh(summary) && summary.entries == []
      ensures packageLockFile == null
      ensures packageJsonFile != null ==> (fresh(packageJsonFile) && packageJsonFile.absolutePath == ResolvePath(projectPath, PackageJsonName)
        && packageJsonFile.content.None?)
      ensures pubspecYamlFile != null ==> (fresh(pubspecYamlFile) && pubspecYamlFile.absolutePath == ResolvePath(projectPath, PubspecYamlName)
        && pubspecYamlFile.content.None?)
      ensures pubspecLockFile != null ==> (fresh(pubspecLockFile) && pubspecLockFile.absolutePath == ResolvePath(projectPath, PubspecLockName)
        && pubspecLockFile.content.None?)
    {
      this.framework := framework;
      this.projectPath := projectPath;
      iOSProjectPath := IosProjectPathOf(framework, projectPath);
      summary := new SummaryLog();
      projectFiles := [];
      entitlementsFiles := [];
      appDelegateFiles := [];
      packageLockFile := null;
      var packageJson, pubspecYaml, pubspecLock := FrameworkFiles(framework, projectPath, readFile);
      packageJsonFile, pubspecYamlFile, pubspecLockFile := packageJson, pubspecYaml, pubspecLock;
      new;
      InitIosProject(doesExist, readFile);
    }

    /** `initIOSProject`: the Podfile and Podfile.lock of the iOS directory, and whether the Podfile exists. */
    method InitIosProject(doesExist: string -> bool, readFile: string -> Option<string>)
      modifies this
      ensures fresh(podfile) && podfile.absolutePath == ResolvePath(projectPath, PathJoin(iOSProjectPath, PodfileName))
      ensures fresh(podfileLock) && podfileLock.absolutePath == ResolvePath(projectPath, PathJoin(iOSProjectPath, PodfileLockName))
      ensures podfile.content.None? && podfileLock.content.None?
      ensures isUsingCocoaPods == doesExist(podfile.absolutePath)
      ensures projectFiles == old(projectFiles) && entitlementsFiles == old(entitlementsFiles)
      ensures appDelegateFiles == old(appDelegateFiles) && packageLockFile == old(packageLockFile)
    {
      var podfileFile, podfileLockFile := PodFiles(projectPath, iOSProjectPath, readFile);
      podfile, podfileLock := podfileFile, podfileLockFile;
      isUsingCocoaPods := doesExist(podfileFile.absolutePath);
    }

    /**
     * `locateFiles`: searches the iOS directory, `/Pods/` left out, and
     * appends what it found; it throws, changing nothing, when a directory
     * cannot be listed or a project file does not parse.
     */
    method LocateFiles(iosRoot: Node, readFile: string -> Option<string>, parseXcode: string -> Option<XcodeProject>)
      returns (threw: bool)
      modifies this
      ensures threw <==> LocateThrows(Candidates(iOSProjectPath, iosRoot, [PodsDirectory]), parseXcode)
      ensures threw ==> (projectFiles == old(projectFiles) && entitlementsFiles == old(entitlementsFiles)
        && appDelegateFiles == old(appDelegateFiles))
      ensures !threw ==> var candidates := Candidates(iOSProjectPath, iosRoot, [PodsDirectory]).value;
        ProjectsAppended(old(projectFiles), projectFiles, projectPath, LocatedPaths(candidates, PbxProject), readFile, parseXcode)
        && FilesAppended(old(entitlementsFiles), entitlementsFiles, projectPath, LocatedPaths(candidates, Entitlements), map[], readFile)
        && AppDelegatesAppended(old(appDelegateFiles), appDelegateFiles, projectPath, LocatedPaths(candidates, AppDelegateSwift),
                                LocatedPaths(candidates, AppDelegateObjectiveC), LocatedPaths(candidates, AppDelegateObjectiveCPlusPlus), readFile)
      ensures podfile == old(podfile) && podfileLock == old(podfileLock) && isUsingCocoaPods == old(isUsingCocoaPods)
      ensures packageLockFile == old(packageLockFile)
    {
      var search := SearchFileInDirectory(iOSProjectPath, iosRoot, LocateFilters(), [PodsDirectory]);
      if search.Throws? {
        return true;
      }
      ghost var candidates := Candidates(iOSProjectPath, iosRoot, [PodsDirectory]).value;
      var results := search.value;
      assert results[PbxProject] == LocatedPaths(candidates, PbxProject);
      assert results[Entitlements] == LocatedPaths(candidates, Entitlements);
      assert results[AppDelegateSwift] == LocatedPaths(candidates, AppDelegateSwift);
      assert results[AppDelegateObjectiveC] == LocatedPaths(candidates, AppDelegateObjectiveC);
      assert results[AppDelegateObjectiveCPlusPlus] == LocatedPaths(candidates, AppDelegateObjectiveCPlusPlus);
      threw := OpenLocated(results[PbxProject], results[Entitlements], results[AppDelegateSwift],
                           results[AppDelegateObjectiveC], results[AppDelegateObjectiveCPlusPlus], readFile, parseXcode);
    }

    /** The second half of `locateFiles`: opens the files the search found and appends them. */
    method OpenLocated(projectPaths: seq<string>, entitlementPaths: seq<string>, swiftPaths: seq<string>,
                       objcPaths: seq<string>, objcppPaths: seq<string>,
                       readFile: string -> Option<string>, parseXcode: string -> Option<XcodeProject>)
      returns (threw: bool)
      modifies this
      ensures threw <==> SomeUnparsable(projectPaths, parseXcode)
      ensures threw ==> (projectFiles == old(projectFiles) && entitlementsFiles == old(entitlementsFiles)
        && appDelegateFiles == old(appDelegateFiles))
      ensures !threw ==> ProjectsAppended(old(projectFiles), projectFiles, projectPath, projectPaths, readFile, parseXcode)
      ensures !threw ==> FilesAppended(old(entitlementsFiles), entitlementsFiles, projectPath, entitlementPaths, map[], readFile)
      ensures !threw ==> AppDelegatesAppended(old(appDelegateFiles), appDelegateFiles, projectPath, swiftPaths, objcPaths,
                                              objcppPaths, readFile)
      ensures podfile == old(podfile) && podfileLock == old(podfileLock) && isUsingCocoaPods == old(isUsingCocoaPods)
      ensures packageLockFile == old(packageLockFile)
    {
      var projects := OpenProjectFiles(projectPath, projectPaths, readFile, parseXcode);
      if projects.None? {
        return true;
      }
      var entitlements := OpenFiles(projectPath, entitlementPaths, map[], readFile);
      var swift := OpenFiles(projectPath, swiftPaths, LanguageTag("swift"), readFile);
      var objc := OpenFiles(projectPath, objcPaths, LanguageTag("Objective-C"), readFile);
      var objcpp := OpenFiles(projectPath, objcppPaths, LanguageTag("Objective-C++"), readFile);
      AppendLocated(projects.value, entitlements, swift, objc, objcpp, projectPaths, entitlementPaths,
                    swiftPaths, objcPaths, objcppPaths, readFile, parseXcode);
      threw := false;
    }

    /** The three `concat`s of `locateFiles`, each appending the files just opened from the paths found. */
    method AppendLocated(projects: seq<ProjectFile>, entitlements: seq<File>, swift: seq<File>, objc: seq<File>, objcpp: seq<File>,
                         projectPaths: seq<string>, entitlementPaths: seq<string>,
                         swiftPaths: seq<string>, objcPaths: seq<string>, objcppPaths: seq<string>,
                         readFile: string -> Option<string>, parseXcode: string -> Option<XcodeProject>)
      requires Opened(FilesOf(projects), projectPath, projectPaths, map[], readFile)
      requires forall i | 0 <= i < |projectPaths| :: parseXcode(projectPaths[i]).Some? && projects[i].xcodeProject == parseXcode(projectPaths[i]).value
      requires Opened(entitlements, projectPath, entitlementPaths, map[], readFile)
      requires Opened(swift, projectPath, swiftPaths, LanguageTag("swift"), readFile)
      requires Opened(objc, projectPath, objcPaths, LanguageTag("Objective-C"), readFile)
      requires Opened(objcpp, projectPath, objcppPaths, LanguageTag("Objective-C++"), readFile)
      modifies this
      ensures ProjectsAppended(old(projectFiles), projectFiles, projectPath, projectPaths, readFile, parseXcode)
      ensures FilesAppended(old(entitlementsFiles), entitlementsFiles, projectPath, entitlementPaths, map[], readFile)
      ensures AppDelegatesAppended(old(appDelegateFiles), appDelegateFiles, projectPath, swiftPaths, objcPaths, objcppPaths, readFile)
      ensures podfile == old(podfile) && podfileLock == old(podfileLock) && isUsingCocoaPods == old(isUsingCocoaPods)
      ensures packageLockFile == old(packageLockFile)
    {
      projectFiles := projectFiles + projects;
      entitlementsFiles := entitlementsFiles + entitlements;
      appDelegateFiles := appDelegateFiles + swift + objc + objcpp;
      assert projectFiles[|old(projectFiles)|..] == projects;
      assert entitlementsFiles[|old(entitlementsFiles)|..] == entitlements;
      PartsOfAppend(old(appDelegateFiles), swift, objc, objcpp);
    }

    /** `new File(this.projectPath, path, { type })` holding the content already read. */
    method OpenLockFile(path: string, lockType: string, content: Option<string>, readFile: string -> Option<string>)
      returns (file: File)
      ensures fresh(file)
      ensures file.absolutePath == ResolvePath(projectPath, path)
      ensures file.args == map["type" := lockType]
      ensures file.content == content
    {
      file := new File(projectPath, path, map["type" := lockType], false, readFile);
      file.content := content;
    }

    /**
     * `findPreferredLockFile`: reads both lock files with their times,
     * chooses one, and sets `packageLockFile` to it, tagged with its type
     * and holding the content already read, only when that content is
     * non-empty; the other lock file is never a fallback.
     */
    method FindPreferredLockFile(readFile: string -> Option<string>, modifiedTime: string -> Option<int>)
      modifies this
      ensures LockFileChosen(projectPath, readFile, modifiedTime, packageLockFile, old(packageLockFile))
      ensures packageLockFile != old(packageLockFile) ==> fresh(packageLockFile)
      ensures podfile == old(podfile) && podfileLock == old(podfileLock) && isUsingCocoaPods == old(isUsingCocoaPods)
      ensures projectFiles == old(projectFiles) && entitlementsFiles == old(entitlementsFiles)
      ensures appDelegateFiles == old(appDelegateFiles)
    {
      var yarnLockFilePath := YarnLockPath(projectPath);
      var npmLockFilePath := NpmLockPath(projectPath);
      var results := ReadFileWithStats([yarnLockFilePath, npmLockFilePath], readFile, modifiedTime);
      var packageLockFileIndex: nat;
      if TimeOrZero(results[0].lastUpdated) >= TimeOrZero(results[1].lastUpdated) {
        packageLockFileIndex := 0;
      } else {
        packageLockFileIndex := 1;
      }
      var result := results[packageLockFileIndex];
      assert result == PreferredLockFile(StatsOf(yarnLockFilePath, readFile, modifiedTime), StatsOf(npmLockFilePath, readFile, modifiedTime));
      if HasText(result.content) {
        var lockType: string;
        if result.path == yarnLockFilePath {
          lockType := "yarn";
        } else {
          lockType := "npm";
        }
        assert lockType == LockTypeOf(projectPath, result.path);
        packageLockFile := OpenLockFile(result.path, lockType, result.content, readFile);
      }
    }

    /** The React Native part of `loadFilesContent`: the lock file is chosen, then package.json is loaded. */
    method LoadReactNativeFiles(readFile: string -> Option<string>, modifiedTime: string -> Option<int>)
      requires Valid() && framework == ReactNative
      modifies this, packageJsonFile
      ensures Valid() && podfile == old(podfile) && podfileLock == old(podfileLock)
      ensures podfile.content == old(podfile.content) && podfileLock.content == old(podfileLock.content)
      ensures packageJsonFile.content == LoadedContent(old(packageJsonFile.content), readFile(packageJsonFile.absolutePath))
      ensures LockFileChosen(projectPath, readFile, modifiedTime, packageLockFile, old(packageLockFile))
      ensures packageLockFile != old(packageLockFile) ==> fresh(packageLockFile)
    {
      FindPreferredLockFile(readFile, modifiedTime);
      packageJsonFile.LoadContent(readFile);
    }

    /**
     * `loadFilesContent`: locates the iOS files first; when that throws
     * nothing else is read. Then the React Native lock file is chosen, and
     * the framework's own files, the Podfile and the Podfile.lock are
     * loaded (a native project's `projectFile` does not exist, so its load
     * does nothing).
     */
    method LoadFilesContent(iosRoot: Node, readFile: string -> Option<string>, modifiedTime: string -> Option<int>,
                            parseXcode: string -> Option<XcodeProject>) returns (threw: bool)
      requires Valid()
      modifies this, podfile, podfileLock, packageJsonFile, pubspecYamlFile, pubspecLockFile
      ensures Valid() && podfile == old(podfile) && podfileLock == old(podfileLock)
      ensures threw <==> LocateThrows(Candidates(iOSProjectPath, iosRoot, [PodsDirectory]), parseXcode)
      ensures threw ==> (podfile.content == old(podfile.content) && podfileLock.content == old(podfileLock.content)
        && packageLockFile == old(packageLockFile))
      ensures !threw ==> (podfile.content == LoadedContent(old(podfile.content), readFile(podfile.absolutePath))
        && podfileLock.content == LoadedContent(old(podfileLock.content), readFile(podfileLock.absolutePath)))
      ensures !threw && packageJsonFile != null ==>
        packageJsonFile.content == LoadedContent(old(packageJsonFile.content), readFile(packageJsonFile.absolutePath))
      ensures !threw && pubspecYamlFile != null ==>
        pubspecYamlFile.content == LoadedContent(old(pubspecYamlFile.content), readFile(pubspecYamlFile.absolutePath))
        && pubspecLockFile.content == LoadedContent(old(pubspecLockFile.content), readFile(pubspecLockFile.absolutePath))
      ensures framework != ReactNative ==> packageLockFile == old(packageLockFile)
      ensures !threw && framework == ReactNative ==>
        LockFileChosen(projectPath, readFile, modifiedTime, packageLockFile, old(packageLockFile))
        && (packageLockFile != old(packageLockFile) ==> fresh(packageLockFile))
    {
      threw := LocateFiles(iosRoot, readFile, parseXcode);
      if threw {
        return;
      }
      LoadLocatedProject(readFile, modifiedTime);
    }

    /** The part of `loadFilesContent` after the iOS files were located: the framework's files, then the pods files. */
    method LoadLocatedProject(readFile: string -> Option<string>, modifiedTime: string -> Option<int>)
      requires Valid()
      modifies this, podfile, podfileLock, packageJsonFile, pubspecYamlFile, pubspecLockFile
      ensures Valid() && podfile == old(podfile) && podfileLock == old(podfileLock)
      ensures podfile.content == LoadedContent(old(podfile.content), readFile(podfile.absolutePath))
      ensures podfileLock.content == LoadedContent(old(podfileLock.content), readFile(podfileLock.absolutePath))
      ensures packageJsonFile != null ==>
        packageJsonFile.content == LoadedContent(old(packageJsonFile.content), readFile(packageJsonFile.absolutePath))
      ensures pubspecYamlFile != null ==>
        pubspecYamlFile.content == LoadedContent(old(pubspecYamlFile.content), readFile(pubspecYamlFile.absolutePath))
        && pubspecLockFile.content == LoadedContent(old(pubspecLockFile.content), readFile(pubspecLockFile.absolutePath))
      ensures framework != ReactNative ==> packageLockFile == old(packageLockFile)
      ensures framework == ReactNative ==>
        LockFileChosen(projectPath, readFile, modifiedTime, packageLockFile, old(packageLockFile))
        && (packageLockFile != old(packageLockFile) ==> fresh(packageLockFile))
    {
      if framework == ReactNative {
        LoadReactNativeFiles(readFile, modifiedTime);
      } else if framework == Flutter {
        pubspecYamlFile.LoadContent(readFile);
        pubspecLockFile.LoadContent(readFile);
      }
      podfile.LoadContent(readFile);
      podfileLock.LoadContent(readFile);
    }
  }
}
