/**
 * The `doctor` command in both revisions (src/index.ts and
 * src/doctor/index.ts). It identifies the project by first-match rules. It
 * exits early on an invalid directory or an unidentified project. Then it
 * loads the files and runs the checks in a fixed order.
 *
 * The file system is addressed by path here, through functions that stand
 * for it at the time of the call. `process.exit(1)` ends the run with an
 * exit code. An exception that escapes `doctor` rejects its promise. The
 * command's `.catch` then logs one error line.
 */
module Doctor {
  import opened Wrappers
  import opened Strings
  import opened Paths
  import opened FileTree
  import opened FileSearch
  import opened Xcode
  import opened Logging
  import opened Projects
  import DoctorIos

  /** The file system `doctor` reads. */
  datatype FileSystem = FileSystem(
    /** `statSync(path).isDirectory()`: nothing when `statSync` throws (a missing path, say). */
    isDirectory: string -> Option<bool>,
    /** `readdirSync`: the entry names of a directory; nothing when the path is not a directory or cannot be listed. */
    listDirectory: string -> Option<seq<string>>,
    /** How the exception `statSync` or `readdirSync` throws at a path prints. */
    errorText: string -> string,
    /** `existsSync`. */
    doesExist: string -> bool,
    /** `readFileSync`: nothing when the read fails. */
    readFile: string -> Option<string>,
    /** The modification time `statSync` reports, when it succeeds. */
    modifiedTime: string -> Option<int>,
    /** The directory tree found at a path. */
    nodeAt: string -> Node,
    /** The Xcode project parser, nothing when a file does not parse. */
    parseXcode: string -> Option<XcodeProject>)

  const ReactNativeMarker := "\"react-native\""
  const XcodeProjectSuffix := ".xcodeproj"
  const ErrorRunningDoctor := "Error running doctor:"
  const ErrorCheckingDirectory := "Error checking directory: "

  /** What `isDirectoryNonEmpty` finds: a listed directory with entries, a path that is not one, or an exception. */
  datatype DirectoryCheck = NonEmpty | EmptyOrNotDirectory | CheckFailed

  /**
   * `isDirectoryNonEmpty` before it answers: `statSync` first, which may
   * throw; a path that is not a directory is false without a word; then
   * `readdirSync`, which may throw too.
   */
  function CheckDirectory(fs: FileSystem, path: string): (r: DirectoryCheck)
    ensures r == CheckFailed <==> fs.isDirectory(path).None? || (fs.isDirectory(path) == Some(true) && fs.listDirectory(path).None?)
    ensures r == NonEmpty <==> fs.isDirectory(path) == Some(true) && fs.listDirectory(path).Some? && |fs.listDirectory(path).value| > 0
  {
    match fs.isDirectory(path)
    case None => CheckFailed
    case Some(isDirectory) =>
      if !isDirectory then EmptyOrNotDirectory
      else match fs.listDirectory(path)
        case None => CheckFailed
        case Some(files) => if |files| > 0 then NonEmpty else EmptyOrNotDirectory
  }

  /** `isDirectoryNonEmpty`: a directory that can be listed and has at least one entry; every failure counts as false. */
  predicate IsDirectoryNonEmpty(fs: FileSystem, path: string) {
    CheckDirectory(fs, path) == NonEmpty
  }

  /** The line the `catch` of `isDirectoryNonEmpty` logs, exactly when `statSync` or `readdirSync` threw. */
  function DirectoryCheckLog(fs: FileSystem, path: string): (log: seq<LogEntry>)
    ensures |log| <= 1
    ensures log != [] <==> CheckDirectory(fs, path) == CheckFailed
    ensures log != [] ==> log[0].level == Error
  {
    if CheckDirectory(fs, path) == CheckFailed then [LogEntry(Error, ErrorCheckingDirectory + fs.errorText(path))] else []
  }

  /** A path `statSync` cannot read is not a non-empty directory, and two error lines are logged before the exit. */
  lemma MissingPathLogsTwice(fs: FileSystem, path: string)
    requires fs.isDirectory(path).None?
    ensures !IsDirectoryNonEmpty(fs, path)
    ensures DirectoryCheckLog(fs, path) + [InvalidDirectoryLine(path)]
      == [LogEntry(Error, ErrorCheckingDirectory + fs.errorText(path)), InvalidDirectoryLine(path)]
  {
  }

  /** A plain file or an empty directory fails the check silently: only the invalid-directory line is logged. */
  lemma NotDirectoryLogsOnce(fs: FileSystem, path: string)
    requires fs.isDirectory(path) == Some(false) || (fs.isDirectory(path) == Some(true) && fs.listDirectory(path) == Some([]))
    ensures !IsDirectoryNonEmpty(fs, path)
    ensures DirectoryCheckLog(fs, path) + [InvalidDirectoryLine(path)] == [InvalidDirectoryLine(path)]
  {
  }

  // ---------------------------------------------------------------------------
  // identifyProject

  /** The package.json exists but reading it throws. */
  predicate PackageJsonUnreadable(fs: FileSystem, projectDirectory: string) {
    var packageJsonPath := PathJoin(projectDirectory, PackageJsonName);
    fs.doesExist(packageJsonPath) && fs.readFile(packageJsonPath).None?
  }

  /** The raw text of package.json contains `"react-native"`, quotes included. */
  predicate NamesReactNative(fs: FileSystem, projectDirectory: string) {
    var packageJsonPath := PathJoin(projectDirectory, PackageJsonName);
    fs.doesExist(packageJsonPath) && fs.readFile(packageJsonPath).Some?
    && Contains(fs.readFile(packageJsonPath).value, ReactNativeMarker)
  }

  /** pubspec.yaml exists in the project directory. */
  predicate HasPubspec(fs: FileSystem, projectDirectory: string) {
    fs.doesExist(PathJoin(projectDirectory, PubspecYamlName))
  }

  /** Some top-level entry name ends with `.xcodeproj`; nothing below the top level is looked at. */
  predicate HasXcodeProject(files: seq<string>) {
    exists i | 0 <= i < |files| :: EndsWith(files[i], XcodeProjectSuffix)
  }

  /**
   * `identifyProject`: the first rule that matches wins. A package.json
   * naming React Native comes first, then a pubspec.yaml (Flutter), then a
   * top-level `.xcodeproj` (native iOS); otherwise the project is
   * unidentified. Reading package.json and listing the directory throw on
   * failure.
   */
  function IdentifyProject(fs: FileSystem, projectDirectory: string): (r: Eval<Option<Framework>>)
    ensures r == Returns(Some(ReactNative)) <==> NamesReactNative(fs, projectDirectory)
    ensures r == Returns(Some(Flutter)) <==>
      !PackageJsonUnreadable(fs, projectDirectory) && !NamesReactNative(fs, projectDirectory) && HasPubspec(fs, projectDirectory)
    ensures r == Returns(Some(IOS)) <==>
      !PackageJsonUnreadable(fs, projectDirectory) && !NamesReactNative(fs, projectDirectory) && !HasPubspec(fs, projectDirectory)
      && fs.listDirectory(projectDirectory).Some? && HasXcodeProject(fs.listDirectory(projectDirectory).value)
    ensures r.Throws? <==> (PackageJsonUnreadable(fs, projectDirectory)
      || (!NamesReactNative(fs, projectDirectory) && !HasPubspec(fs, projectDirectory) && fs.listDirectory(projectDirectory).None?))
  {
    var packageJsonPath := PathJoin(projectDirectory, PackageJsonName);
    if fs.doesExist(packageJsonPath) && fs.readFile(packageJsonPath).None? then
      Throws
    else if fs.doesExist(packageJsonPath) && Contains(fs.readFile(packageJsonPath).value, ReactNativeMarker) then
      Returns(Some(ReactNative))
    else if fs.doesExist(PathJoin(projectDirectory, PubspecYamlName)) then
      Returns(Some(Flutter))
    else
      match fs.listDirectory(projectDirectory)
      case None => Throws
      case Some(files) => if HasXcodeProject(files) then Returns(Some(IOS)) else Returns(None)
  }

  /** The file system with package.json removed from the project directory. */
  function WithoutPackageJson(fs: FileSystem, projectDirectory: string): (r: FileSystem)
    ensures !r.doesExist(PathJoin(projectDirectory, PackageJsonName))
    ensures forall p | p != PathJoin(projectDirectory, PackageJsonName) :: r.doesExist(p) == fs.doesExist(p)
  {
    var packageJsonPath := PathJoin(projectDirectory, PackageJsonName);
    fs.(doesExist := p => p != packageJsonPath && fs.doesExist(p))
  }

  /**
   * A readable package.json that does not name React Native is as good as
   * none: identification falls through to the later rules.
   */
  lemma PackageJsonWithoutMarkerFallsThrough(fs: FileSystem, projectDirectory: string)
    requires fs.readFile(PathJoin(projectDirectory, PackageJsonName)).Some?
    requires !Contains(fs.readFile(PathJoin(projectDirectory, PackageJsonName)).value, ReactNativeMarker)
    ensures IdentifyProject(fs, projectDirectory) == IdentifyProject(WithoutPackageJson(fs, projectDirectory), projectDirectory)
  {
    var packageJsonPath := PathJoin(projectDirectory, PackageJsonName);
    var pubspecPath := PathJoin(projectDirectory, PubspecYamlName);
    PackageJsonIsNotPubspec(projectDirectory);
    assert WithoutPackageJson(fs, projectDirectory).doesExist(pubspecPath) == fs.doesExist(pubspecPath);
  }

  /** The two paths `identifyProject` tests are different files. */
  lemma PackageJsonIsNotPubspec(projectDirectory: string)
    ensures PathJoin(projectDirectory, PackageJsonName) != PathJoin(projectDirectory, PubspecYamlName)
  {
    var a := PathJoin(projectDirectory, PackageJsonName);
    var b := PathJoin(projectDirectory, PubspecYamlName);
    assert EndsWith(a, PackageJsonName) && EndsWith(b, PubspecYamlName);
    assert a[|a| - 1] == 'n' && b[|b| - 1] == 'l';
  }

  /**
   * A package.json naming React Native wins over a pubspec.yaml and over any
   * Xcode project, whatever the directory holds.
   */
  lemma ReactNativeWinsOverLaterRules(fs: FileSystem, projectDirectory: string, listing: Option<seq<string>>,
                                      pubspecExists: bool)
    requires NamesReactNative(fs, projectDirectory)
    ensures var other := fs.(listDirectory := p => listing,
                             doesExist := p => if p == PathJoin(projectDirectory, PubspecYamlName) then pubspecExists else fs.doesExist(p));
      IdentifyProject(other, projectDirectory) == Returns(Some(ReactNative))
  {
    PackageJsonIsNotPubspec(projectDirectory);
  }

  // ---------------------------------------------------------------------------
  // doctor (src/index.ts)

  /** How a `doctor` run ends. */
  datatype Outcome =
    | Exited(code: int)
    /** An exception escaped `doctor`; the command logged it. */
    | Rejected
    /** The checks ran; the report path is present when a report was asked for. */
    | Finished(reportPath: Option<string>)

  function InvalidDirectoryLine(projectPath: string): LogEntry {
    LogEntry(Error, "Project directory is not valid or is empty at " + projectPath)
  }

  function UnidentifiedLine(projectPath: string): LogEntry {
    LogEntry(Error, "Unable to identify project in " + projectPath)
  }

  function ProjectPathLine(projectPath: string): LogEntry {
    LogEntry(Success, "Project Path: " + projectPath)
  }

  /** Where the report is written when one is asked for: `options.report` resolved against `base`. */
  function ReportPath(base: string, report: Option<string>): (r: Option<string>)
    ensures r.Some? <==> HasText(report)
    ensures r.Some? ==> r.value == ResolvePath(base, report.value)
  {
    if HasText(report) then Some(ResolvePath(base, report.value)) else None
  }

  /**
   * `doctor` of src/index.ts, with the command's `.catch`. The emptiness
   * check comes first and the identification second; each exits with code
   * 1. The project's files are loaded in full before `runAllChecks` starts
   * its suites, and a load that throws starts none. The report path is
   * resolved against the project path.
   */
  method Doctor(projectPath: string, report: Option<string>, fs: FileSystem)
    returns (outcome: Outcome, log: seq<LogEntry>, project: MobileProject?, suites: seq<Suite>)
    ensures !IsDirectoryNonEmpty(fs, projectPath) ==>
      outcome == Exited(1) && log == DirectoryCheckLog(fs, projectPath) + [InvalidDirectoryLine(projectPath)]
      && project == null && suites == []
    ensures IsDirectoryNonEmpty(fs, projectPath) && IdentifyProject(fs, projectPath) == Returns(None) ==>
      outcome == Exited(1) && log == [UnidentifiedLine(projectPath)] && project == null && suites == []
    ensures IsDirectoryNonEmpty(fs, projectPath) && IdentifyProject(fs, projectPath).Throws? ==>
      outcome == Rejected && log == [LogEntry(Error, ErrorRunningDoctor)] && project == null && suites == []
    ensures outcome.Exited? ==> outcome.code == 1
    ensures project != null <==> IsDirectoryNonEmpty(fs, projectPath) && IdentifyProject(fs, projectPath).Returns?
                                 && IdentifyProject(fs, projectPath).value.Some?
    ensures project != null ==> (fresh(project) && project.Valid()
      && project.framework == IdentifyProject(fs, projectPath).value.value && project.projectPath == projectPath)
    ensures project != null ==> |log| >= 1 && log[0] == ProjectPathLine(projectPath)
    ensures project != null && LocateThrows(Candidates(project.iOSProjectPath, fs.nodeAt(project.iOSProjectPath), [PodsDirectory]),
                                            fs.parseXcode) ==>
      outcome == Rejected && log == [ProjectPathLine(projectPath), LogEntry(Error, ErrorRunningDoctor)] && suites == []
    ensures suites != [] ==> (project != null && suites == CheckSuites(project.framework)
      && project.podfile.content == fs.readFile(project.podfile.absolutePath)
      && project.podfileLock.content == fs.readFile(project.podfileLock.absolutePath))
    ensures project != null && !LocateThrows(Candidates(project.iOSProjectPath, fs.nodeAt(project.iOSProjectPath), [PodsDirectory]),
                                             fs.parseXcode) ==>
      outcome == Finished(ReportPath(projectPath, report)) && suites == CheckSuites(project.framework)
    ensures outcome.Finished? <==> suites != []
    ensures outcome.Finished? ==> outcome.reportPath == ReportPath(projectPath, report) && log == [ProjectPathLine(projectPath)]
  {
    project, suites := null, [];
    if !IsDirectoryNonEmpty(fs, projectPath) {
      return Exited(1), DirectoryCheckLog(fs, projectPath) + [InvalidDirectoryLine(projectPath)], project, suites;
    }
    var identified := IdentifyProject(fs, projectPath);
    if identified.Throws? {
      return Rejected, [LogEntry(Error, ErrorRunningDoctor)], project, suites;
    }
    if identified.value.None? {
      return Exited(1), [UnidentifiedLine(projectPath)], project, suites;
    }
    var p := new MobileProject(identified.value.value, projectPath, fs.doesExist, fs.readFile);
    project := p;
    log := [ProjectPathLine(projectPath)];
    var threw := p.LoadFilesContent(fs.nodeAt(p.iOSProjectPath), fs.readFile, fs.modifiedTime, fs.parseXcode);
    if threw {
      return Rejected, log + [LogEntry(Error, ErrorRunningDoctor)], project, suites;
    }
    suites := CheckSuites(p.framework);
    outcome := Finished(ReportPath(projectPath, report));
  }

  // ---------------------------------------------------------------------------
  // doctor (src/doctor/index.ts)

  /** The groups `doctor` runs after Diagnostics, in order. */
  const LaterGroups: seq<DoctorIos.CheckGroup> := [DoctorIos.Initialization, DoctorIos.PushSetup, DoctorIos.Dependencies]

  /** Every group in the order `doctor` runs them: Diagnostics first, then the later groups. */
  function GroupOrder(): (order: seq<DoctorIos.CheckGroup>)
    ensures |order| == 4 && order[0] == DoctorIos.Diagnostics && order[1..] == LaterGroups
  {
    [DoctorIos.Diagnostics] + LaterGroups
  }

  /** Every group is in the order exactly once, so a run that finishes has run each of them once. */
  lemma EveryGroupOnce(g: DoctorIos.CheckGroup)
    ensures multiset(GroupOrder())[g] == 1
  {
    var order := GroupOrder();
    assert order == [DoctorIos.Diagnostics, DoctorIos.Initialization, DoctorIos.PushSetup, DoctorIos.Dependencies];
    assert multiset(order) == multiset{DoctorIos.Diagnostics, DoctorIos.Initialization, DoctorIos.PushSetup, DoctorIos.Dependencies};
  }

  /** `project.runChecks(group)` of the identified project, as a check. */
  function GroupCheck(runGroup: (Framework, DoctorIos.CheckGroup) -> CheckRun, framework: Framework): DoctorIos.CheckGroup -> CheckRun {
    group => runGroup(framework, group)
  }

  /**
   * The warning of the command's action: a newer release of the tool
   * exists when the latest version is known and differs from the running one.
   */
  function NewerVersionLog(toolName: string, toolVersion: string, latestVersion: Option<string>): (log: seq<LogEntry>)
    ensures |log| <= 1
    ensures log != [] <==> HasText(latestVersion) && latestVersion.value != toolVersion
    ensures log != [] ==> log[0].level == Warning
  {
    if HasText(latestVersion) && latestVersion.value != toolVersion then
      [LogEntry(Warning, "Newer version of " + toolName + " available " + latestVersion.value + ", currently on " + toolVersion)]
    else []
  }

  /**
   * The groups, in `GroupOrder`, that `runChecks` is awaited on; the first
   * one that throws ends the run. The result is the lines they logged and
   * the number of groups started.
   */
  method RunGroups(check: DoctorIos.CheckGroup -> CheckRun) returns (run: CheckRun, started: nat)
    ensures run == RunEach(GroupOrder(), check, |GroupOrder()|)
    ensures 1 <= started <= |GroupOrder()|
    ensures started < |GroupOrder()| ==> check(GroupOrder()[started - 1]).threw
    ensures forall i | 0 <= i < started - 1 :: !check(GroupOrder()[i]).threw
  {
    var order := GroupOrder();
    run := AndThen(Completed([]), check(DoctorIos.Diagnostics));
    started := 1;
    for i := 0 to |LaterGroups|
      invariant started == i + 1
      invariant run == RunEach(order, check, started)
      invariant forall j | 0 <= j < started - 1 :: !check(order[j]).threw
      invariant started < |order| && run.threw ==> check(order[started - 1]).threw
    {
      if run.threw {
        RunEachStopsAtThrow(order, check, started, |order|);
        return;
      }
      var group := LaterGroups[i];
      assert group == order[started];
      run := AndThen(run, check(group));
      started := started + 1;
    }
  }

  /**
   * `doctor` of src/doctor/index.ts, with the command's action around it.
   * The path argument is resolved against the working directory. The
   * emptiness check and the identification exit with code 1 as in the
   * other revision. The groups then run in the order Diagnostics,
   * Initialization, PushSetup, Dependencies. The report path is resolved
   * against the working directory, not the project. The project classes
   * of this revision are not part of this model: loading and the groups
   * are given as `loadThrows` and `runGroup`.
   */
  method DoctorRevision(projectPathArg: string, report: Option<string>, cwd: string, fs: FileSystem,
                        toolName: string, toolVersion: string, latestVersion: Option<string>,
                        loadThrows: Framework -> bool, runGroup: (Framework, DoctorIos.CheckGroup) -> CheckRun)
    returns (outcome: Outcome, log: seq<LogEntry>, groupsStarted: seq<DoctorIos.CheckGroup>)
    ensures var projectPath := ResolvePath(cwd, projectPathArg);
      var warning := NewerVersionLog(toolName, toolVersion, latestVersion);
      && warning <= log
      && (!IsDirectoryNonEmpty(fs, projectPath) ==>
            outcome == Exited(1) && log == warning + DirectoryCheckLog(fs, projectPath) + [InvalidDirectoryLine(projectPath)])
      && (IsDirectoryNonEmpty(fs, projectPath) && IdentifyProject(fs, projectPath) == Returns(None) ==>
            outcome == Exited(1) && log == warning + [UnidentifiedLine(projectPath)])
    ensures outcome.Exited? ==> outcome.code == 1 && groupsStarted == []
    ensures groupsStarted <= GroupOrder()
    ensures groupsStarted != [] ==> var projectPath := ResolvePath(cwd, projectPathArg);
      IsDirectoryNonEmpty(fs, projectPath) && IdentifyProject(fs, projectPath).Returns?
      && IdentifyProject(fs, projectPath).value.Some? && !loadThrows(IdentifyProject(fs, projectPath).value.value)
    ensures groupsStarted != [] ==> var framework := IdentifyProject(fs, ResolvePath(cwd, projectPathArg)).value.value;
      var run := RunEach(GroupOrder(), GroupCheck(runGroup, framework), |GroupOrder()|);
      (outcome.Finished? <==> !run.threw)
      && (outcome.Finished? ==> groupsStarted == GroupOrder() && outcome.reportPath == ReportPath(cwd, report))
    ensures outcome.Finished? ==> groupsStarted == GroupOrder()
    ensures var projectPath := ResolvePath(cwd, projectPathArg);
      IsDirectoryNonEmpty(fs, projectPath) && IdentifyProject(fs, projectPath).Throws? ==>
        outcome == Rejected && groupsStarted == []
        && log == NewerVersionLog(toolName, toolVersion, latestVersion) + [LogEntry(Error, ErrorRunningDoctor)]
    ensures var projectPath := ResolvePath(cwd, projectPathArg);
      var identified := IdentifyProject(fs, projectPath);
      IsDirectoryNonEmpty(fs, projectPath) && identified.Returns? && identified.value.Some? && loadThrows(identified.value.value) ==>
        outcome == Rejected && groupsStarted == []
        && log == NewerVersionLog(toolName, toolVersion, latestVersion)
                  + [ProjectPathLine(projectPath), LogEntry(Error, ErrorRunningDoctor)]
    ensures var projectPath := ResolvePath(cwd, projectPathArg);
      var identified := IdentifyProject(fs, projectPath);
      IsDirectoryNonEmpty(fs, projectPath) && identified.Returns? && identified.value.Some? && !loadThrows(identified.value.value) ==>
        var check := GroupCheck(runGroup, identified.value.value);
        var run := RunEach(GroupOrder(), check, |GroupOrder()|);
        && groupsStarted != []
        && (forall i | 0 <= i < |groupsStarted| - 1 :: !check(groupsStarted[i]).threw)
        && (|groupsStarted| < |GroupOrder()| ==> check(groupsStarted[|groupsStarted| - 1]).threw)
        && outcome == (if run.threw then Rejected else Finished(ReportPath(cwd, report)))
        && log == NewerVersionLog(toolName, toolVersion, latestVersion) + [ProjectPathLine(projectPath)] + run.log
                  + (if run.threw then [LogEntry(Error, ErrorRunningDoctor)] else [])
  {
    log := NewerVersionLog(toolName, toolVersion, latestVersion);
    groupsStarted := [];
    var projectPath := ResolvePath(cwd, projectPathArg);
    if !IsDirectoryNonEmpty(fs, projectPath) {
      return Exited(1), log + DirectoryCheckLog(fs, projectPath) + [InvalidDirectoryLine(projectPath)], groupsStarted;
    }
    var identified := IdentifyProject(fs, projectPath);
    if identified.Throws? {
      return Rejected, log + [LogEntry(Error, ErrorRunningDoctor)], groupsStarted;
    }
    if identified.value.None? {
      return Exited(1), log + [UnidentifiedLine(projectPath)], groupsStarted;
    }
    var framework := identified.value.value;
    log := log + [ProjectPathLine(projectPath)];
    if loadThrows(framework) {
      return Rejected, log + [LogEntry(Error, ErrorRunningDoctor)], groupsStarted;
    }
    var run, started := RunGroups(GroupCheck(runGroup, framework));
    groupsStarted := GroupOrder()[..started];
    if run.threw {
      return Rejected, log + run.log + [LogEntry(Error, ErrorRunningDoctor)], groupsStarted;
    }
    RunEachThrows(GroupOrder(), GroupCheck(runGroup, framework), |GroupOrder()|);
    assert started == |GroupOrder()|;
    groupsStarted := GroupOrder();
    log := log + run.log;
    outcome := Finished(ReportPath(cwd, report));
  }
}
