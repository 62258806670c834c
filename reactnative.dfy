/**
 * The check groups of src/checks/reactnative.ts: the SDK version, found in
 * the chosen lock file or else in package.json and compared with the latest
 * published version; the SDK initialization call, found by a code search;
 * and the push messaging libraries that may conflict with the SDK.
 *
 * The published version, `Conflicts.reactNativePackages`, the install
 * command and the documentation link come from code that is not part of
 * this model and are parameters. `JSON.parse` is a parameter that gives
 * `None` where it throws.
 */
module ReactNativeCheckGroups {
  import opened Wrappers
  import opened Strings
  import opened Json
  import opened FileTree
  import opened CodeSearch
  import opened LockFiles
  import opened Logging
  import DoctorIos
  import RN = ReactNativeChecks

  const ConflictsFoundLine := "Potential conflicting libraries found."
  const NoConflictsLine := "No conflicting libraries found"
  const InitializationFoundPrefix := "React Native SDK Initialization found in "
  const InitializationMissingLine := "React Native SDK Initialization not found"
  const SdkVersionPrefix := "Customer.io React Native SDK version: "
  const UpdatePrefix := "Update to the latest SDK version "
  const SdkMissingPrefix := "Customer.io React Native SDK not found in "
  /** What a template literal makes of an object that has no `toString` of its own. */
  const ObjectText := "[object Object]"

  /** What the checks read from the React Native project. */
  datatype ReactNativeProject = ReactNativeProject(
    projectPath: string,
    projectRoot: Node,
    packageJsonContent: Option<string>,
    packageLockFile: Option<RN.LockFile>,
    multiplePushProviders: string,
    shouldIgnore: string -> bool)

  /** What the checks take from outside the project. */
  datatype Environment = Environment(
    parse: string -> Option<Json>,
    reactNativePackages: seq<string>,
    installDependenciesCommand: string,
    latestSdkVersion: Option<string>)

  /** `JSON.parse(packageFile.content!)`: parsing a missing text throws. */
  function PackageJson(project: ReactNativeProject, env: Environment): Option<Json> {
    if project.packageJsonContent.None? then None else env.parse(project.packageJsonContent.value)
  }

  // ---------------------------------------------------------------------------
  // validateNoConflictingSDKs

  /** The alert naming the conflicting libraries, which the template literal joins with commas. */
  function ConflictsAlert(conflictingLibraries: seq<string>, multiplePushProviders: string): string {
    DoctorIos.ConflictsAlertStart + Join(conflictingLibraries, ",") + ")." + DoctorIos.ConflictsAlertMiddle
      + DoctorIos.ConflictsAlertEnd + multiplePushProviders
  }

  /**
   * `validateNoConflictingSDKs` for the parsed package.json: it throws
   * before logging anything when the document is missing or null or has no
   * `dependencies`; otherwise it logs the declared SDK version, then a
   * success exactly when no listed library is a dependency, or a warning
   * and an alert naming the ones that are.
   */
  function NoConflictingSdksRun(packageJson: Option<Json>, reactNativePackages: seq<string>, multiplePushProviders: string): (run: CheckRun)
    ensures run.threw <==> DependencyEntry(packageJson, RN.PackageName).Throws?
    ensures run.threw ==> run.log == []
    ensures !run.threw ==> 2 <= |run.log| <= 3
    ensures !run.threw ==> run.log[0] == LogEntry(Success, RN.PackageName + " version in package.json: "
                                                        + TemplateText(DependencyEntry(packageJson, RN.PackageName).value))
    ensures !run.threw ==> (run.log[1].level == Success <==>
      forall lib | lib in reactNativePackages :: lib !in DependencyNames(packageJson).value)
    ensures !run.threw && run.log[1].level != Success ==> (|run.log| == 3 &&
      run.log[2] == LogEntry(Alert, ConflictsAlert(RN.ConflictingLibraries(reactNativePackages, DependencyNames(packageJson).value), multiplePushProviders)))
  {
    match RN.DependencyNames(packageJson)
    case Throws => CheckRun([], true)
    case Returns(dependencies) =>
      match DependencyEntry(packageJson, RN.PackageName)
      case Throws => CheckRun([], true)
      case Returns(sdkVersionInPackageJson) =>
        var versionLine := LogEntry(Success, RN.PackageName + " version in package.json: " + TemplateText(sdkVersionInPackageJson));
        var conflictingLibraries := RN.ConflictingLibraries(reactNativePackages, dependencies);
        if |conflictingLibraries| == 0 then CheckRun([versionLine, LogEntry(Success, NoConflictsLine)], false)
        else CheckRun([versionLine, LogEntry(Warning, ConflictsFoundLine),
                       LogEntry(Alert, ConflictsAlert(conflictingLibraries, multiplePushProviders))], false)
  }

  /** `Object.keys(packageJson.dependencies || {})`, named here for the contracts above. */
  function DependencyNames(packageJson: Option<Json>): Eval<seq<string>> {
    RN.DependencyNames(packageJson)
  }

  /**
   * The `|| {}` guard does not protect the next line: a package.json without
   * `dependencies` lists no dependency names, yet the check throws.
   */
  lemma MissingDependenciesThrow(members: seq<(string, Json)>, reactNativePackages: seq<string>, multiplePushProviders: string)
    requires Lookup(members, "dependencies").None?
    ensures DependencyNames(Some(JObject(members))) == Returns([])
    ensures NoConflictingSdksRun(Some(JObject(members)), reactNativePackages, multiplePushProviders) == CheckRun([], true)
  {
    assert Member(Some(JObject(members)), "dependencies") == Returns(None);
  }

  // ---------------------------------------------------------------------------
  // validateSDKInitialization

  /** `CustomerIO.initialize` anywhere in the content. */
  function InitializationPattern(): string -> bool {
    (s: string) => Contains(s, RN.SdkInitializationCall)
  }

  /**
   * The search configuration: JavaScript and TypeScript sources, the native
   * `android` and `ios` directories ignored, files named `App` or `index`
   * or mentioning `cio` or `customerio`.
   */
  function InitializationConfig(shouldIgnore: string -> bool): (config: CodeSearchConfig)
    ensures TargetExtensions(config) == [".js", ".jsx", ".ts", ".tsx"]
    ensures config.ignoreDirectories == ["android", "ios"]
    ensures config.targetFileNames == ["App", "index"] && config.targetFilePatterns == ["cio", "customerio"]
  {
    var pattern := InitializationPattern();
    var config := CodeSearchConfig(
      [ExtensionCodePattern(".js", pattern), ExtensionCodePattern(".jsx", pattern),
       ExtensionCodePattern(".ts", pattern), ExtensionCodePattern(".tsx", pattern)],
      ["android", "ios"],
      shouldIgnore,
      ["App", "index"],
      ["cio", "customerio"]);
    assert TargetExtensions(config) == [".js", ".jsx", ".ts", ".tsx"];
    config
  }

  /**
   * The check as written: the search result is an object, never undefined,
   * so the success branch is taken and the template literal shows the
   * object as `[object Object]`, whatever the search found.
   */
  function InitializationLogAsWritten(result: CodeSearchResult): (log: seq<LogEntry>)
    ensures |log| == 1 && log[0].level == Success
  {
    [LogEntry(Success, InitializationFoundPrefix + ObjectText)]
  }

  /** As written, the line does not depend on what the search found. */
  lemma AsWrittenIgnoresResult(result: CodeSearchResult, other: CodeSearchResult)
    ensures InitializationLogAsWritten(result) == InitializationLogAsWritten(other)
  {
  }

  /**
   * The check as evidently intended: a success naming the matched files,
   * exactly when some file matched, and a failure otherwise.
   */
  function InitializationLog(result: CodeSearchResult): (log: seq<LogEntry>)
    ensures |log| == 1
    ensures log[0].level == Success <==> |result.matchedFiles| > 0
    ensures log[0].level == Failure <==> |result.matchedFiles| == 0
    ensures |result.matchedFiles| == 1 ==> log[0].message == InitializationFoundPrefix + "'" + result.matchedFiles[0] + "'"
  {
    var formatted := FormattedMatchedFiles(result);
    if formatted.Some? then [LogEntry(Success, InitializationFoundPrefix + formatted.value)]
    else [LogEntry(Failure, InitializationMissingLine)]
  }

  /** The intended check's line for the project: the files the search of the project directory matches. */
  function SdkInitializationLog(project: ReactNativeProject): seq<LogEntry> {
    var config := InitializationConfig(project.shouldIgnore);
    InitializationLog(CodeSearchResult(Visit(config, ExtnameReader(), project.projectPath, project.projectPath, project.projectRoot).matched, [], config))
  }

  /** `validateSDKInitialization`, with the intended test of the result. */
  method ValidateSdkInitialization(project: ReactNativeProject) returns (log: seq<LogEntry>)
    ensures log == SdkInitializationLog(project)
  {
    var config := InitializationConfig(project.shouldIgnore);
    var result := SearchFilesForCode(config, ExtnameReader(), project.projectPath, project.projectPath, project.projectRoot);
    assert FormattedMatchedFiles(result) == FormattedMatchedFiles(CodeSearchResult(result.matchedFiles, [], config));
    log := InitializationLog(result);
  }

  /**
   * A project directory that cannot be listed holds no initialization
   * call: the intended check fails, the check as written still succeeds.
   */
  lemma UnreadableProjectStillSucceeds(project: ReactNativeProject, result: CodeSearchResult)
    requires project.projectRoot.Directory? && !project.projectRoot.readable
    ensures SdkInitializationLog(project) == [LogEntry(Failure, InitializationMissingLine)]
    ensures InitializationLogAsWritten(result) == [LogEntry(Success, InitializationFoundPrefix + ObjectText)]
  {
    var config := InitializationConfig(project.shouldIgnore);
    assert ReadDirectory(project.projectRoot).None?;
    assert Visit(config, ExtnameReader(), project.projectPath, project.projectPath, project.projectRoot).matched == [];
  }

  /** A file the intended check reports was read by the search and contains the call. */
  lemma InitializationFoundOnlyInSearchedFiles(project: ReactNativeProject)
    ensures var found := Visit(InitializationConfig(project.shouldIgnore), ExtnameReader(), project.projectPath, project.projectPath, project.projectRoot);
      forall p | p in found.matched :: p in found.searched
  {
    MatchedAreSearched(InitializationConfig(project.shouldIgnore), ExtnameReader(), project.projectPath, project.projectPath, project.projectRoot);
  }

  // ---------------------------------------------------------------------------
  // validateSDKVersion

  /** A lock file with text to read: `!packageLockFile || !packageLockFile.content` is false. */
  predicate HasLockContent(packageLockFile: Option<RN.LockFile>) {
    packageLockFile.Some? && packageLockFile.value.content.Some? && packageLockFile.value.content.value != ""
  }

  /** The warning `getSDKVersionPackageLock` logs when there is no lock file to read. */
  function NoLockFileLine(installDependenciesCommand: string): string {
    "No lock file found for package.json. Make sure to run " + installDependenciesCommand + " before running the project."
  }

  /**
   * `getSDKVersionPackageLock`: the lines it logs and the version it gives.
   * Without lock text it warns and gives undefined; otherwise the version
   * the lock file records, which throws for an npm lock file that does not
   * list the SDK.
   */
  function PackageLockVersion(packageLockFile: Option<RN.LockFile>, env: Environment): (r: (seq<LogEntry>, Eval<Option<Json>>))
    ensures !HasLockContent(packageLockFile) ==> r == ([LogEntry(Warning, NoLockFileLine(env.installDependenciesCommand))], Returns(None))
    ensures HasLockContent(packageLockFile) ==> r.0 == []
    ensures HasLockContent(packageLockFile) ==> r.1 == RN.LockFileVersion(packageLockFile.value.content.value, packageLockFile.value.lockType, env.parse)
  {
    if !HasLockContent(packageLockFile) then ([LogEntry(Warning, NoLockFileLine(env.installDependenciesCommand))], Returns(None))
    else ([], RN.LockFileVersion(packageLockFile.value.content.value, packageLockFile.value.lockType, env.parse))
  }

  /**
   * `getSDKVersionPackageFile`: undefined without package.json text;
   * otherwise the SDK's key at the top level of the document, throwing
   * when the text does not parse to a value with properties.
   */
  function PackageFileVersion(packageJsonContent: Option<string>, parse: string -> Option<Json>): (r: Eval<Option<Json>>)
    ensures packageJsonContent.None? || packageJsonContent.value == "" ==> r == Returns(None)
    ensures packageJsonContent.Some? && packageJsonContent.value != "" ==>
      (r.Throws? <==> parse(packageJsonContent.value).None? || parse(packageJsonContent.value) == Some(JNull))
    ensures (packageJsonContent.Some? && packageJsonContent.value != "" && parse(packageJsonContent.value).Some?
             && parse(packageJsonContent.value).value.JObject?) ==> r == Returns(Lookup(parse(packageJsonContent.value).value.members, RN.PackageName))
  {
    if packageJsonContent.None? || packageJsonContent.value == "" then Returns(None)
    else Member(parse(packageJsonContent.value), RN.PackageName)
  }

  /**
   * The package.json fallback reads a top-level key: a document that
   * declares the SDK only under `dependencies`, as package.json files do,
   * gives undefined, where `extractVersionFromPackageJson` gives the range.
   */
  lemma PackageFileVersionSkipsDependencies(content: string, parse: string -> Option<Json>, range: string)
    requires content != ""
    requires parse(content) == Some(JObject([("dependencies", JObject([(RN.PackageName, JString(range))]))]))
    ensures PackageFileVersion(Some(content), parse) == Returns(None)
    ensures ExtractVersionFromPackageJson(RN.PackageName, parse(content)) == Returns(Some(JString(range)))
  {
    assert Lookup([("dependencies", JObject([(RN.PackageName, JString(range))]))], RN.PackageName).None?;
    assert Member(parse(content), "dependencies") == Returns(Some(JObject([(RN.PackageName, JString(range))])));
  }

  /**
   * `lock ?? file`: the lock file's version unless it is undefined or
   * null; a throw in the lock file ends the check before package.json is
   * read.
   */
  function ResolvedVersion(lock: Eval<Option<Json>>, file: Eval<Option<Json>>): (r: Eval<Option<Json>>)
    ensures lock.Throws? ==> r.Throws?
    ensures lock.Returns? && (lock.value.None? || lock.value == Some(JNull)) ==> r == file
    ensures r.Returns? && r.value.Some? && r.value != Some(JNull) ==> r == lock || r == file
  {
    match lock
    case Throws => Throws
    case Returns(v) => if v.None? || v == Some(JNull) then file else lock
  }

  /** Strict equality of the resolved version with the published one. */
  predicate IsLatest(version: Option<Json>, latestSdkVersion: Option<string>) {
    latestSdkVersion.Some? && version == Some(JString(latestSdkVersion.value))
  }

  /**
   * The verdict on the resolved version: a success when it is the
   * published version, a warning and an alert when it is some other
   * truthy value, and a failure naming the lock file when it is missing.
   */
  function SdkVersionLog(version: Option<Json>, latestSdkVersion: Option<string>, lockFilePath: Option<string>): (log: seq<LogEntry>)
    ensures 1 <= |log| <= 2
    ensures log[0].level == Success <==> Truthy(version) && IsLatest(version, latestSdkVersion)
    ensures log[0].level == Warning <==> Truthy(version) && !IsLatest(version, latestSdkVersion)
    ensures log[0].level == Failure <==> !Truthy(version)
    ensures Truthy(version) ==> log[0].message == SdkVersionPrefix + TemplateText(version)
    ensures !Truthy(version) ==> log == [LogEntry(Failure, SdkMissingPrefix + TextOf(lockFilePath))]
  {
    if Truthy(version) then
      var sdkVersionMessage := SdkVersionPrefix + TemplateText(version);
      if IsLatest(version, latestSdkVersion) then [LogEntry(Success, sdkVersionMessage)]
      else [LogEntry(Warning, sdkVersionMessage), LogEntry(Alert, UpdatePrefix + TextOf(latestSdkVersion))]
    else [LogEntry(Failure, SdkMissingPrefix + TextOf(lockFilePath))]
  }

  /** `project.packageLockFile?.readablePath`. */
  function LockFilePath(packageLockFile: Option<RN.LockFile>): Option<string> {
    if packageLockFile.Some? then Some(packageLockFile.value.readablePath) else None
  }

  /** `validateSDKVersion`: the lock file's lines, then the verdict on the resolved version, unless resolving threw. */
  function SdkVersionRun(project: ReactNativeProject, env: Environment): (run: CheckRun)
    ensures var lock := PackageLockVersion(project.packageLockFile, env);
      run.threw <==> ResolvedVersion(lock.1, PackageFileVersion(project.packageJsonContent, env.parse)).Throws?
    ensures var lock := PackageLockVersion(project.packageLockFile, env);
      lock.0 <= run.log && (run.threw ==> run.log == lock.0)
  {
    var lock := PackageLockVersion(project.packageLockFile, env);
    match ResolvedVersion(lock.1, PackageFileVersion(project.packageJsonContent, env.parse))
    case Throws => CheckRun(lock.0, true)
    case Returns(packageFileSdkVersion) =>
      CheckRun(lock.0 + SdkVersionLog(packageFileSdkVersion, env.latestSdkVersion, LockFilePath(project.packageLockFile)), false)
  }

  /**
   * A lock file that gives a version decides the check: package.json is
   * not consulted, so its content does not matter.
   */
  lemma LockVersionWins(project: ReactNativeProject, env: Environment, packageJsonContent: Option<string>)
    requires var lock := PackageLockVersion(project.packageLockFile, env).1;
      lock.Returns? && lock.value.Some? && lock.value != Some(JNull)
    ensures SdkVersionRun(project, env) == SdkVersionRun(project.(packageJsonContent := packageJsonContent), env)
  {
  }

  /**
   * A yarn lock file that records the published version gives a success
   * and nothing else; one that records another version gives a warning
   * and an update alert.
   */
  lemma YarnLockVersionVerdict(project: ReactNativeProject, env: Environment)
    requires HasLockContent(project.packageLockFile) && project.packageLockFile.value.lockType == "yarn"
    requires YarnLockVersion(project.packageLockFile.value.content.value, RN.PackageName).Some?
    ensures var v := YarnLockVersion(project.packageLockFile.value.content.value, RN.PackageName).value;
      var run := SdkVersionRun(project, env);
      !run.threw
      && (env.latestSdkVersion == Some(v) ==> run.log == [LogEntry(Success, SdkVersionPrefix + v)])
      && (env.latestSdkVersion != Some(v) ==> run.log == [LogEntry(Warning, SdkVersionPrefix + v),
                                                          LogEntry(Alert, UpdatePrefix + TextOf(env.latestSdkVersion))])
  {
    var content := project.packageLockFile.value.content.value;
    var v := YarnLockVersion(content, RN.PackageName).value;
    YarnLockVersionNonEmpty(content, RN.PackageName);
    var e := ExtractVersionFromPackageLockLegacy(content, "yarn", RN.PackageName, None);
    assert e == Returns(Some(JString(v)));
    assert RN.LockFileVersion(content, "yarn", env.parse) == e;
    assert PackageLockVersion(project.packageLockFile, env) == ([], e);
    var version := Some(JString(v));
    assert ResolvedVersion(e, PackageFileVersion(project.packageJsonContent, env.parse)) == Returns(version);
    assert SdkVersionRun(project, env) == CheckRun(SdkVersionLog(version, env.latestSdkVersion, LockFilePath(project.packageLockFile)), false);
    assert Truthy(version) && TemplateText(version) == v;
    assert IsLatest(version, env.latestSdkVersion) <==> env.latestSdkVersion == Some(v);
  }

  // ---------------------------------------------------------------------------
  // runChecks

  /** The dependencies group: the conflict check under `runCatching`. */
  function DependenciesLog(project: ReactNativeProject, env: Environment): seq<LogEntry> {
    RunCatching("validateNoConflictingSDKs", NoConflictingSdksRun(PackageJson(project, env), env.reactNativePackages, project.multiplePushProviders))
  }

  /**
   * `runChecks(group)`: one check per group, under `runCatching`, and none
   * for the push setup. Only the initialization check cannot throw.
   */
  method RunChecks(group: DoctorIos.CheckGroup, project: ReactNativeProject, env: Environment) returns (log: seq<LogEntry>)
    ensures group == DoctorIos.Diagnostics ==> log == RunCatching("validateSDKVersion", SdkVersionRun(project, env))
    ensures group == DoctorIos.Initialization ==> log == SdkInitializationLog(project)
    ensures group == DoctorIos.PushSetup ==> log == []
    ensures group == DoctorIos.Dependencies ==> log == DependenciesLog(project, env)
  {
    match group
    case Diagnostics =>
      log := RunCatching("validateSDKVersion", SdkVersionRun(project, env));
    case Initialization =>
      log := ValidateSdkInitialization(project);
    case PushSetup =>
      log := [];
    case Dependencies =>
      log := DependenciesLog(project, env);
  }

  /** A package.json without `dependencies` leaves one error line in the dependencies group and nothing else. */
  lemma DependenciesGroupCatches(project: ReactNativeProject, env: Environment)
    requires DependencyEntry(PackageJson(project, env), RN.PackageName).Throws?
    ensures |DependenciesLog(project, env)| == 1 && DependenciesLog(project, env)[0].level == Error
  {
    var run := NoConflictingSdksRun(PackageJson(project, env), env.reactNativePackages, project.multiplePushProviders);
    assert run.threw && run.log == [];
  }
}
