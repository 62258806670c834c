/**
 * The legacy stand-alone script run-diagnostics.ts: it walks the directory
 * given on the command line for `.pbxproj` and `AppDelegate.swift` files,
 * runs a plist-free NSE check and the deployment-target report on each
 * project, and looks for the delegate method in each AppDelegate.
 *
 * Output goes straight to the console. `console.log` lines are recorded at
 * level Info and `console.error` lines at level Error; the error object
 * printed after an error line is not recorded.
 */
module RunDiagnostics {
  import opened Wrappers
  import opened Strings
  import opened Arrays
  import opened Xcode
  import opened NseLoop
  import opened Logging
  import opened FileTree
  import opened FileSearch
  import opened Patterns
  import IosChecks

  /** The marks that open a verdict line. */
  const SuccessMark := '✅'
  const FailureMark := '❌'

  const SearchingLine := "🔎 Searching for project files..."
  const FoundExtensionAppLine := "🔎 Found extension app: "
  const FoundNseLine := "🔎 Found NSE: "
  const CheckingEmbeddedLine := "🔎 Checking if the NSE is embedded into target app: "
  const MultipleNseLine := [FailureMark] + " Multiple Notification Service Extensions found. Only one should be present."
  const EmbeddedNseLine := [SuccessMark] + " Notification Service Extension found and embedded."
  const FoundationNseLine := [SuccessMark] + " Notification Service Extension found but not embedded as it is a Foundation Extension."
  const NotEmbeddedNseLine := [FailureMark] + " Notification Service Extension found but not embedded."
  const NseNotFoundLine := [FailureMark] + " Notification Service Extension not found."
  const CheckingProjectLine := "🔎 Checking project at path: "
  const DeploymentTargetLine := "🔔 Deployment Target Version for NSE: "
  const CheckingAppDelegateLine := "🔎 Checking AppDelegate at path: "
  const MethodFoundLine := [SuccessMark] + " Required method found in AppDelegate.swift"
  const MethodMissingLine := [FailureMark] + " Required method not found in AppDelegate.swift"
  const ReadErrorLine := "🚨 Error reading file:"
  const ProjectCheckErrorLine := "🚨 Error during project check:"
  const NoDirectoryLine := "🚨 Error: No directory provided."

  // ---------------------------------------------------------------------------
  // The file patterns

  /** `/\.pbxproj$/`. */
  const ProjPattern := CreateFilePattern("\\.pbxproj")

  /** `/AppDelegate\.swift$/`. */
  const AppDelegatePattern := CreateFilePattern("AppDelegate\\.swift")

  /** Atoms that are the literal characters of `t` match at `i` exactly when `t` occurs there. */
  lemma LiteralAtomsMatch(atoms: seq<Atom>, t: string, s: string, i: nat)
    requires |atoms| == |t| && forall k | 0 <= k < |t| :: atoms[k] == Literal(t[k])
    requires i + |t| <= |s|
    ensures HeadAt(atoms, s, i, false) <==> s[i..i + |t|] == t
  {
    if HeadAt(atoms, s, i, false) {
      forall k | 0 <= k < |t| ensures s[i..i + |t|][k] == t[k] {
        assert AtomMatches(atoms[k], s[i + k], false);
      }
    }
    if s[i..i + |t|] == t {
      forall k | 0 <= k < |t| ensures AtomMatches(atoms[k], s[i + k], false) {
        assert s[i + k] == s[i..i + |t|][k];
      }
    }
  }

  /**
   * A plain name followed by an escaped `.ext` (`head`), anchored at the
   * end, accepts exactly the paths ending in the name and the extension (`t`).
   */
  lemma EscapedSuffixPattern(name: string, ext: string, head: string, t: string, s: string)
    requires Plain(name) && DotExtension(ext)
    requires head == name + EscapeFirstDot(ext) && t == name + ext
    ensures Test(CreateFilePattern(head), s) <==> EndsWith(s, t)
  {
    var atoms := Atoms(head);
    AtomsAppendPlain(name, EscapeFirstDot(ext));
    PlainAtoms(name);
    EscapedExtensionAtoms(ext);
    forall k | 0 <= k < |t| ensures atoms[k] == Literal(t[k]) {
      if k < |name| {
        assert atoms[k] == Atoms(name)[k];
      } else {
        assert atoms[k] == Atoms(EscapeFirstDot(ext))[k - |name|];
      }
    }
    CreateFilePatternMatchesSuffix(head, s);
    if |t| <= |s| {
      LiteralAtomsMatch(atoms, t, s, |s| - |t|);
    }
  }

  /** The pieces of `/\.pbxproj$/`: no name, and the escaped extension `.pbxproj`. */
  lemma ProjPatternPieces()
    ensures Plain("") && DotExtension(".pbxproj")
    ensures "\\.pbxproj" == "" + EscapeFirstDot(".pbxproj") && ".pbxproj" == "" + ".pbxproj"
  {
    assert EscapeFirstDot(".pbxproj") == "\\." + ".pbxproj"[1..];
  }

  /** The project pattern accepts exactly the paths that end in `.pbxproj`. */
  lemma ProjPatternMeaning(s: string)
    ensures Test(ProjPattern, s) <==> EndsWith(s, ".pbxproj")
  {
    ProjPatternPieces();
    EscapedSuffixPattern("", ".pbxproj", "\\.pbxproj", ".pbxproj", s);
  }

  /** The pieces of `/AppDelegate\.swift$/`: the name `AppDelegate` and the escaped extension `.swift`. */
  lemma AppDelegatePatternPieces()
    ensures Plain("AppDelegate") && DotExtension(".swift")
    ensures "AppDelegate\\.swift" == "AppDelegate" + EscapeFirstDot(".swift") && "AppDelegate.swift" == "AppDelegate" + ".swift"
  {
    assert EscapeFirstDot(".swift") == "\\." + ".swift"[1..];
  }

  /** The AppDelegate pattern accepts exactly the paths that end in `AppDelegate.swift`. */
  lemma AppDelegatePatternMeaning(s: string)
    ensures Test(AppDelegatePattern, s) <==> EndsWith(s, "AppDelegate.swift")
  {
    AppDelegatePatternPieces();
    EscapedSuffixPattern("AppDelegate", ".swift", "AppDelegate\\.swift", "AppDelegate.swift", s);
  }

  // ---------------------------------------------------------------------------
  // checkNotificationServiceExtension

  /**
   * The body of the loop for one target: every app extension is counted,
   * with no look at its Info.plist, and an application target sets one of
   * the two embedding flags. `stringify` is `JSON.stringify`.
   */
  function OutcomeOf(stringify: Target -> string, t: Target): TargetOutcome {
    var extensionLines := if IsAppExtension(t) then [LogEntry(Info, FoundExtensionAppLine + stringify(t)), LogEntry(Info, FoundNseLine + t.name)] else [];
    var applicationLines := if IsApplication(t) then [LogEntry(Info, CheckingEmbeddedLine + t.productType.value)] else [];
    TargetOutcome(extensionLines + applicationLines, IsAppExtension(t), false,
      IsApplication(t) && HasPhase(t, EmbedAppExtensions),
      IsApplication(t) && !HasPhase(t, EmbedAppExtensions) && HasPhase(t, EmbedFoundationExtensions))
  }

  /** The outcome of every target, in section order. */
  function Outcomes(stringify: Target -> string, targets: seq<Target>): (r: seq<TargetOutcome>)
    ensures |r| == |targets|
  {
    if |targets| == 0 then [] else Outcomes(stringify, targets[..|targets| - 1]) + [OutcomeOf(stringify, targets[|targets| - 1])]
  }

  /** Each outcome is the outcome of the target at the same index. */
  lemma {:induction false} OutcomesShape(stringify: Target -> string, targets: seq<Target>)
    ensures forall i | 0 <= i < |targets| :: Outcomes(stringify, targets)[i] == OutcomeOf(stringify, targets[i])
  {
    if |targets| > 0 {
      OutcomesShape(stringify, targets[..|targets| - 1]);
    }
  }

  /** The verdict line; both the embedded and the Foundation-extension cases are a success here. */
  function VerdictLine(v: NseVerdict): (line: string)
    ensures |line| > 0 && (line[0] == SuccessMark <==> VerdictLevel(v, Success) == Success)
  {
    assert MultipleNseLine[0] != SuccessMark && NotEmbeddedNseLine[0] != SuccessMark && NseNotFoundLine[0] != SuccessMark;
    assert EmbeddedNseLine[0] == SuccessMark && FoundationNseLine[0] == SuccessMark;
    match v
    case MultipleFound => MultipleNseLine
    case FoundEmbedded => EmbeddedNseLine
    case FoundAsFoundationExtension => FoundationNseLine
    case FoundNotEmbedded => NotEmbeddedNseLine
    case NotFound => NseNotFoundLine
  }

  /** The check's output: the loop's lines, then the verdict. */
  function NseLog(stringify: Target -> string, targets: seq<Target>): seq<LogEntry> {
    var s := Scanned(Outcomes(stringify, targets), |targets|);
    s.log + [LogEntry(Info, VerdictLine(Verdict(s.scan)))]
  }

  /**
   * The verdict is the one for the number of app-extension targets and the
   * application targets' embedding phases; it is the last line, and it is
   * a success exactly when there is one extension and some embedding phase.
   */
  lemma NseLogMeaning(stringify: Target -> string, targets: seq<Target>)
    ensures var v := Verdict(TargetScan(|Filter(targets, IsAppExtension)|, Embedded(targets), FoundationEmbedded(targets)));
      var log := NseLog(stringify, targets);
      && log[|log| - 1] == LogEntry(Info, VerdictLine(v))
      && (log[|log| - 1].message[0] == SuccessMark <==>
           |Filter(targets, IsAppExtension)| == 1 && (Embedded(targets) || FoundationEmbedded(targets)))
  {
    var outcomes := Outcomes(stringify, targets);
    OutcomesShape(stringify, targets);
    forall i | 0 <= i < |targets| ensures PhasesAgree(targets[i], outcomes[i]) {
      ExtensionIsNotApplication(targets[i]);
    }
    EmbeddingMeaning(targets, outcomes);
    ScannedThrows(outcomes, |targets|);
    ScannedFlags(outcomes, |targets|);
    ScannedCount(targets, outcomes, IsAppExtension, |targets|);
    assert targets[..|targets|] == targets;
    SucceedsWithOneEmbeddedExtension(Scanned(outcomes, |targets|).scan);
  }

  /** The body of the loop for the target at index `i` (run-diagnostics.ts:37-52). */
  method InspectTarget(stringify: Target -> string, targets: seq<Target>, i: nat) returns (outcome: TargetOutcome)
    requires i < |targets|
    ensures outcome == Outcomes(stringify, targets)[i] && !outcome.threw
    ensures outcome.counted <==> IsAppExtension(targets[i])
    ensures outcome.embedsAppExtensions <==> IsApplication(targets[i]) && HasPhase(targets[i], EmbedAppExtensions)
    ensures outcome.embedsFoundationExtensions ==> IsApplication(targets[i]) && !outcome.embedsAppExtensions
    ensures |outcome.lines| == (if IsAppExtension(targets[i]) then 2 else 0) + (if IsApplication(targets[i]) then 1 else 0)
  {
    OutcomesShape(stringify, targets);
    var target := targets[i];
    outcome := TargetOutcome([], false, false, false, false);
    if IsAppExtension(target) {
      outcome := outcome.(lines := [LogEntry(Info, FoundExtensionAppLine + stringify(target)), LogEntry(Info, FoundNseLine + target.name)],
                          counted := true);
    }
    if IsApplication(target) {
      ExtensionIsNotApplication(target);
      outcome := outcome.(lines := outcome.lines + [LogEntry(Info, CheckingEmbeddedLine + target.productType.value)]);
      if HasPhase(target, EmbedAppExtensions) {
        outcome := outcome.(embedsAppExtensions := true);
      } else if HasPhase(target, EmbedFoundationExtensions) {
        outcome := outcome.(embedsFoundationExtensions := true);
      }
    }
  }

  /** `checkNotificationServiceExtension` (run-diagnostics.ts:31-68): counters and flags updated target by target. */
  method CheckNotificationServiceExtension(stringify: Target -> string, targets: seq<Target>) returns (log: seq<LogEntry>)
    ensures log == NseLog(stringify, targets)
  {
    ghost var outcomes := Outcomes(stringify, targets);
    log := [];
    var extensionCount := 0;
    var isEmbedded := false;
    var isFoundationExtension := false;
    for i := 0 to |targets|
      invariant Scanned(outcomes, i) == NseScan(log, TargetScan(extensionCount, isEmbedded, isFoundationExtension), false)
    {
      var outcome := InspectTarget(stringify, targets, i);
      log := log + outcome.lines;
      if outcome.counted {
        extensionCount := extensionCount + 1;
      }
      if outcome.embedsAppExtensions {
        isEmbedded := true;
      }
      if outcome.embedsFoundationExtensions {
        isFoundationExtension := true;
      }
    }
    log := log + [LogEntry(Info, VerdictLine(Verdict(TargetScan(extensionCount, isEmbedded, isFoundationExtension))))];
  }

  // ---------------------------------------------------------------------------
  // checkProject

  /**
   * One pass of the project loop: `parseSync` throws when the file cannot
   * be parsed, and `getDeploymentTargetVersion` when the extension's
   * configuration list is missing. `parse` stands for the xcode parser.
   */
  function ProjectRun(parse: string -> Option<XcodeProject>, stringify: Target -> string, projectPath: string): CheckRun {
    match parse(projectPath)
    case None => CheckRun([], true)
    case Some(project) =>
      var checked := [LogEntry(Info, CheckingProjectLine + projectPath)] + NseLog(stringify, project.targets);
      match ProjectDeploymentTarget(project)
      case Throws => CheckRun(checked, true)
      case Returns(deploymentTarget) =>
        Completed(checked + [LogEntry(Info, DeploymentTargetLine + IosChecks.NullableText(deploymentTarget) + IosChecks.DeploymentTargetAdvice)])
  }

  /** `ProjectRun` as the check applied to each path. */
  function ProjectCheck(parse: string -> Option<XcodeProject>, stringify: Target -> string): string -> CheckRun {
    projectPath => ProjectRun(parse, stringify, projectPath)
  }

  /** The lines for one AppDelegate: the path, then the verdict, or an error line when the file cannot be read. */
  function AppDelegateLines(readFile: string -> Option<string>, appDelegatePath: string): (log: seq<LogEntry>)
    ensures |log| == 2 && log[0] == LogEntry(Info, CheckingAppDelegateLine + appDelegatePath)
    ensures readFile(appDelegatePath).None? <==> log[1] == LogEntry(Error, ReadErrorLine)
    ensures log[1] == LogEntry(Info, MethodFoundLine) <==>
      readFile(appDelegatePath).Some? && Contains(readFile(appDelegatePath).value, IosChecks.SwiftDelegateSignature)
  {
    var checking := LogEntry(Info, CheckingAppDelegateLine + appDelegatePath);
    match readFile(appDelegatePath)
    case None => [checking, LogEntry(Error, ReadErrorLine)]
    case Some(contents) =>
      if Contains(contents, IosChecks.SwiftDelegateSignature) then [checking, LogEntry(Info, MethodFoundLine)]
      else [checking, LogEntry(Info, MethodMissingLine)]
  }

  /** The AppDelegate loop: two lines per file, in order; a read error is caught and the loop goes on. */
  function AppDelegatesLog(readFile: string -> Option<string>, paths: seq<string>): (log: seq<LogEntry>)
    ensures |log| == 2 * |paths|
  {
    if |paths| == 0 then [] else AppDelegatesLog(readFile, paths[..|paths| - 1]) + AppDelegateLines(readFile, paths[|paths| - 1])
  }

  /** Each AppDelegate file contributes its own two lines, at twice its index. */
  lemma {:induction false} AppDelegatesLogShape(readFile: string -> Option<string>, paths: seq<string>, i: nat)
    requires i < |paths|
    ensures AppDelegatesLog(readFile, paths)[2 * i..2 * i + 2] == AppDelegateLines(readFile, paths[i])
  {
    var n := |paths| - 1;
    var prefix := paths[..n];
    var earlier := AppDelegatesLog(readFile, prefix);
    var last := AppDelegateLines(readFile, paths[n]);
    assert AppDelegatesLog(readFile, paths) == earlier + last;
    if i < n {
      assert prefix[i] == paths[i];
      AppDelegatesLogShape(readFile, prefix, i);
      SliceOfFront(earlier, last, 2 * i, 2 * i + 2);
    } else {
      SliceOfBack(earlier, last);
    }
  }

  /** A slice inside the front part of a concatenation is a slice of that part. */
  lemma SliceOfFront<T>(front: seq<T>, back: seq<T>, lo: nat, hi: nat)
    requires lo <= hi <= |front|
    ensures (front + back)[lo..hi] == front[lo..hi]
  {
  }

  /** The back part of a concatenation is sliced back out after the front part. */
  lemma SliceOfBack<T>(front: seq<T>, back: seq<T>)
    ensures (front + back)[|front|..|front| + |back|] == back
  {
  }

  /** The two walks' results: both see the same candidates, so either both reject or both return. */
  function SearchResults(rootPath: string, tree: Node): Eval<(seq<string>, seq<string>)> {
    match Candidates(rootPath, tree, [PodsDirectory])
    case Throws => Throws
    case Returns(files) => Returns((Filter(files, Matches(ProjPattern)), Filter(files, Matches(AppDelegatePattern))))
  }

  /**
   * `checkProject` and the `.catch` around it: the search line, then each
   * project, then each AppDelegate; an exception ends the function and
   * becomes one error line.
   */
  function CheckProjectLog(search: Eval<(seq<string>, seq<string>)>, parse: string -> Option<XcodeProject>,
                           stringify: Target -> string, readFile: string -> Option<string>): seq<LogEntry> {
    [LogEntry(Info, SearchingLine)] +
    match search
    case Throws => [LogEntry(Error, ProjectCheckErrorLine)]
    case Returns((projectPaths, appDelegatePaths)) => FoundLog(parse, stringify, readFile, projectPaths, appDelegatePaths)
  }

  /** What `checkProject` logs once both searches have returned. */
  function FoundLog(parse: string -> Option<XcodeProject>, stringify: Target -> string, readFile: string -> Option<string>,
                    projectPaths: seq<string>, appDelegatePaths: seq<string>): seq<LogEntry> {
    var projects := RunEach(projectPaths, ProjectCheck(parse, stringify), |projectPaths|);
    if projects.threw then projects.log + [LogEntry(Error, ProjectCheckErrorLine)]
    else projects.log + AppDelegatesLog(readFile, appDelegatePaths)
  }

  /** The check of one project file (run-diagnostics.ts:126-137). */
  method CheckProjectFile(parse: string -> Option<XcodeProject>, stringify: Target -> string, projectPath: string) returns (run: CheckRun)
    ensures run == ProjectRun(parse, stringify, projectPath)
  {
    var project := parse(projectPath);
    if project.None? {
      return CheckRun([], true);
    }
    var log := [LogEntry(Info, CheckingProjectLine + projectPath)];
    var nseLog := CheckNotificationServiceExtension(stringify, project.value.targets);
    log := log + nseLog;
    var deploymentTarget := IosChecks.GetDeploymentTargetVersion(project.value);
    if deploymentTarget.Throws? {
      return CheckRun(log, true);
    }
    log := log + [LogEntry(Info, DeploymentTargetLine + IosChecks.NullableText(deploymentTarget.value) + IosChecks.DeploymentTargetAdvice)];
    run := Completed(log);
  }

  /** The project loop (run-diagnostics.ts:125-138): the first project that throws ends it. */
  method CheckProjects(parse: string -> Option<XcodeProject>, stringify: Target -> string, projectPaths: seq<string>) returns (run: CheckRun)
    ensures run == RunEach(projectPaths, ProjectCheck(parse, stringify), |projectPaths|)
  {
    run := Completed([]);
    for i := 0 to |projectPaths|
      invariant run == RunEach(projectPaths, ProjectCheck(parse, stringify), i) && !run.threw
    {
      var projectRun := CheckProjectFile(parse, stringify, projectPaths[i]);
      run := AndThen(run, projectRun);
      if run.threw {
        RunEachStopsAtThrow(projectPaths, ProjectCheck(parse, stringify), i + 1, |projectPaths|);
        return;
      }
    }
  }

  /** The AppDelegate loop (run-diagnostics.ts:141-153). */
  method CheckAppDelegates(readFile: string -> Option<string>, appDelegatePaths: seq<string>) returns (log: seq<LogEntry>)
    ensures log == AppDelegatesLog(readFile, appDelegatePaths)
  {
    log := [];
    for i := 0 to |appDelegatePaths|
      invariant log == AppDelegatesLog(readFile, appDelegatePaths[..i])
    {
      var appDelegatePath := appDelegatePaths[i];
      log := log + [LogEntry(Info, CheckingAppDelegateLine + appDelegatePath)];
      var contents := readFile(appDelegatePath);
      if contents.None? {
        log := log + [LogEntry(Error, ReadErrorLine)];
      } else if Contains(contents.value, IosChecks.SwiftDelegateSignature) {
        log := log + [LogEntry(Info, MethodFoundLine)];
      } else {
        log := log + [LogEntry(Info, MethodMissingLine)];
      }
      assert appDelegatePaths[..i + 1][..i] == appDelegatePaths[..i];
    }
    assert appDelegatePaths[..|appDelegatePaths|] == appDelegatePaths;
  }

  /**
   * `checkProject` (run-diagnostics.ts:116-154) with the promise-returning
   * file-system calls it evidently intends; `tree` is the directory at
   * `rootPath`, `readFile` reads a file's text.
   */
  method CheckProject(rootPath: string, tree: Node, parse: string -> Option<XcodeProject>,
                      stringify: Target -> string, readFile: string -> Option<string>) returns (log: seq<LogEntry>)
    ensures log == CheckProjectLog(SearchResults(rootPath, tree), parse, stringify, readFile)
  {
    log := [LogEntry(Info, SearchingLine)];
    var projectPaths := SearchWithFilter(rootPath, tree, ProjPattern);
    var appDelegatePaths := SearchWithFilter(rootPath, tree, AppDelegatePattern);
    if projectPaths.Throws? || appDelegatePaths.Throws? {
      return log + [LogEntry(Error, ProjectCheckErrorLine)];
    }
    var found := CheckFound(parse, stringify, readFile, projectPaths.value, appDelegatePaths.value);
    log := log + found;
  }

  /** The body of `checkProject` after the searches (run-diagnostics.ts:124-153). */
  method CheckFound(parse: string -> Option<XcodeProject>, stringify: Target -> string, readFile: string -> Option<string>,
                    projectPaths: seq<string>, appDelegatePaths: seq<string>) returns (log: seq<LogEntry>)
    ensures log == FoundLog(parse, stringify, readFile, projectPaths, appDelegatePaths)
  {
    var projects := CheckProjects(parse, stringify, projectPaths);
    if projects.threw {
      return projects.log + [LogEntry(Error, ProjectCheckErrorLine)];
    }
    var appDelegateLog := CheckAppDelegates(readFile, appDelegatePaths);
    log := projects.log + appDelegateLog;
  }

  /**
   * The script as a whole (run-diagnostics.ts:103-156): without a directory
   * argument it reports the error and exits with status 1; otherwise it
   * runs `checkProject` on the tree at that path and exits normally.
   */
  function DiagnoseLog(rootPath: Option<string>, tree: Node, parse: string -> Option<XcodeProject>,
                       stringify: Target -> string, readFile: string -> Option<string>): (r: (seq<LogEntry>, int))
    ensures (rootPath.None? || rootPath.value == "") <==> r.1 == 1
    ensures r.1 == 1 ==> r.0 == [LogEntry(Error, NoDirectoryLine)]
    ensures r.1 == 0 || r.1 == 1
  {
    if rootPath.None? || rootPath.value == "" then ([LogEntry(Error, NoDirectoryLine)], 1)
    else (CheckProjectLog(SearchResults(rootPath.value, tree), parse, stringify, readFile), 0)
  }

  /** `main`: the argument check, then the project check. */
  method Diagnose(rootPath: Option<string>, tree: Node, parse: string -> Option<XcodeProject>,
                  stringify: Target -> string, readFile: string -> Option<string>) returns (log: seq<LogEntry>, exitCode: int)
    ensures (log, exitCode) == DiagnoseLog(rootPath, tree, parse, stringify, readFile)
  {
    if rootPath.None? || rootPath.value == "" {
      return [LogEntry(Error, NoDirectoryLine)], 1;
    }
    log := CheckProject(rootPath.value, tree, parse, stringify, readFile);
    exitCode := 0;
  }

  /** As written, `fs.readdir` rejects, so the script prints the search line and the error line and nothing else. */
  lemma AsWrittenOnlyReportsError(rootPath: string, tree: Node, parse: string -> Option<XcodeProject>,
                                  stringify: Target -> string, readFile: string -> Option<string>)
    ensures SearchWithCallbackReaddir(rootPath, tree, ProjPattern).Throws?
    ensures CheckProjectLog(Throws, parse, stringify, readFile) == [LogEntry(Info, SearchingLine), LogEntry(Error, ProjectCheckErrorLine)]
  {
  }
}
