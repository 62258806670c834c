/**
 * The iOS checks of the earlier command revision (src/checks/ios.ts): for
 * each Xcode project file the NSE check and the deployment-target report,
 * then the AppDelegate delegate check, the push entitlement check, the
 * conflicting-pod check and the pod-version summary.
 *
 * The checks name their files by `file.path`, a field the records they
 * are given do not have: project files are `{ file, xcodeProject }` pairs
 * and a `File` keeps its path in `absolutePath`. As written every such
 * path is `undefined`. Each check here takes the path it reads as an
 * `Option<string>` (`None` for `undefined`) together with what reading it
 * gives; `AsWritten` and `AsIntended` build the two readings of a project.
 *
 * Progress, search and result lines are recorded at level `Info`.
 */
module IosChecks {
  import opened Wrappers
  import opened Strings
  import opened Arrays
  import opened Scan
  import opened Xcode
  import opened Entitlements
  import opened PodLock
  import opened Logging
  import opened NseLoop

  // The lines the checks log.
  const CheckingProjectLine := "Checking project at path: "
  const DeploymentTargetVersionLine := "Deployment Target Version for NSE: "
  const DeploymentTargetAdvice := ". Ensure this version is not higher than the iOS version of the devices where the app will be installed. A higher target version may prevent some features, like rich notifications, from working correctly."
  const FoundAppExtensionLine := "Found app extension: "
  const CheckingInfoPlistLine := "Checking Info.plist at path: "
  const FoundNotificationExtensionLine := "Found Notification app extension: "
  const CheckingEmbeddedLine := "Checking if the NSE is embedded into target app: "
  const MultipleNseLine := "Multiple Notification Service Extensions found. Only one should be present."
  const EmbeddedNseLine := "Notification Service Extension found and embedded."
  const FoundationNseLine := "Notification Service Extension found but not embedded as it is a Foundation Extension."
  const NotEmbeddedNseLine := "Notification Service Extension found but not embedded."
  const NseNotFoundLine := "Notification Service Extension not found."
  const CheckingAppDelegateLine := "Checking AppDelegate at path: "
  const DelegateFoundLine := "Required method found in AppDelegate"
  const DelegateMissingLine := "Required method not found in AppDelegate"
  const CheckingEntitlementsLine := "Checking entitlements file at path: "
  const PushCapabilityFoundLine := "Push Notification capability found in entitlements"
  const PushCapabilityMissingLine := "Push Notification capability not found in entitlements"
  const CheckingConflictsLine := "Checking for conflicting libraries in: "
  const NoPodfileLockLine := "No podfile.lock found at "
  const NoConflictsLine := "No conflicting pods found in Podfile"
  const ConflictsLine := "More than one pods found in Podfile for handling push notifications"

  // ---------------------------------------------------------------------------
  // What the checks read

  /**
   * The file system as the checks see it: a file's text, the Xcode project
   * parsed from a path (absent when `parseSync` throws) and a parsed
   * Info.plist (absent when `readAndParseXML` gives undefined).
   */
  datatype Disk = Disk(
    readFile: string -> Option<string>,
    parseProject: string -> Option<XcodeProject>,
    readPlist: string -> Option<XmlDocument>)

  /** `readFileContent(path)`: reading an undefined path throws inside the helper, which returns undefined. */
  function ReadAt(disk: Disk, path: Option<string>): (r: Option<string>)
    ensures path.None? ==> r.None?
    ensures path.Some? ==> r == disk.readFile(path.value)
  {
    if path.None? then None else disk.readFile(path.value)
  }

  /** `xcode.project(path).parseSync()`: absent, because it throws, for an undefined path. */
  function ParseAt(disk: Disk, path: Option<string>): (r: Option<XcodeProject>)
    ensures path.None? ==> r.None?
    ensures path.Some? ==> r == disk.parseProject(path.value)
  {
    if path.None? then None else disk.parseProject(path.value)
  }

  /** An AppDelegate file as the delegate check sees it: its path, its `extension` tag and its text. */
  datatype AppDelegateRead = AppDelegateRead(path: Option<string>, extension: Option<string>, contents: Option<string>)

  /** A file as the entitlements check sees it: its path and its text. */
  datatype FileRead = FileRead(path: Option<string>, contents: Option<string>)

  /** An AppDelegate file of the project: where it is and the tag `locateFiles` gave it. */
  datatype AppDelegateFile = AppDelegateFile(absolutePath: string, extension: Option<string>)

  /** What the checks take from an iOS project, with every path absolute. */
  datatype IosProject = IosProject(
    iOSProjectPath: string,
    projectFiles: seq<string>,
    appDelegateFiles: seq<AppDelegateFile>,
    entitlementsFiles: seq<string>,
    podfileLockPath: string,
    podfileLockContent: Option<string>)

  /** What the checks read, path by path. */
  datatype CheckInputs = CheckInputs(
    iOSProjectPath: string,
    disk: Disk,
    projectFilePaths: seq<Option<string>>,
    appDelegateFiles: seq<AppDelegateRead>,
    entitlementsFiles: seq<FileRead>,
    podfileLockPath: Option<string>,
    podfileLockContent: Option<string>,
    iosPods: seq<string>,
    objcPattern: string -> bool)

  /** The checks as written: every `file.path` is undefined, and reading it gives nothing. */
  function AsWritten(p: IosProject, disk: Disk, iosPods: seq<string>, objcPattern: string -> bool): (inputs: CheckInputs)
    ensures |inputs.projectFilePaths| == |p.projectFiles| && |inputs.entitlementsFiles| == |p.entitlementsFiles|
    ensures |inputs.appDelegateFiles| == |p.appDelegateFiles|
  {
    CheckInputs(
      p.iOSProjectPath, disk,
      Map(p.projectFiles, (f: string) => None),
      Map(p.appDelegateFiles, (f: AppDelegateFile) => AppDelegateRead(None, f.extension, None)),
      Map(p.entitlementsFiles, (f: string) => FileRead(None, None)),
      None, p.podfileLockContent, iosPods, objcPattern)
  }

  /** The checks as evidently intended: each file is named and read by its absolute path. */
  function AsIntended(p: IosProject, disk: Disk, iosPods: seq<string>, objcPattern: string -> bool): (inputs: CheckInputs)
    ensures |inputs.projectFilePaths| == |p.projectFiles| && |inputs.entitlementsFiles| == |p.entitlementsFiles|
    ensures |inputs.appDelegateFiles| == |p.appDelegateFiles|
  {
    CheckInputs(
      p.iOSProjectPath, disk,
      Map(p.projectFiles, (f: string) => Some(f)),
      Map(p.appDelegateFiles, (f: AppDelegateFile) => AppDelegateRead(Some(f.absolutePath), f.extension, disk.readFile(f.absolutePath))),
      Map(p.entitlementsFiles, (f: string) => FileRead(Some(f), disk.readFile(f))),
      Some(p.podfileLockPath), p.podfileLockContent, iosPods, objcPattern)
  }

  // ---------------------------------------------------------------------------
  // The Notification Service Extension check

  /**
   * The body of the loop for an app-extension target: announce it, locate
   * and parse its Info.plist, and count it when the plist confirms an NSE.
   * `infoPlistContent.plist.dict` throws when the document or its `plist`
   * element is missing.
   */
  function ExtensionOutcome(iOSProjectPath: string, readPlist: string -> Option<XmlDocument>, t: Target): TargetOutcome {
    var found := [LogEntry(Info, FoundAppExtensionLine + t.name)];
    match InferredDirectoryName(t)
    case Throws => TargetOutcome(found, false, true, false, false)
    case Returns(directoryName) =>
      var infoPlistPath := InfoPlistPath(iOSProjectPath, directoryName);
      var checking := found + [LogEntry(Info, CheckingInfoPlistLine + infoPlistPath)];
      var infoPlistContent := readPlist(infoPlistPath);
      if infoPlistContent.None? || infoPlistContent.value.plist.None? then TargetOutcome(checking, false, true, false, false)
      else
        match IsNotificationServiceExtension(infoPlistContent.value.plist.value.dict)
        case Throws => TargetOutcome(checking, false, true, false, false)
        case Returns(isNse) =>
          if isNse then TargetOutcome(checking + [LogEntry(Info, FoundNotificationExtensionLine + t.name)], true, false, false, false)
          else TargetOutcome(checking, false, false, false, false)
  }

  /** The body of the loop for an application target: the `if`/`else if` on its build phases. */
  function ApplicationOutcome(t: Target): TargetOutcome {
    var lines := [LogEntry(Info, CheckingEmbeddedLine + t.name)];
    if HasPhase(t, EmbedAppExtensions) then TargetOutcome(lines, false, false, true, false)
    else if HasPhase(t, EmbedFoundationExtensions) then TargetOutcome(lines, false, false, false, true)
    else TargetOutcome(lines, false, false, false, false)
  }

  /** The body of the loop; a target has at most one of the two product types. */
  function OutcomeOf(iOSProjectPath: string, readPlist: string -> Option<XmlDocument>, t: Target): TargetOutcome {
    if IsAppExtension(t) then ExtensionOutcome(iOSProjectPath, readPlist, t)
    else if IsApplication(t) then ApplicationOutcome(t)
    else TargetOutcome([], false, false, false, false)
  }

  /** The outcome of every target, in section order. */
  function Outcomes(iOSProjectPath: string, readPlist: string -> Option<XmlDocument>, targets: seq<Target>): (r: seq<TargetOutcome>)
    ensures |r| == |targets|
  {
    if |targets| == 0 then [] else Outcomes(iOSProjectPath, readPlist, targets[..|targets| - 1]) + [OutcomeOf(iOSProjectPath, readPlist, targets[|targets| - 1])]
  }

  /** The outcome at each index is the outcome of the target at that index. */
  lemma {:induction false} OutcomeAt(iOSProjectPath: string, readPlist: string -> Option<XmlDocument>, targets: seq<Target>, i: nat)
    requires i < |targets|
    ensures Outcomes(iOSProjectPath, readPlist, targets)[i] == OutcomeOf(iOSProjectPath, readPlist, targets[i])
  {
    if i < |targets| - 1 {
      OutcomeAt(iOSProjectPath, readPlist, targets[..|targets| - 1], i);
    }
  }

  /** The app-extension branch throws exactly when the plist chain does, and counts exactly the confirmed NSEs. */
  lemma ExtensionOutcomeMeaning(iOSProjectPath: string, readPlist: string -> Option<XmlDocument>, t: Target)
    ensures var o := ExtensionOutcome(iOSProjectPath, readPlist, t);
      && (o.threw <==> ConfirmNse(t, iOSProjectPath, readPlist).Throws?)
      && (o.counted <==> ConfirmNse(t, iOSProjectPath, readPlist) == Returns(true))
      && !o.embedsAppExtensions && !o.embedsFoundationExtensions
  {
  }

  /** A target throws exactly when it is an app extension whose plist cannot be examined, and is counted exactly when its plist confirms an NSE. */
  lemma OutcomeMeaning(iOSProjectPath: string, readPlist: string -> Option<XmlDocument>, t: Target)
    ensures var o := OutcomeOf(iOSProjectPath, readPlist, t);
      && (o.threw <==> ConfirmThrows(t, iOSProjectPath, readPlist))
      && (o.counted <==> IsConfirmedNse(iOSProjectPath, readPlist)(t))
      && PhasesAgree(t, o)
  {
    ExtensionIsNotApplication(t);
    ExtensionOutcomeMeaning(iOSProjectPath, readPlist, t);
  }

  /** The verdict line; the Foundation-extension case is a warning in this revision. */
  function VerdictLines(v: NseVerdict): (log: seq<LogEntry>)
    ensures |log| == 1 && log[0].level == VerdictLevel(v, Warning)
  {
    match v
    case MultipleFound => [LogEntry(Failure, MultipleNseLine)]
    case FoundEmbedded => [LogEntry(Success, EmbeddedNseLine)]
    case FoundAsFoundationExtension => [LogEntry(Warning, FoundationNseLine)]
    case FoundNotEmbedded => [LogEntry(Failure, NotEmbeddedNseLine)]
    case NotFound => [LogEntry(Failure, NseNotFoundLine)]
  }

  /** `verifyNotificationServiceExtension` as a whole: the loop, then the verdict unless the loop threw. */
  function NseRun(iOSProjectPath: string, readPlist: string -> Option<XmlDocument>, targets: seq<Target>): CheckRun {
    var s := Scanned(Outcomes(iOSProjectPath, readPlist, targets), |targets|);
    if s.threw then CheckRun(s.log, true) else Completed(s.log + VerdictLines(Verdict(s.scan)))
  }

  /**
   * The check throws exactly when some app extension's Info.plist cannot
   * be examined; otherwise the verdict is the one for the number of
   * plist-confirmed NSEs and the application targets' embedding phases.
   */
  lemma NseRunMeaning(iOSProjectPath: string, readPlist: string -> Option<XmlDocument>, targets: seq<Target>)
    ensures NseRun(iOSProjectPath, readPlist, targets).threw <==>
      exists i | 0 <= i < |targets| :: ConfirmThrows(targets[i], iOSProjectPath, readPlist)
    ensures var before := Scanned(Outcomes(iOSProjectPath, readPlist, targets), |targets|).log;
      var v := Verdict(TargetScan(|Filter(targets, IsConfirmedNse(iOSProjectPath, readPlist))|, Embedded(targets), FoundationEmbedded(targets)));
      var run := NseRun(iOSProjectPath, readPlist, targets);
      !run.threw ==> run.log == before + VerdictLines(v) && run.log[|before|].level == VerdictLevel(v, Warning)
  {
    var outcomes := Outcomes(iOSProjectPath, readPlist, targets);
    forall i | 0 <= i < |targets|
      ensures (outcomes[i].threw <==> ConfirmThrows(targets[i], iOSProjectPath, readPlist))
      ensures (outcomes[i].counted <==> IsConfirmedNse(iOSProjectPath, readPlist)(targets[i]))
      ensures PhasesAgree(targets[i], outcomes[i])
    {
      OutcomeAt(iOSProjectPath, readPlist, targets, i);
      OutcomeMeaning(iOSProjectPath, readPlist, targets[i]);
    }
    EmbeddingMeaning(targets, outcomes);
    ScannedThrows(outcomes, |targets|);
    if !Scanned(outcomes, |targets|).threw {
      ScannedFlags(outcomes, |targets|);
      ScannedCount(targets, outcomes, IsConfirmedNse(iOSProjectPath, readPlist), |targets|);
      assert targets[..|targets|] == targets;
    }
  }

  /** The body of the loop for the target at index `i` (src/checks/ios.ts:62-122). */
  method InspectTarget(iOSProjectPath: string, readPlist: string -> Option<XmlDocument>, targets: seq<Target>, i: nat) returns (outcome: TargetOutcome)
    requires i < |targets|
    ensures outcome == Outcomes(iOSProjectPath, readPlist, targets)[i]
  {
    OutcomeAt(iOSProjectPath, readPlist, targets, i);
    var target := targets[i];
    outcome := TargetOutcome([], false, false, false, false);
    if IsAppExtension(target) {
      var lines := [LogEntry(Info, FoundAppExtensionLine + target.name)];
      var inferredDirectoryName := InferredDirectoryName(target);
      if inferredDirectoryName.Throws? {
        return TargetOutcome(lines, false, true, false, false);
      }
      var infoPlistPath := InfoPlistPath(iOSProjectPath, inferredDirectoryName.value);
      lines := lines + [LogEntry(Info, CheckingInfoPlistLine + infoPlistPath)];
      var infoPlistContent := readPlist(infoPlistPath);
      if infoPlistContent.None? || infoPlistContent.value.plist.None? {
        return TargetOutcome(lines, false, true, false, false);
      }
      var isNse := IsNotificationServiceExtension(infoPlistContent.value.plist.value.dict);
      if isNse.Throws? {
        return TargetOutcome(lines, false, true, false, false);
      }
      if isNse.value {
        lines := lines + [LogEntry(Info, FoundNotificationExtensionLine + target.name)];
      }
      outcome := TargetOutcome(lines, isNse.value, false, false, false);
    }
    if IsApplication(target) {
      ExtensionIsNotApplication(target);
      outcome := outcome.(lines := [LogEntry(Info, CheckingEmbeddedLine + target.name)]);
      if HasPhase(target, EmbedAppExtensions) {
        outcome := outcome.(embedsAppExtensions := true);
      } else if HasPhase(target, EmbedFoundationExtensions) {
        outcome := outcome.(embedsFoundationExtensions := true);
      }
    }
  }

  /** `verifyNotificationServiceExtension` (src/checks/ios.ts:52-142): counters and flags updated target by target. */
  method VerifyNotificationServiceExtension(iOSProjectPath: string, readPlist: string -> Option<XmlDocument>, targets: seq<Target>)
    returns (run: CheckRun)
    ensures run == NseRun(iOSProjectPath, readPlist, targets)
  {
    ghost var outcomes := Outcomes(iOSProjectPath, readPlist, targets);
    var log: seq<LogEntry> := [];
    var extensionCount := 0;
    var isEmbedded := false;
    var isFoundationExtension := false;
    for i := 0 to |targets|
      invariant Scanned(outcomes, i) == NseScan(log, TargetScan(extensionCount, isEmbedded, isFoundationExtension), false)
    {
      var outcome := InspectTarget(iOSProjectPath, readPlist, targets, i);
      log := log + outcome.lines;
      extensionCount := if outcome.counted then extensionCount + 1 else extensionCount;
      if outcome.threw {
        ThrownStays(outcomes, i + 1, |targets|);
        return CheckRun(log, true);
      }
      isEmbedded := isEmbedded || outcome.embedsAppExtensions;
      isFoundationExtension := isFoundationExtension || outcome.embedsFoundationExtensions;
    }
    run := Completed(log + VerdictLines(Verdict(TargetScan(extensionCount, isEmbedded, isFoundationExtension))));
  }

  // ---------------------------------------------------------------------------
  // Deployment target

  /**
   * `getDeploymentTargetVersion(pbxProject)` (src/checks/ios.ts:186-228;
   * run-diagnostics.ts:70-101 holds the same code): the first app-extension
   * target in section order, whatever its plist says, and then the first
   * configuration of its list that sets a deployment target.
   */
  method GetDeploymentTargetVersion(project: XcodeProject) returns (r: Eval<Option<string>>)
    ensures r == ProjectDeploymentTarget(project)
  {
    var nativeTargets := project.targets;
    var i := 0;
    while i < |nativeTargets|
      invariant i <= |nativeTargets|
      invariant forall j | 0 <= j < i :: !IsAppExtension(nativeTargets[j])
    {
      var nativeTarget := nativeTargets[i];
      if IsAppExtension(nativeTarget) {
        ProjectDeploymentTargetIgnoresLaterTargets(project, i);
        r := ExtensionTargetVersion(project, nativeTarget);
        return;
      }
      i := i + 1;
    }
    return Returns(None);
  }

  /**
   * What follows the `break` in `getDeploymentTargetVersion`: the
   * configuration list of the app extension found (`configList[...]`
   * throws when it is missing), then the first configuration in section
   * order that is on that list and sets a deployment target.
   */
  method ExtensionTargetVersion(project: XcodeProject, t: Target) returns (r: Eval<Option<string>>)
    requires IsAppExtension(t)
    ensures r == ExtensionDeploymentTarget(project, t)
  {
    if t.buildConfigurationList !in project.configurationLists {
      return Throws;
    }
    var nseBuildConfigKeys := project.configurationLists[t.buildConfigurationList];
    if |nseBuildConfigKeys| > 0 {
      var buildConfig := project.buildConfigurations;
      for k := 0 to |buildConfig|
        invariant forall j | 0 <= j < k :: !Provides(buildConfig[j], nseBuildConfigKeys)
      {
        var config := buildConfig[k];
        var setsTarget := config.id in nseBuildConfigKeys && config.buildSettings.Some?
          && DeploymentTargetSetting in config.buildSettings.value && config.buildSettings.value[DeploymentTargetSetting] != "";
        assert setsTarget == Provides(config, nseBuildConfigKeys);
        if setsTarget {
          FirstProviderWins(buildConfig, nseBuildConfigKeys, k);
          return Returns(Some(config.buildSettings.value[DeploymentTargetSetting]));
        }
      }
    }
    return Returns(None);
  }

  /** `${deploymentTarget}` of a string or of `null`. */
  function NullableText(value: Option<string>): (r: string)
    ensures value.Some? ==> r == value.value
  {
    if value.None? then "null" else value.value
  }

  /** The deployment-target report of one parsed project, which throws when the extension's configuration list is missing. */
  function DeploymentRun(xcodeProject: XcodeProject): (run: CheckRun)
    ensures run.threw <==> ProjectDeploymentTarget(xcodeProject).Throws?
    ensures !run.threw ==> run.log == [LogEntry(Info, DeploymentTargetVersionLine + NullableText(ProjectDeploymentTarget(xcodeProject).value) + DeploymentTargetAdvice)]
  {
    match ProjectDeploymentTarget(xcodeProject)
    case Throws => CheckRun([], true)
    case Returns(deploymentTarget) =>
      Completed([LogEntry(Info, DeploymentTargetVersionLine + NullableText(deploymentTarget) + DeploymentTargetAdvice)])
  }

  /** One pass of `validateDeploymentTarget`'s loop: parse, announce, the NSE check, then the report. */
  function ProjectRun(iOSProjectPath: string, disk: Disk, path: Option<string>): CheckRun {
    match ParseAt(disk, path)
    case None => CheckRun([], true)
    case Some(xcodeProject) =>
      AndThen(Completed([LogEntry(Info, CheckingProjectLine + TextOf(path))]),
              AndThen(NseRun(iOSProjectPath, disk.readPlist, xcodeProject.targets), DeploymentRun(xcodeProject)))
  }

  /** `ProjectRun` as the check applied to each path. */
  function ProjectCheck(iOSProjectPath: string, disk: Disk): Option<string> -> CheckRun {
    path => ProjectRun(iOSProjectPath, disk, path)
  }

  /** A project file whose path cannot be parsed ends the check before anything is logged for it. */
  lemma ProjectRunMeaning(iOSProjectPath: string, disk: Disk, path: Option<string>)
    ensures ParseAt(disk, path).None? ==> ProjectRun(iOSProjectPath, disk, path) == CheckRun([], true)
    ensures ParseAt(disk, path).Some? ==>
      var x := ParseAt(disk, path).value;
      var nse := NseRun(iOSProjectPath, disk.readPlist, x.targets);
      var run := ProjectRun(iOSProjectPath, disk, path);
      && run.log[0] == LogEntry(Info, CheckingProjectLine + TextOf(path))
      && (run.threw <==> nse.threw || ProjectDeploymentTarget(x).Throws?)
      && (!run.threw ==> run.log == [run.log[0]] + nse.log + DeploymentRun(x).log)
  {
  }

  /** The check of one project file (src/checks/ios.ts:30-43). */
  method CheckProjectFile(iOSProjectPath: string, disk: Disk, path: Option<string>) returns (run: CheckRun)
    ensures run == ProjectRun(iOSProjectPath, disk, path)
  {
    var xcodeProject := ParseAt(disk, path);
    if xcodeProject.None? {
      return CheckRun([], true);
    }
    run := Completed([LogEntry(Info, CheckingProjectLine + TextOf(path))]);
    var nse := VerifyNotificationServiceExtension(iOSProjectPath, disk.readPlist, xcodeProject.value.targets);
    run := AndThen(run, nse);
    if run.threw {
      return;
    }
    var deploymentTarget := GetDeploymentTargetVersion(xcodeProject.value);
    if deploymentTarget.Throws? {
      return CheckRun(run.log, true);
    }
    run := AndThen(run, Completed([LogEntry(Info, DeploymentTargetVersionLine + NullableText(deploymentTarget.value) + DeploymentTargetAdvice)]));
  }

  /** `validateDeploymentTarget` (src/checks/ios.ts:28-45): every project file in turn, until one throws. */
  method ValidateDeploymentTarget(iOSProjectPath: string, disk: Disk, paths: seq<Option<string>>) returns (run: CheckRun)
    ensures run == RunEach(paths, ProjectCheck(iOSProjectPath, disk), |paths|)
  {
    run := Completed([]);
    for i := 0 to |paths|
      invariant run == RunEach(paths, ProjectCheck(iOSProjectPath, disk), i) && !run.threw
    {
      var projectRun := CheckProjectFile(iOSProjectPath, disk, paths[i]);
      run := AndThen(run, projectRun);
      if run.threw {
        RunEachStopsAtThrow(paths, ProjectCheck(iOSProjectPath, disk), i + 1, |paths|);
        return;
      }
    }
  }

  // ---------------------------------------------------------------------------
  // The AppDelegate check

  const SwiftTag := "swift"
  const ObjectiveCTag := "Objective-C"
  const ObjectiveCppTag := "Objective-C++"
  const SwiftDelegateSignature := "func userNotificationCenter("

  predicate IsObjectiveC(f: AppDelegateRead) {
    f.extension == Some(ObjectiveCTag) || f.extension == Some(ObjectiveCppTag)
  }

  /** A file that shows the delegate method: Swift text with the signature, or Objective-C text the pattern accepts. */
  predicate Satisfies(f: AppDelegateRead, objcPattern: string -> bool) {
    || (f.extension == Some(SwiftTag) && f.contents.Some? && Contains(f.contents.value, SwiftDelegateSignature))
    || (IsObjectiveC(f) && objcPattern(TextOf(f.contents)))
  }

  /** A Swift file without text: `contents.includes` on undefined throws, if it is reached. */
  predicate Blocks(f: AppDelegateRead) {
    f.extension == Some(SwiftTag) && f.contents.None?
  }

  /** `allRequirementsMet = allRequirementsMet || <test>`: the test is only evaluated while nothing has matched. */
  function DelegateStep(met: bool, f: AppDelegateRead, objcPattern: string -> bool): (r: Eval<bool>)
    ensures r.Throws? <==> !met && Blocks(f)
    ensures r.Returns? ==> (r.value <==> met || Satisfies(f, objcPattern))
  {
    if f.extension == Some(SwiftTag) then
      if met then Returns(true)
      else if f.contents.None? then Throws
      else Returns(Contains(f.contents.value, SwiftDelegateSignature))
    else if IsObjectiveC(f) then Returns(met || objcPattern(TextOf(f.contents)))
    else Returns(met)
  }

  /** The loop's state after some files: lines, the flag, and whether it threw. */
  datatype DelegateScan = DelegateScan(log: seq<LogEntry>, met: bool, threw: bool)

  function DelegateScanned(files: seq<AppDelegateRead>, objcPattern: string -> bool, n: nat): DelegateScan
    requires n <= |files|
  {
    if n == 0 then DelegateScan([], false, false)
    else
      var s := DelegateScanned(files, objcPattern, n - 1);
      if s.threw then s
      else
        var log := s.log + [LogEntry(Info, CheckingAppDelegateLine + TextOf(files[n - 1].path))];
        match DelegateStep(s.met, files[n - 1], objcPattern)
        case Throws => DelegateScan(log, s.met, true)
        case Returns(met) => DelegateScan(log, met, false)
  }

  /** The loop throws exactly at a Swift file without text that comes before every file showing the method. */
  lemma {:induction false} DelegateThrows(files: seq<AppDelegateRead>, objcPattern: string -> bool, n: nat)
    requires n <= |files|
    ensures DelegateScanned(files, objcPattern, n).threw <==>
      exists i | 0 <= i < n :: Blocks(files[i]) && forall j | 0 <= j < i :: !Satisfies(files[j], objcPattern)
    ensures !DelegateScanned(files, objcPattern, n).threw ==>
      (DelegateScanned(files, objcPattern, n).met <==> exists i | 0 <= i < n :: Satisfies(files[i], objcPattern))
  {
    if n > 0 {
      DelegateThrows(files, objcPattern, n - 1);
      var s := DelegateScanned(files, objcPattern, n - 1);
      if s.threw {
        var i :| 0 <= i < n - 1 && Blocks(files[i]) && forall j | 0 <= j < i :: !Satisfies(files[j], objcPattern);
        assert 0 <= i < n;
      } else if DelegateScanned(files, objcPattern, n).threw {
        assert Blocks(files[n - 1]) && forall j | 0 <= j < n - 1 :: !Satisfies(files[j], objcPattern);
      } else {
        forall i | 0 <= i < n && Blocks(files[i]) ensures exists j | 0 <= j < i :: Satisfies(files[j], objcPattern) {
          if i == n - 1 {
            var j :| 0 <= j < n - 1 && Satisfies(files[j], objcPattern);
          }
        }
      }
    }
  }

  /** Until it throws, the loop logs one line per file. */
  lemma {:induction false} DelegateLines(files: seq<AppDelegateRead>, objcPattern: string -> bool, n: nat)
    requires n <= |files| && !DelegateScanned(files, objcPattern, n).threw
    ensures DelegateScanned(files, objcPattern, n).log == Map(files[..n], (f: AppDelegateRead) => LogEntry(Info, CheckingAppDelegateLine + TextOf(f.path)))
  {
    var line := (f: AppDelegateRead) => LogEntry(Info, CheckingAppDelegateLine + TextOf(f.path));
    if n == 0 {
      assert files[..0] == [];
    } else {
      DelegateLines(files, objcPattern, n - 1);
      assert files[..n] == files[..n - 1] + [files[n - 1]];
      MapAppendOne(files[..n - 1], files[n - 1], line);
    }
  }

  function DelegateVerdict(met: bool): (e: LogEntry)
    ensures e.level == (if met then Success else Failure)
  {
    if met then LogEntry(Success, DelegateFoundLine) else LogEntry(Failure, DelegateMissingLine)
  }

  function DelegateRun(files: seq<AppDelegateRead>, objcPattern: string -> bool): CheckRun {
    var s := DelegateScanned(files, objcPattern, |files|);
    if s.threw then CheckRun(s.log, true) else Completed(s.log + [DelegateVerdict(s.met)])
  }

  /**
   * `validateUserNotificationCenterDelegate` (src/checks/ios.ts:230-260):
   * a Swift file must contain the signature text, an Objective-C or
   * Objective-C++ file must satisfy the pattern, other tags are skipped.
   */
  method ValidateUserNotificationCenterDelegate(files: seq<AppDelegateRead>, objcPattern: string -> bool) returns (run: CheckRun)
    ensures run == DelegateRun(files, objcPattern)
  {
    var log: seq<LogEntry> := [];
    var allRequirementsMet := false;
    for i := 0 to |files|
      invariant DelegateScanned(files, objcPattern, i) == DelegateScan(log, allRequirementsMet, false)
    {
      var appDelegateFile := files[i];
      log := log + [LogEntry(Info, CheckingAppDelegateLine + TextOf(appDelegateFile.path))];
      var contents := appDelegateFile.contents;
      match appDelegateFile.extension
      case Some(extension) =>
        if extension == SwiftTag {
          if !allRequirementsMet {
            if contents.None? {
              ThrownStaysDelegate(files, objcPattern, i + 1, |files|);
              return CheckRun(log, true);
            }
            allRequirementsMet := Contains(contents.value, SwiftDelegateSignature);
          }
        } else if extension == ObjectiveCTag || extension == ObjectiveCppTag {
          allRequirementsMet := allRequirementsMet || objcPattern(TextOf(contents));
        }
      case None =>
    }
    run := Completed(log + [DelegateVerdict(allRequirementsMet)]);
  }

  lemma {:induction false} ThrownStaysDelegate(files: seq<AppDelegateRead>, objcPattern: string -> bool, i: nat, n: nat)
    requires i <= n <= |files| && DelegateScanned(files, objcPattern, i).threw
    ensures DelegateScanned(files, objcPattern, n) == DelegateScanned(files, objcPattern, i)
    decreases n - i
  {
    if i < n {
      ThrownStaysDelegate(files, objcPattern, i, n - 1);
    }
  }

  /** The check succeeds exactly when no Swift file without text comes first and some file shows the method. */
  lemma DelegateRunMeaning(files: seq<AppDelegateRead>, objcPattern: string -> bool)
    ensures DelegateRun(files, objcPattern).threw <==>
      exists i | 0 <= i < |files| :: Blocks(files[i]) && forall j | 0 <= j < i :: !Satisfies(files[j], objcPattern)
    ensures !DelegateRun(files, objcPattern).threw ==>
      && |DelegateRun(files, objcPattern).log| == |files| + 1
      && (DelegateRun(files, objcPattern).log[|files|].level == Success <==> exists i | 0 <= i < |files| :: Satisfies(files[i], objcPattern))
  {
    DelegateThrows(files, objcPattern, |files|);
    if !DelegateScanned(files, objcPattern, |files|).threw {
      DelegateLines(files, objcPattern, |files|);
    }
  }

  // ---------------------------------------------------------------------------
  // Push entitlements

  /** Some entitlements file passes the pattern test; a file without text is matched as the text `undefined`. */
  predicate EntitlementFound(files: seq<FileRead>) {
    exists i | 0 <= i < |files| :: HasPushEnvironment(TextOf(files[i].contents))
  }

  function EntitlementsVerdict(allRequirementsMet: bool): (e: LogEntry)
    ensures e.level == (if allRequirementsMet then Success else Failure)
  {
    if allRequirementsMet then LogEntry(Success, PushCapabilityFoundLine) else LogEntry(Failure, PushCapabilityMissingLine)
  }

  function CheckingEntitlements(f: FileRead): LogEntry {
    LogEntry(Info, CheckingEntitlementsLine + TextOf(f.path))
  }

  /**
   * `validatePushEntitlements` (src/checks/ios.ts:262-278): one line per
   * file, then a success exactly when some file that could be read holds
   * the `aps-environment` key.
   */
  method ValidatePushEntitlements(files: seq<FileRead>) returns (log: seq<LogEntry>)
    ensures log == Map(files, CheckingEntitlements) + [EntitlementsVerdict(EntitlementFound(files))]
  {
    log := [];
    var allRequirementsMet := false;
    for i := 0 to |files|
      invariant |log| == i && forall j | 0 <= j < i :: log[j] == CheckingEntitlements(files[j])
      invariant allRequirementsMet == EntitlementFound(files[..i])
    {
      log := log + [CheckingEntitlements(files[i])];
      EntitlementFoundStep(files, i);
      allRequirementsMet := allRequirementsMet || HasPushEnvironment(TextOf(files[i].contents));
    }
    assert files[..|files|] == files;
    assert log == Map(files, CheckingEntitlements);
    log := log + [EntitlementsVerdict(allRequirementsMet)];
  }

  /** One more file found or not: the search over a prefix grows by that file's test. */
  lemma EntitlementFoundStep(files: seq<FileRead>, i: nat)
    requires i < |files|
    ensures EntitlementFound(files[..i + 1]) == (EntitlementFound(files[..i]) || HasPushEnvironment(TextOf(files[i].contents)))
  {
    var prefix := files[..i + 1];
    assert forall j | 0 <= j < i :: prefix[j] == files[..i][j];
    assert prefix[i] == files[i];
  }

  /** The check succeeds exactly when some file that could be read holds the `aps-environment` key; no file means failure. */
  lemma EntitlementFoundMeaning(files: seq<FileRead>)
    ensures EntitlementFound(files) <==>
      exists i | 0 <= i < |files| :: files[i].contents.Some? && HasPushEnvironment(files[i].contents.value)
  {
    UndefinedHasNoPushEnvironment();
    if EntitlementFound(files) {
      var i :| 0 <= i < |files| && HasPushEnvironment(TextOf(files[i].contents));
      assert files[i].contents.Some? && HasPushEnvironment(files[i].contents.value);
    }
  }

  // ---------------------------------------------------------------------------
  // Conflicting pods

  /**
   * `validateNoConflictingSDKs` (src/checks/ios.ts:280-300): a failure
   * without lock-file text, otherwise a success exactly when no listed pod
   * occurs in it.
   */
  function NoConflictingSdksLog(podfileLockPath: Option<string>, podfileLockContent: Option<string>, iosPods: seq<string>): (log: seq<LogEntry>)
    ensures |log| == 2 && log[0] == LogEntry(Info, CheckingConflictsLine + TextOf(podfileLockPath))
    ensures podfileLockContent.None? || podfileLockContent.value == "" ==>
      log[1] == LogEntry(Failure, NoPodfileLockLine + TextOf(podfileLockPath))
    ensures podfileLockContent.Some? && podfileLockContent.value != "" ==>
      && (log[1].level == Success <==> forall pod | pod in iosPods :: !Contains(podfileLockContent.value, pod))
      && (log[1].level == Warning <==> exists pod | pod in iosPods :: Contains(podfileLockContent.value, pod))
  {
    var checking := LogEntry(Info, CheckingConflictsLine + TextOf(podfileLockPath));
    if podfileLockContent.None? || podfileLockContent.value == "" then
      [checking, LogEntry(Failure, NoPodfileLockLine + TextOf(podfileLockPath))]
    else
      var conflictingPods := ConflictingPods(podfileLockContent.value, iosPods);
      if |conflictingPods| == 0 then [checking, LogEntry(Success, NoConflictsLine)]
      else
        assert conflictingPods[0] in conflictingPods;
        [checking, LogEntry(Warning, ConflictsLine)]
  }

  // ---------------------------------------------------------------------------
  // The summary

  const TrackingPod := "CustomerIO/Tracking"
  const InAppPod := "CustomerIO/MessagingInApp"
  const PushApnPod := "CustomerIO/MessagingPushAPN"
  const PushFcmPod := "CustomerIO/MessagingPushFCM"
  const MessagingPushName := "CustomerIO/MessagingPush"

  /** A truthy result: present and not the empty text. */
  predicate Truthy(value: Option<string>) {
    value.Some? && value.value != ""
  }

  /** What `extractPodVersions(text, pattern)` gives for a pod when its pattern starts at the beginning. */
  function PodVersionsOf(text: string, podName: string): Option<string> {
    VersionSummary(Captures(AllMatches(PodMatcher(podName), text, 0)))
  }

  /** The entry for a required pod: its versions, or a failure. */
  function PodSummaryEntry(podName: string, podfileLockPath: string, versions: Option<string>): (e: LogEntry)
    ensures e.level == (if Truthy(versions) then Info else Failure)
  {
    if Truthy(versions) then LogEntry(Info, podName + " version in " + podfileLockPath + " set to " + versions.value)
    else LogEntry(Failure, podName + " not found in Podfile.lock at " + podfileLockPath)
  }

  /** The push entry: both push pods is a failure, one of them its versions, neither a warning. */
  function PushSummaryEntry(podfileLockPath: string, apn: Option<string>, fcm: Option<string>): (e: LogEntry)
    ensures e.level == Failure <==> Truthy(apn) && Truthy(fcm)
    ensures e.level == Info <==> Truthy(apn) != Truthy(fcm)
    ensures e.level == Warning <==> !Truthy(apn) && !Truthy(fcm)
    ensures Truthy(apn) && !Truthy(fcm) ==> e.message == PushApnPod + " version in " + podfileLockPath + " set to " + apn.value
    ensures !Truthy(apn) && Truthy(fcm) ==> e.message == PushFcmPod + " version in " + podfileLockPath + " set to " + fcm.value
  {
    if Truthy(apn) && Truthy(fcm) then
      LogEntry(Failure, PushApnPod + " and " + PushFcmPod + " found in Podfile.lock at " + podfileLockPath
        + ". Both cannot be used at a time, please use only one of them.")
    else if Truthy(apn) then LogEntry(Info, PushApnPod + " version in " + podfileLockPath + " set to " + apn.value)
    else if Truthy(fcm) then LogEntry(Info, PushFcmPod + " version in " + podfileLockPath + " set to " + fcm.value)
    else LogEntry(Warning, MessagingPushName + " not found in Podfile.lock at " + podfileLockPath)
  }

  /** The three entries `collectSummary` adds, for lock-file text `text` (`undefined` when absent). */
  function SummaryEntries(podfileLockPath: string, text: string): seq<LogEntry>
  {
    [PodSummaryEntry(TrackingPod, podfileLockPath, PodVersionsOf(text, TrackingPod)),
     PodSummaryEntry(InAppPod, podfileLockPath, PodVersionsOf(text, InAppPod)),
     PushSummaryEntry(podfileLockPath, PodVersionsOf(text, PushApnPod), PodVersionsOf(text, PushFcmPod))]
  }

  /**
   * The four global pod patterns (src/constants/patterns.ts:18-23): one
   * object each, shared by every call for the whole run.
   */
  class PodPatterns {
    const tracking: GlobalPattern
    const inApp: GlobalPattern
    const pushApn: GlobalPattern
    const pushFcm: GlobalPattern

    /** Each object matches its pod line and is at rest, with `lastIndex` 0. */
    ghost predicate Valid()
      reads this, tracking, inApp, pushApn, pushFcm
    {
      && tracking.matchAt == PodMatcher(TrackingPod) && inApp.matchAt == PodMatcher(InAppPod)
      && pushApn.matchAt == PodMatcher(PushApnPod) && pushFcm.matchAt == PodMatcher(PushFcmPod)
      && tracking.lastIndex == 0 && inApp.lastIndex == 0 && pushApn.lastIndex == 0 && pushFcm.lastIndex == 0
    }

    constructor()
      ensures Valid()
    {
      tracking := new GlobalPattern(PodMatcher(TrackingPod));
      inApp := new GlobalPattern(PodMatcher(InAppPod));
      pushApn := new GlobalPattern(PodMatcher(PushApnPod));
      pushFcm := new GlobalPattern(PodMatcher(PushFcmPod));
    }
  }

  /**
   * `extractPodVersions` on a pattern at rest (src/checks/ios.ts:385-403):
   * the pattern is left at rest, so the next call on the same object gives
   * the same answer.
   */
  method ExtractPodVersions(podfileLockContent: string, podPattern: GlobalPattern, ghost podName: string) returns (r: Option<string>)
    requires podPattern.matchAt == PodMatcher(podName) && podPattern.lastIndex == 0
    modifies podPattern
    ensures r == PodVersionsOf(podfileLockContent, podName)
    ensures r.None? <==> forall p: nat :: PodMatchAt(podfileLockContent, podName, p).None?
    ensures podPattern.lastIndex == 0
  {
    r := ExtractWithPattern(podPattern, podfileLockContent);
    assert forall p: nat :: PodMatcher(podName)(podfileLockContent, p) == PodMatchAt(podfileLockContent, podName, p);
  }

  /**
   * `collectSummary` (src/checks/ios.ts:302-383): exactly three entries
   * pushed, in the order tracking, in-app, push, and nothing removed. A
   * missing lock-file text is scanned as `undefined`, which holds no pod
   * line, so nothing inside the `try` throws.
   */
  method CollectSummary(summary: SummaryLog, patterns: PodPatterns, podfileLockPath: Option<string>, podfileLockContent: Option<string>)
    requires patterns.Valid()
    modifies summary, patterns.tracking, patterns.inApp, patterns.pushApn, patterns.pushFcm
    ensures summary.entries == old(summary.entries) + SummaryEntries(TextOf(podfileLockPath), TextOf(podfileLockContent))
    ensures patterns.Valid()
  {
    var path := TextOf(podfileLockPath);
    var text := TextOf(podfileLockContent);
    ghost var before := summary.entries;
    var trackingPodVersions := ExtractPodVersions(text, patterns.tracking, TrackingPod);
    summary.Push(PodSummaryEntry(TrackingPod, path, trackingPodVersions));
    var inAppMessagingPodVersions := ExtractPodVersions(text, patterns.inApp, InAppPod);
    summary.Push(PodSummaryEntry(InAppPod, path, inAppMessagingPodVersions));
    var messagingPushApnPodVersions := ExtractPodVersions(text, patterns.pushApn, PushApnPod);
    var messagingPushFcmPodVersions := ExtractPodVersions(text, patterns.pushFcm, PushFcmPod);
    summary.Push(PushSummaryEntry(path, messagingPushApnPodVersions, messagingPushFcmPodVersions));
    assert summary.entries == before + SummaryEntries(path, text);
  }

  // ---------------------------------------------------------------------------
  // All checks

  /** The lines of all five checks, each under `runCatching`. */
  function AllChecksLog(inputs: CheckInputs): seq<LogEntry> {
    RunCatching("validateDeploymentTarget",
      RunEach(inputs.projectFilePaths, ProjectCheck(inputs.iOSProjectPath, inputs.disk), |inputs.projectFilePaths|))
    + RunCatching("validateUserNotificationCenterDelegate", DelegateRun(inputs.appDelegateFiles, inputs.objcPattern))
    + Map(inputs.entitlementsFiles, CheckingEntitlements) + [EntitlementsVerdict(EntitlementFound(inputs.entitlementsFiles))]
    + NoConflictingSdksLog(inputs.podfileLockPath, ReadAt(inputs.disk, inputs.podfileLockPath), inputs.iosPods)
  }

  /**
   * The four checks of `runAllChecks` that write to the log
   * (src/checks/ios.ts:21-24), each awaited, an exception in one logged
   * and the next still run.
   */
  method RunLoggedChecks(inputs: CheckInputs) returns (log: seq<LogEntry>)
    ensures log == AllChecksLog(inputs)
  {
    var deployment := ValidateDeploymentTarget(inputs.iOSProjectPath, inputs.disk, inputs.projectFilePaths);
    var delegate := ValidateUserNotificationCenterDelegate(inputs.appDelegateFiles, inputs.objcPattern);
    var entitlements := ValidatePushEntitlements(inputs.entitlementsFiles);
    var conflicts := NoConflictingSdksLog(inputs.podfileLockPath, ReadAt(inputs.disk, inputs.podfileLockPath), inputs.iosPods);
    log := RunCatching("validateDeploymentTarget", deployment)
      + RunCatching("validateUserNotificationCenterDelegate", delegate)
      + entitlements + conflicts;
  }

  /**
   * `runAllChecks` (src/checks/ios.ts:17-26): the four logged checks, then
   * `collectSummary`, which adds its three entries to the summary.
   */
  method RunAllChecks(inputs: CheckInputs, summary: SummaryLog, patterns: PodPatterns) returns (log: seq<LogEntry>)
    requires patterns.Valid()
    modifies summary, patterns.tracking, patterns.inApp, patterns.pushApn, patterns.pushFcm
    ensures log == AllChecksLog(inputs)
    ensures summary.entries == old(summary.entries) + SummaryEntries(TextOf(inputs.podfileLockPath), TextOf(inputs.podfileLockContent))
    ensures patterns.Valid()
  {
    log := RunLoggedChecks(inputs);
    CollectSummary(summary, patterns, inputs.podfileLockPath, inputs.podfileLockContent);
  }

  // ---------------------------------------------------------------------------
  // The undefined paths

  /**
   * As written, the checks never see the project's files: the entitlements
   * check always fails, the conflict check always reports a missing
   * Podfile.lock at `undefined`, the delegate check never succeeds, and the
   * deployment check throws at its first project file.
   */
  lemma AsWrittenIgnoresFiles(p: IosProject, disk: Disk, iosPods: seq<string>, objcPattern: string -> bool)
    requires !objcPattern("undefined")
    ensures var inputs := AsWritten(p, disk, iosPods, objcPattern);
      && !EntitlementFound(inputs.entitlementsFiles)
      && NoConflictingSdksLog(inputs.podfileLockPath, ReadAt(disk, inputs.podfileLockPath), iosPods)[1]
           == LogEntry(Failure, NoPodfileLockLine + "undefined")
      && (forall i | 0 <= i < |inputs.appDelegateFiles| :: !Satisfies(inputs.appDelegateFiles[i], objcPattern))
      && (|p.projectFiles| > 0 ==>
            RunEach(inputs.projectFilePaths, ProjectCheck(p.iOSProjectPath, disk), |p.projectFiles|) == CheckRun([], true))
  {
    var inputs := AsWritten(p, disk, iosPods, objcPattern);
    UndefinedHasNoPushEnvironment();
    assert forall i | 0 <= i < |inputs.entitlementsFiles| :: inputs.entitlementsFiles[i] == FileRead(None, None);
    forall i | 0 <= i < |inputs.appDelegateFiles| ensures !Satisfies(inputs.appDelegateFiles[i], objcPattern) {
      assert inputs.appDelegateFiles[i].contents == None;
    }
    if |p.projectFiles| > 0 {
      var check := ProjectCheck(p.iOSProjectPath, disk);
      assert RunEach(inputs.projectFilePaths, check, 1) == CheckRun([], true);
      RunEachStopsAtThrow(inputs.projectFilePaths, check, 1, |p.projectFiles|);
    }
  }

  /** An entitlements file with the key: found as intended, missed as written. */
  lemma EntitlementsFoundOnlyAsIntended(disk: Disk, path: string)
    requires disk.readFile(path) == Some(KeyOpen + ApsEnvironment + KeyClose)
    ensures var p := IosProject("ios", [], [], [path], "ios/Podfile.lock", None);
      && EntitlementFound(AsIntended(p, disk, [], s => false).entitlementsFiles)
      && !EntitlementFound(AsWritten(p, disk, [], s => false).entitlementsFiles)
  {
    var p := IosProject("ios", [], [], [path], "ios/Podfile.lock", None);
    SpacedKeyIsRecognised("", "");
    assert KeyOpen + "" + ApsEnvironment + "" + KeyClose == KeyOpen + ApsEnvironment + KeyClose;
    assert AsIntended(p, disk, [], s => false).entitlementsFiles[0] == FileRead(Some(path), disk.readFile(path));
    AsWrittenIgnoresFiles(p, disk, [], s => false);
  }
}
