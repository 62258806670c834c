/**
 * The iOS checks of the `doctor` command (src/doctor/checks/ios.ts): the
 * Notification Service Extension (NSE) check, which confirms each app
 * extension through its Info.plist and checks the deployment target of
 * each confirmed one; the push entitlement check; the conflicting-pod
 * check; the pod version report; the two initialization searches; and the
 * dispatch of a check group to these checks.
 *
 * Each check is given what it reads from the project as values. What a
 * check logs is the sequence of its non-debug lines.
 */
module DoctorIos {
  import opened Wrappers
  import opened Strings
  import opened Arrays
  import opened Scan
  import opened FileTree
  import opened Patterns
  import opened Xcode
  import opened Entitlements
  import opened CodeSearch
  import opened PodLock
  import opened Logging
  import opened NseLoop

  // The lines the checks log.
  const DeploymentTargetLine := "Deployment Target for NSE: "
  const InfoPlistFoundLine := "NSE info.plist file found at "
  const NseConfirmedLine := "NSE is embedded in target app: "
  const MultipleNseLine := "Multiple Notification Service Extensions found. Only one should be present."
  const FoundationNseLine := "Notification Service Extension (NSE) found but not embedded as it is a Foundation Extension"
  const NotEmbeddedNseLine := "Notification Service Extension (NSE) found but not embedded"
  const EmbeddedNseLine := "Notification Service Extension (NSE) found"
  const NotEmbeddedNseError := "The Notification Service Extension should be embedded in order to display and track push notifications."
  const NseNotFoundLine := "Notification Service Extension (NSE) not found"
  const NseNotFoundError := "The Notification Service Extension is required in order to display and track push notifications."
  const PushCapabilityFoundLine := "Push notification capability found in entitlements"
  const PushCapabilityMissingLine := "Push notification capability not found in entitlements"
  const PushCapabilityMissingError := "The push notification capability is not enabled in your app."
  const NoPodfileLockLine := "No Podfile.lock found at "
  const NoConflictsLine := "No conflicting pods found"
  const ConflictsLine := "Potential conflicting libraries found."
  const ConflictsAlertStart := "It seems that your app is using multiple push messaging libraries ("
  const ConflictsAlertMiddle := " We're continuing to improve support for multiple libraries, but there are some limitations."
  const ConflictsAlertEnd := " Learn more at: "
  const BothPushPodsLine := " modules found. Both cannot be used at a time, please use only one of them."
  const ModuleNotFoundLine := " module not found"
  const NoPodfileLine := "No Podfile found at "
  const SwiftPackageManagerLine := ". The project appears to be using Swift Package Manager (SPM)."
  const SdkInitializationMissingLine := "iOS SDK Initialization not found"
  const MessagingPushInitializationMissingLine := "MessagingPush Module Initialization not found"
  const SdkInitializationLabel := "iOS SDK Initialization"
  const MessagingPushInitializationLabel := "MessagingPush Initialization"
  const VerboseHint := ". For more details, run the script with the -v flag"

  // ---------------------------------------------------------------------------
  // The Notification Service Extension check

  /**
   * What the NSE check of one Xcode project reads: the parsed project (its
   * native targets are the targets examined), the project path and the iOS
   * project path, and `readAndParseXML`, absent when a file cannot be read
   * or parsed.
   */
  datatype NseContext = NseContext(
    xcodeProject: XcodeProject,
    projectPath: string,
    iOSProjectPath: string,
    readPlist: string -> Option<XmlDocument>)

  const RequiresMinimumDeploymentTarget := "The SDK requires an iOS deployment target of 13 or higher."

  /**
   * The lines about a confirmed NSE's deployment target: a success, or a
   * failure followed by an error. The line shows the number `parseFloat`
   * read, not the setting's text.
   */
  function DeploymentLog(deploymentTarget: Option<string>): (log: seq<LogEntry>)
    ensures |log| >= 1 && log[0].level == DeploymentLevel(deploymentTarget)
    ensures log[0].message == DeploymentTargetLine + ParseFloatText(deploymentTarget)
    ensures LogEntry(Error, RequiresMinimumDeploymentTarget) in log <==> DeploymentLevel(deploymentTarget) == Failure
  {
    var message := DeploymentTargetLine + ParseFloatText(deploymentTarget);
    if DeploymentLevel(deploymentTarget) == Success then [LogEntry(Success, message)]
    else [LogEntry(Failure, message), LogEntry(Error, RequiresMinimumDeploymentTarget)]
  }

  /** A `13.0` setting is a success logged as `13`. */
  lemma DeploymentLogOfThirteen()
    ensures DeploymentLog(Some("13.0")) == [LogEntry(Success, DeploymentTargetLine + "13")]
  {
    NineIsBelowMinimum();
    ParseFloatDropsZeroFraction();
  }

  /** A missing setting is a failure logged as `NaN`, followed by the error. */
  lemma DeploymentLogOfMissing()
    ensures DeploymentLog(None) == [LogEntry(Failure, DeploymentTargetLine + "NaN"), LogEntry(Error, RequiresMinimumDeploymentTarget)]
  {
  }

  /**
   * The body of the loop for an app-extension target: locate and read its
   * Info.plist, and for a confirmed NSE count it and check its deployment
   * target.
   */
  function ExtensionOutcome(ctx: NseContext, t: Target): TargetOutcome {
    match InferredDirectoryName(t)
    case Throws => TargetOutcome([], false, true, false, false)
    case Returns(directoryName) =>
      var infoPlistPath := InfoPlistPath(ctx.iOSProjectPath, directoryName);
      var found := [LogEntry(Success, InfoPlistFoundLine + GetReadablePath(ctx.projectPath, infoPlistPath))];
      var infoPlistContent := ctx.readPlist(infoPlistPath);
      if infoPlistContent.None? || infoPlistContent.value.plist.None? then TargetOutcome(found, false, true, false, false)
      else
        match IsNotificationServiceExtension(infoPlistContent.value.plist.value.dict)
        case Throws => TargetOutcome(found, false, true, false, false)
        case Returns(isNse) =>
          if !isNse then TargetOutcome(found, false, false, false, false)
          else
            var confirmed := found + [LogEntry(Success, NseConfirmedLine + t.name)];
            match ExtensionDeploymentTarget(ctx.xcodeProject, t)
            case Throws => TargetOutcome(confirmed, true, true, false, false)
            case Returns(deploymentTarget) => TargetOutcome(confirmed + DeploymentLog(deploymentTarget), true, false, false, false)
  }

  /** The body of the loop: the app-extension branch, then the `if`/`else if` on an application target's build phases. */
  function OutcomeOf(ctx: NseContext, t: Target): TargetOutcome {
    var o := if IsAppExtension(t) then ExtensionOutcome(ctx, t) else TargetOutcome([], false, false, false, false);
    if !IsApplication(t) then o
    else if HasPhase(t, EmbedAppExtensions) then o.(embedsAppExtensions := true)
    else if HasPhase(t, EmbedFoundationExtensions) then o.(embedsFoundationExtensions := true)
    else o
  }

  /** The outcome of every target, in section order. */
  function Outcomes(ctx: NseContext, targets: seq<Target>): (r: seq<TargetOutcome>)
    ensures |r| == |targets|
  {
    if |targets| == 0 then [] else Outcomes(ctx, targets[..|targets| - 1]) + [OutcomeOf(ctx, targets[|targets| - 1])]
  }

  /** The outcome at each index is the outcome of the target at that index. */
  lemma {:induction false} OutcomeAt(ctx: NseContext, targets: seq<Target>, i: nat)
    requires i < |targets|
    ensures Outcomes(ctx, targets)[i] == OutcomeOf(ctx, targets[i])
  {
    if i < |targets| - 1 {
      OutcomeAt(ctx, targets[..|targets| - 1], i);
    }
  }

  /** A target on which the loop throws: its plist cannot be examined, or it is a confirmed NSE whose configuration list is missing. */
  predicate Fails(ctx: NseContext, t: Target) {
    || ConfirmThrows(t, ctx.iOSProjectPath, ctx.readPlist)
    || (IsConfirmedNse(ctx.iOSProjectPath, ctx.readPlist)(t) && ExtensionDeploymentTarget(ctx.xcodeProject, t).Throws?)
  }

  /** What an outcome should say about a target's plist, stated without the loop body: it throws exactly when the target fails, and counts it exactly when its plist confirms an NSE. */
  predicate PlistAgrees(ctx: NseContext, t: Target, o: TargetOutcome) {
    && (o.threw <==> Fails(ctx, t))
    && (!o.threw ==> (o.counted <==> IsConfirmedNse(ctx.iOSProjectPath, ctx.readPlist)(t)))
  }

  /** A target throws exactly when it fails, and is counted, when it does not throw, exactly when its plist confirms an NSE. */
  lemma OutcomeMeaning(ctx: NseContext, t: Target)
    ensures PlistAgrees(ctx, t, OutcomeOf(ctx, t))
  {
  }

  /** An app-extension target sets neither flag. */
  lemma ExtensionSetsNoFlag(ctx: NseContext, t: Target)
    ensures !ExtensionOutcome(ctx, t).embedsAppExtensions && !ExtensionOutcome(ctx, t).embedsFoundationExtensions
  {
    match InferredDirectoryName(t)
    case Throws =>
    case Returns(directoryName) =>
      var infoPlistContent := ctx.readPlist(InfoPlistPath(ctx.iOSProjectPath, directoryName));
      if infoPlistContent.Some? && infoPlistContent.value.plist.Some? {
        match IsNotificationServiceExtension(infoPlistContent.value.plist.value.dict)
        case Throws =>
        case Returns(isNse) =>
          if isNse {
            match ExtensionDeploymentTarget(ctx.xcodeProject, t)
            case Throws =>
            case Returns(_) =>
          }
      }
  }

  /** A target sets a flag exactly when it is an application target with the matching phase. */
  lemma OutcomePhases(ctx: NseContext, t: Target)
    ensures PhasesAgree(t, OutcomeOf(ctx, t))
  {
    ExtensionSetsNoFlag(ctx, t);
  }

  /** `OutcomeMeaning` and `OutcomePhases` for every target of the project. */
  lemma OutcomesMeaning(ctx: NseContext, targets: seq<Target>)
    ensures forall i | 0 <= i < |targets| ::
      PlistAgrees(ctx, targets[i], Outcomes(ctx, targets)[i]) && PhasesAgree(targets[i], Outcomes(ctx, targets)[i])
  {
    forall i | 0 <= i < |targets|
      ensures PlistAgrees(ctx, targets[i], Outcomes(ctx, targets)[i]) && PhasesAgree(targets[i], Outcomes(ctx, targets)[i])
    {
      OutcomeAt(ctx, targets, i);
      OutcomeMeaning(ctx, targets[i]);
      OutcomePhases(ctx, targets[i]);
    }
  }

  /** The lines the verdict logs: the first at the verdict's level, and an error line after every failure but the first. */
  function VerdictLog(v: NseVerdict): (log: seq<LogEntry>)
    ensures |log| >= 1 && log[0].level == VerdictLevel(v, Success)
    ensures |log| == 2 <==> v == FoundNotEmbedded || v == NotFound
  {
    match v
    case MultipleFound =>
      [LogEntry(Failure, MultipleNseLine)]
    case FoundEmbedded =>
      [LogEntry(Success, EmbeddedNseLine)]
    case FoundAsFoundationExtension =>
      [LogEntry(Success, FoundationNseLine)]
    case FoundNotEmbedded =>
      [LogEntry(Failure, NotEmbeddedNseLine),
       LogEntry(Error, NotEmbeddedNseError)]
    case NotFound =>
      [LogEntry(Failure, NseNotFoundLine),
       LogEntry(Error, NseNotFoundError)]
  }

  /** `validateNotificationServiceExtension` as a whole: the loop, then the verdict unless the loop threw. */
  function NseRun(ctx: NseContext): CheckRun {
    var targets := ctx.xcodeProject.targets;
    var s := Scanned(Outcomes(ctx, targets), |targets|);
    if s.threw then CheckRun(s.log, true) else Completed(s.log + VerdictLog(Verdict(s.scan)))
  }

  /**
   * `validateNotificationServiceExtension` throws exactly when some target
   * fails; otherwise its verdict is the one for the number of
   * plist-confirmed NSEs and the embedding phases of the application
   * targets, logged after the per-extension lines.
   */
  lemma NseRunMeaning(ctx: NseContext)
    ensures var targets := ctx.xcodeProject.targets;
      NseRun(ctx).threw <==> exists i | 0 <= i < |targets| :: Fails(ctx, targets[i])
    ensures var targets := ctx.xcodeProject.targets;
      var before := Scanned(Outcomes(ctx, targets), |targets|).log;
      var v := Verdict(TargetScan(|Filter(targets, IsConfirmedNse(ctx.iOSProjectPath, ctx.readPlist))|, Embedded(targets), FoundationEmbedded(targets)));
      !NseRun(ctx).threw ==> NseRun(ctx).log == before + VerdictLog(v) && NseRun(ctx).log[|before|].level == VerdictLevel(v, Success)
  {
    var targets := ctx.xcodeProject.targets;
    OutcomesMeaning(ctx, targets);
    ScanMeaning(ctx, targets, Outcomes(ctx, targets));
  }

  /** The loop over outcomes that agree with their targets throws exactly when a target fails, and otherwise ends with the count and flags the targets call for. */
  lemma ScanMeaning(ctx: NseContext, targets: seq<Target>, outcomes: seq<TargetOutcome>)
    requires |outcomes| == |targets|
    requires forall i | 0 <= i < |targets| :: PlistAgrees(ctx, targets[i], outcomes[i]) && PhasesAgree(targets[i], outcomes[i])
    ensures Scanned(outcomes, |targets|).threw <==> exists i | 0 <= i < |targets| :: Fails(ctx, targets[i])
    ensures !Scanned(outcomes, |targets|).threw ==>
      Scanned(outcomes, |targets|).scan == TargetScan(|Filter(targets, IsConfirmedNse(ctx.iOSProjectPath, ctx.readPlist))|, Embedded(targets), FoundationEmbedded(targets))
  {
    ScannedThrows(outcomes, |targets|);
    if !Scanned(outcomes, |targets|).threw {
      ScanResult(targets, outcomes, IsConfirmedNse(ctx.iOSProjectPath, ctx.readPlist));
    }
  }

  /**
   * `getDeploymentTargetVersion(project, target)`: none unless the target
   * is an app extension; otherwise the deployment target of the first
   * build configuration, in section order, of the target's configuration
   * list that sets one.
   */
  method GetDeploymentTargetVersion(project: XcodeProject, t: Target) returns (r: Eval<Option<string>>)
    ensures r == ExtensionDeploymentTarget(project, t)
  {
    var nseBuildConfigKeys: seq<string> := [];
    if IsAppExtension(t) {
      if t.buildConfigurationList !in project.configurationLists {
        return Throws;
      }
      nseBuildConfigKeys := project.configurationLists[t.buildConfigurationList];
    }
    if |nseBuildConfigKeys| > 0 {
      var buildConfig := project.buildConfigurations;
      for i := 0 to |buildConfig|
        invariant forall j | 0 <= j < i :: !Provides(buildConfig[j], nseBuildConfigKeys)
      {
        var config := buildConfig[i];
        var setsTarget := config.id in nseBuildConfigKeys && config.buildSettings.Some?
          && DeploymentTargetSetting in config.buildSettings.value && config.buildSettings.value[DeploymentTargetSetting] != "";
        assert setsTarget == Provides(config, nseBuildConfigKeys);
        if setsTarget {
          FirstProviderWins(buildConfig, nseBuildConfigKeys, i);
          return Returns(Some(config.buildSettings.value[DeploymentTargetSetting]));
        }
      }
    }
    return Returns(None);
  }

  /**
   * The body of the loop for an app-extension target
   * (src/doctor/checks/ios.ts:91-129), where an exception ends the loop.
   */
  method InspectExtension(ctx: NseContext, target: Target) returns (outcome: TargetOutcome)
    ensures outcome == ExtensionOutcome(ctx, target)
  {
    var inferredDirectoryName := InferredDirectoryName(target);
    if inferredDirectoryName.Throws? {
      return TargetOutcome([], false, true, false, false);
    }
    var infoPlistPath := InfoPlistPath(ctx.iOSProjectPath, inferredDirectoryName.value);
    var log := [LogEntry(Success, InfoPlistFoundLine + GetReadablePath(ctx.projectPath, infoPlistPath))];
    var infoPlistContent := ctx.readPlist(infoPlistPath);
    if infoPlistContent.None? || infoPlistContent.value.plist.None? {
      return TargetOutcome(log, false, true, false, false);
    }
    var isNse := IsNotificationServiceExtension(infoPlistContent.value.plist.value.dict);
    if isNse.Throws? {
      return TargetOutcome(log, false, true, false, false);
    }
    if !isNse.value {
      return TargetOutcome(log, false, false, false, false);
    }
    log := log + [LogEntry(Success, NseConfirmedLine + target.name)];
    var deploymentTargetString := GetDeploymentTargetVersion(ctx.xcodeProject, target);
    if deploymentTargetString.Throws? {
      return TargetOutcome(log, true, true, false, false);
    }
    outcome := TargetOutcome(log + DeploymentLog(deploymentTargetString.value), true, false, false, false);
  }

  /**
   * The body of the loop for one target (src/doctor/checks/ios.ts:88-168):
   * the app-extension branch, then the build phases of an application
   * target.
   */
  method InspectTarget(ctx: NseContext, i: nat) returns (outcome: TargetOutcome)
    requires i < |ctx.xcodeProject.targets|
    ensures outcome == Outcomes(ctx, ctx.xcodeProject.targets)[i]
  {
    OutcomeAt(ctx, ctx.xcodeProject.targets, i);
    var target := ctx.xcodeProject.targets[i];
    outcome := TargetOutcome([], false, false, false, false);
    if IsAppExtension(target) {
      outcome := InspectExtension(ctx, target);
    }
    if IsApplication(target) {
      if HasPhase(target, EmbedAppExtensions) {
        outcome := outcome.(embedsAppExtensions := true);
      } else if HasPhase(target, EmbedFoundationExtensions) {
        outcome := outcome.(embedsFoundationExtensions := true);
      }
    }
  }

  /** The loop of `validateNotificationServiceExtension` (src/doctor/checks/ios.ts:64-186). */
  method ValidateNotificationServiceExtension(ctx: NseContext) returns (run: CheckRun)
    ensures run == NseRun(ctx)
  {
    var targets := ctx.xcodeProject.targets;
    ghost var outcomes := Outcomes(ctx, targets);
    var log: seq<LogEntry> := [];
    var extensionCount := 0;
    var isEmbedded := false;
    var isFoundationExtension := false;
    for i := 0 to |targets|
      invariant Scanned(outcomes, i) == NseScan(log, TargetScan(extensionCount, isEmbedded, isFoundationExtension), false)
    {
      var outcome := InspectTarget(ctx, i);
      log := log + outcome.lines;
      extensionCount := if outcome.counted then extensionCount + 1 else extensionCount;
      if outcome.threw {
        ThrownStays(outcomes, i + 1, |targets|);
        return CheckRun(log, true);
      }
      isEmbedded := isEmbedded || outcome.embedsAppExtensions;
      isFoundationExtension := isFoundationExtension || outcome.embedsFoundationExtensions;
    }
    run := Completed(log + VerdictLog(Verdict(TargetScan(extensionCount, isEmbedded, isFoundationExtension))));
  }

  /** `analyzeNotificationServiceExtensionProperties` (src/doctor/checks/ios.ts:48-57): the NSE check of each project file in turn. */
  method AnalyzeNotificationServiceExtensionProperties(projects: seq<NseContext>) returns (run: CheckRun)
    ensures run == RunEach(projects, NseRun, |projects|)
  {
    run := Completed([]);
    for i := 0 to |projects|
      invariant run == RunEach(projects, NseRun, i) && !run.threw
    {
      var projectRun := ValidateNotificationServiceExtension(projects[i]);
      run := AndThen(run, projectRun);
      if run.threw {
        RunEachStopsAtThrow(projects, NseRun, i + 1, |projects|);
        return;
      }
    }
  }

  // ---------------------------------------------------------------------------
  // Push entitlements

  /** Some entitlements file passes the pattern test; a file without content is matched as the text `undefined`. */
  predicate PushCapabilityFound(contents: seq<Option<string>>) {
    exists i | 0 <= i < |contents| :: HasPushEnvironment(TextOf(contents[i]))
  }

  function EntitlementsLog(allRequirementsMet: bool): (log: seq<LogEntry>)
    ensures |log| >= 1 && (log[0].level == Success <==> allRequirementsMet)
  {
    if allRequirementsMet then [LogEntry(Success, PushCapabilityFoundLine)]
    else [LogEntry(Failure, PushCapabilityMissingLine),
          LogEntry(Error, PushCapabilityMissingError)]
  }

  /** `validatePushEntitlements` (src/doctor/checks/ios.ts:369-389): the `||` of the pattern tests over the entitlements files. */
  method ValidatePushEntitlements(contents: seq<Option<string>>) returns (log: seq<LogEntry>)
    ensures log == EntitlementsLog(PushCapabilityFound(contents))
  {
    var allRequirementsMet := false;
    for i := 0 to |contents|
      invariant allRequirementsMet == PushCapabilityFound(contents[..i])
    {
      PushCapabilityFoundStep(contents, i);
      allRequirementsMet := allRequirementsMet || HasPushEnvironment(TextOf(contents[i]));
    }
    assert contents[..|contents|] == contents;
    log := EntitlementsLog(allRequirementsMet);
  }

  /** One more file found or not: the search over a prefix grows by that file's test. */
  lemma PushCapabilityFoundStep(contents: seq<Option<string>>, i: nat)
    requires i < |contents|
    ensures PushCapabilityFound(contents[..i + 1]) == (PushCapabilityFound(contents[..i]) || HasPushEnvironment(TextOf(contents[i])))
  {
    var prefix := contents[..i + 1];
    assert forall j | 0 <= j < i :: prefix[j] == contents[..i][j];
    assert prefix[i] == contents[i];
  }

  /** The check succeeds exactly when some entitlements file was read and matches the pattern; an empty list fails. */
  lemma PushCapabilityMeaning(contents: seq<Option<string>>)
    ensures PushCapabilityFound(contents) <==>
      exists i | 0 <= i < |contents| :: contents[i].Some? && HasPushEnvironment(contents[i].value)
  {
    UndefinedHasNoPushEnvironment();
    if PushCapabilityFound(contents) {
      var i :| 0 <= i < |contents| && HasPushEnvironment(TextOf(contents[i]));
      assert contents[i].Some? && HasPushEnvironment(contents[i].value);
    }
  }

  // ---------------------------------------------------------------------------
  // Conflicting pods

  /**
   * `validateNoConflictingSDKs` (src/doctor/checks/ios.ts:391-420): nothing
   * without CocoaPods, an error without Podfile.lock content, otherwise a
   * success exactly when no listed pod occurs in the lock file. The
   * conflicting-pod list and the documentation link are parameters.
   */
  function ValidateNoConflictingSdks(isUsingCocoaPods: bool, podfileLockPath: string, podfileLockContent: Option<string>,
                                     iosPods: seq<string>, multiplePushProviders: string): (log: seq<LogEntry>)
    ensures !isUsingCocoaPods ==> log == []
    ensures isUsingCocoaPods && (podfileLockContent.None? || podfileLockContent.value == "") ==>
      log == [LogEntry(Error, NoPodfileLockLine + podfileLockPath)]
    ensures isUsingCocoaPods && podfileLockContent.Some? && podfileLockContent.value != "" ==>
      |log| >= 1 && (log[0].level == Success <==> forall pod | pod in iosPods :: !Contains(podfileLockContent.value, pod))
  {
    if !isUsingCocoaPods then []
    else if podfileLockContent.None? || podfileLockContent.value == "" then
      [LogEntry(Error, NoPodfileLockLine + podfileLockPath)]
    else
      var conflictingPods := ConflictingPods(podfileLockContent.value, iosPods);
      if |conflictingPods| == 0 then [LogEntry(Success, NoConflictsLine)]
      else
        assert conflictingPods[0] in conflictingPods;
        [LogEntry(Warning, ConflictsLine),
         LogEntry(Alert, ConflictsAlertStart + Join(conflictingPods, ",") + ")."
           + ConflictsAlertMiddle
           + ConflictsAlertEnd + multiplePushProviders)]
  }

  // ---------------------------------------------------------------------------
  // Pod versions

  const PodTracking := "CustomerIOTracking"
  const PodMessagingInApp := "CustomerIOMessagingInApp"
  const PodMessagingPushApn := "CustomerIOMessagingPushAPN"
  const PodMessagingPushFcm := "CustomerIOMessagingPushFCM"
  const BothPushPodsMessage := PodMessagingPushApn + " and " + PodMessagingPushFcm
    + BothPushPodsLine

  /**
   * `podVersions` inside `validatePod`: the extractor's result when the
   * lock file has content, undefined otherwise; undefined exactly when no
   * pod line for the pod occurs.
   */
  function PodVersions(podfileLockContent: Option<string>, podName: string): (r: Option<string>)
    ensures r.None? <==> podfileLockContent.None? || podfileLockContent.value == ""
                         || forall p: nat :: PodMatchAt(podfileLockContent.value, podName, p).None?
  {
    if podfileLockContent.Some? && podfileLockContent.value != "" then
      assert forall p: nat :: PodMatcher(podName)(podfileLockContent.value, p) == PodMatchAt(podfileLockContent.value, podName, p);
      VersionSummary(Captures(AllMatches(PodMatcher(podName), podfileLockContent.value, 0)))
    else None
  }

  /** The line `validatePod` logs: the versions when they are a non-empty text, otherwise a failure unless the pod is optional. */
  function PodEntry(podName: string, podVersions: Option<string>, optional: bool): (log: seq<LogEntry>)
    ensures |log| <= 1
    ensures log == [] <==> optional && (podVersions.None? || podVersions.value == "")
    ensures podVersions.Some? && podVersions.value != "" ==> log == [LogEntry(Success, podName + ": " + podVersions.value)]
    ensures forall e | e in log :: e.level != Error
  {
    if podVersions.Some? && podVersions.value != "" then [LogEntry(Success, podName + ": " + podVersions.value)]
    else if !optional then [LogEntry(Failure, podName + ModuleNotFoundLine)]
    else []
  }

  /** `validatePod(podName, optional)`: whether the pod was found, and its line. */
  method ValidatePod(podfileLockContent: Option<string>, podName: string, optional: bool) returns (found: bool, log: seq<LogEntry>)
    ensures found <==> PodVersions(podfileLockContent, podName).Some?
    ensures log == PodEntry(podName, PodVersions(podfileLockContent, podName), optional)
  {
    var podVersions: Option<string> := None;
    if podfileLockContent.Some? && podfileLockContent.value != "" {
      podVersions := ExtractVersionFromPodLock(podfileLockContent.value, podName);
    }
    if podVersions.Some? && podVersions.value != "" {
      log := [LogEntry(Success, podName + ": " + podVersions.value)];
    } else if !optional {
      log := [LogEntry(Failure, podName + ModuleNotFoundLine)];
    } else {
      log := [];
    }
    found := podVersions.Some?;
  }

  /** The lines of `extractPodVersions`: tracking and in-app are required, the two push pods optional but exclusive. */
  function PodVersionsLog(podfileLockContent: Option<string>): seq<LogEntry> {
    var apn := PodVersions(podfileLockContent, PodMessagingPushApn);
    var fcm := PodVersions(podfileLockContent, PodMessagingPushFcm);
    PodEntry(PodTracking, PodVersions(podfileLockContent, PodTracking), false)
      + PodEntry(PodMessagingInApp, PodVersions(podfileLockContent, PodMessagingInApp), false)
      + PodEntry(PodMessagingPushApn, apn, true)
      + PodEntry(PodMessagingPushFcm, fcm, true)
      + (if apn.Some? && fcm.Some? then [LogEntry(Error, BothPushPodsMessage)] else [])
  }

  /** `extractPodVersions` (src/doctor/checks/ios.ts:432-461). */
  method ExtractPodVersions(podfileLockContent: Option<string>) returns (log: seq<LogEntry>)
    ensures log == PodVersionsLog(podfileLockContent)
  {
    var _, tracking := ValidatePod(podfileLockContent, PodTracking, false);
    var _, inApp := ValidatePod(podfileLockContent, PodMessagingInApp, false);
    var pushMessagingApnPod, apn := ValidatePod(podfileLockContent, PodMessagingPushApn, true);
    var pushMessagingFcmPod, fcm := ValidatePod(podfileLockContent, PodMessagingPushFcm, true);
    log := tracking + inApp + apn + fcm;
    if pushMessagingApnPod && pushMessagingFcmPod {
      log := log + [LogEntry(Error, BothPushPodsMessage)];
    }
  }

  /**
   * The report has an error line exactly when both push pods have a pod
   * line in the lock file, and a failure for a required pod exactly when
   * that pod has no version to show.
   */
  lemma PodVersionsLogMeaning(podfileLockContent: Option<string>)
    ensures LogEntry(Error, BothPushPodsMessage) in PodVersionsLog(podfileLockContent) <==>
      && podfileLockContent.Some? && podfileLockContent.value != ""
      && (exists p: nat :: PodMatchAt(podfileLockContent.value, PodMessagingPushApn, p).Some?)
      && (exists p: nat :: PodMatchAt(podfileLockContent.value, PodMessagingPushFcm, p).Some?)
    ensures var tracking := PodVersions(podfileLockContent, PodTracking);
      PodVersionsLog(podfileLockContent)[0] == (
        if tracking.Some? && tracking.value != "" then LogEntry(Success, PodTracking + ": " + tracking.value)
        else LogEntry(Failure, PodTracking + ModuleNotFoundLine))
  {
    var log := PodVersionsLog(podfileLockContent);
    var apn := PodVersions(podfileLockContent, PodMessagingPushApn);
    var fcm := PodVersions(podfileLockContent, PodMessagingPushFcm);
    var entries := PodEntry(PodTracking, PodVersions(podfileLockContent, PodTracking), false)
      + PodEntry(PodMessagingInApp, PodVersions(podfileLockContent, PodMessagingInApp), false)
      + PodEntry(PodMessagingPushApn, apn, true)
      + PodEntry(PodMessagingPushFcm, fcm, true);
    assert forall e | e in entries :: e.level != Error;
  }

  /** The lines of `validateDependencies`: the pod report with CocoaPods, a warning without. */
  function DependenciesLog(isUsingCocoaPods: bool, podfilePath: string, podfileLockContent: Option<string>): seq<LogEntry> {
    if isUsingCocoaPods then PodVersionsLog(podfileLockContent)
    else [LogEntry(Warning, NoPodfileLine + podfilePath + SwiftPackageManagerLine)]
  }

  /** `validateDependencies` (src/doctor/checks/ios.ts:422-430); `extractPodVersions` never throws here. */
  method ValidateDependencies(isUsingCocoaPods: bool, podfilePath: string, podfileLockContent: Option<string>) returns (log: seq<LogEntry>)
    ensures log == DependenciesLog(isUsingCocoaPods, podfilePath, podfileLockContent)
  {
    if isUsingCocoaPods {
      var run := ExtractPodVersions(podfileLockContent);
      log := RunCatching("extractPodVersions", Completed(run));
    } else {
      log := [LogEntry(Warning, NoPodfileLine + podfilePath + SwiftPackageManagerLine)];
    }
  }

  // ---------------------------------------------------------------------------
  // Initialization searches

  const SdkInitializationCall := "CustomerIO.initialize"
  const MessagingPushPrefix := "MessagingPush"
  const InitializeSuffix := ".initialize"

  /** `\w`: ASCII letters, digits and `_`. */
  predicate IsWordChar(c: char) {
    ('a' <= c <= 'z') || ('A' <= c <= 'Z') || ('0' <= c <= '9') || c == '_'
  }

  /** `/MessagingPush\w*\.initialize/` matched at `i`, with the word characters ending at `j`. */
  ghost predicate ModuleInitializationMatchesAt(s: string, i: nat, j: nat) {
    i + |MessagingPushPrefix| <= j && OccursAt(s, MessagingPushPrefix, i) && OccursAt(s, InitializeSuffix, j)
    && forall p | i + |MessagingPushPrefix| <= p < j :: IsWordChar(s[p])
  }

  /** The scanner at `i`: the prefix, the whole run of word characters (`.` is not one), the suffix. */
  predicate ModuleInitializationAt(s: string, i: nat) {
    OccursAt(s, MessagingPushPrefix, i) && OccursAt(s, InitializeSuffix, SkipWhile(s, i + |MessagingPushPrefix|, IsWordChar))
  }

  function ModuleInitializationFrom(s: string, from: nat): (b: bool)
    ensures b <==> exists i: nat | from <= i <= |s| :: ModuleInitializationAt(s, i)
    decreases |s| + 1 - from
  {
    if from > |s| then false
    else ModuleInitializationAt(s, from) || ModuleInitializationFrom(s, from + 1)
  }

  /** `/MessagingPush\w*\.initialize/.test(s)`. */
  function HasModuleInitialization(s: string): (b: bool)
    ensures b ==> Contains(s, InitializeSuffix)
  {
    ModuleInitializationFrom(s, 0)
  }

  /** The scanner agrees with the regular expression on every text. */
  lemma HasModuleInitializationMeaning(s: string)
    ensures HasModuleInitialization(s) <==> exists i: nat, j: nat :: ModuleInitializationMatchesAt(s, i, j)
  {
    if HasModuleInitialization(s) {
      var i: nat :| i <= |s| && ModuleInitializationAt(s, i);
      var j := SkipWhile(s, i + |MessagingPushPrefix|, IsWordChar);
      assert ModuleInitializationMatchesAt(s, i, j);
    }
    if i: nat, j: nat :| ModuleInitializationMatchesAt(s, i, j) {
      assert s[j] == InitializeSuffix[0];
      SkipWhileStopsAt(s, i + |MessagingPushPrefix|, j, IsWordChar);
      assert ModuleInitializationAt(s, i);
    }
  }

  /** `MessagingPush.initialize`, `MessagingPushAPN.initialize` and `MessagingPushFCM.initialize` are all recognised. */
  lemma ModuleInitializationVariants(moduleName: string)
    requires forall p | 0 <= p < |moduleName| :: IsWordChar(moduleName[p])
    ensures HasModuleInitialization(MessagingPushPrefix + moduleName + InitializeSuffix)
  {
    var s := MessagingPushPrefix + moduleName + InitializeSuffix;
    var j := |MessagingPushPrefix| + |moduleName|;
    assert s[0..|MessagingPushPrefix|] == MessagingPushPrefix;
    assert s[j..j + |InitializeSuffix|] == InitializeSuffix;
    forall p | |MessagingPushPrefix| <= p < j ensures IsWordChar(s[p]) {
      assert s[p] == moduleName[p - |MessagingPushPrefix|];
    }
    assert ModuleInitializationMatchesAt(s, 0, j);
    HasModuleInitializationMeaning(s);
  }

  datatype InitializationKind = SdkInitialization | MessagingPushInitialization

  /** The code pattern each search uses. */
  function CodePatternOf(kind: InitializationKind): string -> bool {
    match kind
    case SdkInitialization => (s: string) => Contains(s, SdkInitializationCall)
    case MessagingPushInitialization => (s: string) => HasModuleInitialization(s)
  }

  /**
   * The search configuration both checks use: Swift, Objective-C and
   * Objective-C++ sources, `Images.xcassets` ignored, files named
   * `AppDelegate` or mentioning one of four keywords.
   */
  function InitializationConfig(kind: InitializationKind, shouldIgnore: string -> bool): (config: CodeSearchConfig)
    ensures TargetExtensions(config) == [".swift", ".m", ".mm"]
    ensures config.targetFileNames == ["AppDelegate"] && |config.targetFilePatterns| == 4
  {
    var pattern := CodePatternOf(kind);
    var config := CodeSearchConfig(
      [ExtensionCodePattern(".swift", pattern), ExtensionCodePattern(".m", pattern), ExtensionCodePattern(".mm", pattern)],
      ["Images.xcassets"],
      shouldIgnore,
      ["AppDelegate"],
      ["cio", "customerio", "notification", "push"]);
    assert TargetExtensions(config) == [".swift", ".m", ".mm"];
    config
  }

  /** The line a search logs: where the call was found, or that it was not. */
  function InitializationLog(kind: InitializationKind, matchedFiles: seq<string>, config: CodeSearchConfig, verbose: bool): (log: seq<LogEntry>)
    ensures |log| == 1 && (log[0].level == Success <==> |matchedFiles| > 0)
  {
    var foundLabel := if kind == SdkInitialization then SdkInitializationLabel else MessagingPushInitializationLabel;
    var missing := if kind == SdkInitialization then SdkInitializationMissingLine else MessagingPushInitializationMissingLine;
    var formatted := FormattedMatchedFiles(CodeSearchResult(matchedFiles, [], config));
    if formatted.Some? then [LogEntry(Success, foundLabel + " found in " + formatted.value)]
    else if verbose then [LogEntry(Failure, missing)]
    else [LogEntry(Failure, missing + VerboseHint)]
  }

  /**
   * `validateSDKInitialization` (src/doctor/checks/ios.ts:326-367) and
   * `validateMessagingPushInitialization` (277-324): a code search of the
   * iOS project directory, reading extensions with `path.extname`.
   */
  method ValidateInitialization(kind: InitializationKind, shouldIgnore: string -> bool, projectPath: string,
                                iOSProjectPath: string, iOSProjectRoot: Node, verbose: bool) returns (log: seq<LogEntry>)
    ensures var config := InitializationConfig(kind, shouldIgnore);
      log == InitializationLog(kind, Visit(config, ExtnameReader(), projectPath, iOSProjectPath, iOSProjectRoot).matched, config, verbose)
  {
    var config := InitializationConfig(kind, shouldIgnore);
    var result := SearchFilesForCode(config, ExtnameReader(), projectPath, iOSProjectPath, iOSProjectRoot);
    assert FormattedMatchedFiles(result) == FormattedMatchedFiles(CodeSearchResult(result.matchedFiles, [], config));
    log := InitializationLog(kind, result.matchedFiles, config, verbose);
  }

  /** Every file the search reports as a match is also among the files it searched. */
  lemma InitializationFoundOnlyInSearchedFiles(kind: InitializationKind, shouldIgnore: string -> bool, projectPath: string,
                                               iOSProjectPath: string, iOSProjectRoot: Node)
    ensures var found := Visit(InitializationConfig(kind, shouldIgnore), ExtnameReader(), projectPath, iOSProjectPath, iOSProjectRoot);
      forall p | p in found.matched :: p in found.searched
  {
    MatchedAreSearched(InitializationConfig(kind, shouldIgnore), ExtnameReader(), projectPath, iOSProjectPath, iOSProjectRoot);
  }

  // ---------------------------------------------------------------------------
  // Check groups

  datatype CheckGroup = Diagnostics | Initialization | PushSetup | Dependencies

  /** What the iOS checks read from the project. */
  datatype DoctorIosProject = DoctorIosProject(
    projectPath: string,
    iOSProjectPath: string,
    iOSProjectRoot: Node,
    projectFiles: seq<NseContext>,
    entitlementsContents: seq<Option<string>>,
    isUsingCocoaPods: bool,
    podfilePath: string,
    podfileLockPath: string,
    podfileLockContent: Option<string>,
    iosPods: seq<string>,
    multiplePushProviders: string,
    shouldIgnore: string -> bool)

  /** The lines of one initialization search of the project. */
  function InitializationLogOf(kind: InitializationKind, project: DoctorIosProject, verbose: bool): seq<LogEntry> {
    var config := InitializationConfig(kind, project.shouldIgnore);
    InitializationLog(kind, Visit(config, ExtnameReader(), project.projectPath, project.iOSProjectPath, project.iOSProjectRoot).matched, config, verbose)
  }

  /** The push-setup group: entitlements, then the NSE analysis of every project file, then the MessagingPush search. */
  function PushSetupLog(project: DoctorIosProject, verbose: bool): seq<LogEntry> {
    EntitlementsLog(PushCapabilityFound(project.entitlementsContents))
      + RunCatching("analyzeNotificationServiceExtensionProperties", RunEach(project.projectFiles, NseRun, |project.projectFiles|))
      + InitializationLogOf(MessagingPushInitialization, project, verbose)
  }

  /** The dependencies group: conflicting pods, then the dependency report. */
  function DependenciesGroupLog(project: DoctorIosProject): seq<LogEntry> {
    ValidateNoConflictingSdks(project.isUsingCocoaPods, project.podfileLockPath, project.podfileLockContent, project.iosPods, project.multiplePushProviders)
      + DependenciesLog(project.isUsingCocoaPods, project.podfilePath, project.podfileLockContent)
  }

  /**
   * `runChecks(group)` (src/doctor/checks/ios.ts:22-46): each check runs
   * under `runCatching`, so an exception in one is logged and the next
   * still runs. Only the NSE analysis can throw here.
   */
  method RunChecks(group: CheckGroup, project: DoctorIosProject, verbose: bool) returns (log: seq<LogEntry>)
    ensures group == Diagnostics ==> log == []
    ensures group == Initialization ==> log == InitializationLogOf(SdkInitialization, project, verbose)
    ensures group == PushSetup ==> log == PushSetupLog(project, verbose)
    ensures group == Dependencies ==> log == DependenciesGroupLog(project)
  {
    match group
    case Diagnostics =>
      log := [];
    case Initialization =>
      log := RunInitialization(SdkInitialization, project, verbose);
    case PushSetup =>
      log := RunPushSetup(project, verbose);
    case Dependencies =>
      log := RunDependencies(project);
  }

  /** An initialization search of the project's iOS directory. */
  method RunInitialization(kind: InitializationKind, project: DoctorIosProject, verbose: bool) returns (log: seq<LogEntry>)
    ensures log == InitializationLogOf(kind, project, verbose)
  {
    log := ValidateInitialization(kind, project.shouldIgnore, project.projectPath, project.iOSProjectPath, project.iOSProjectRoot, verbose);
  }

  /** The push-setup group, each check in turn; the NSE analysis runs under `runCatching`. */
  method RunPushSetup(project: DoctorIosProject, verbose: bool) returns (log: seq<LogEntry>)
    ensures log == PushSetupLog(project, verbose)
  {
    var entitlements := ValidatePushEntitlements(project.entitlementsContents);
    var nse := AnalyzeNotificationServiceExtensionProperties(project.projectFiles);
    var messagingPush := RunInitialization(MessagingPushInitialization, project, verbose);
    log := entitlements + RunCatching("analyzeNotificationServiceExtensionProperties", nse) + messagingPush;
  }

  /** The dependencies group: the conflict check, then the dependency report. */
  method RunDependencies(project: DoctorIosProject) returns (log: seq<LogEntry>)
    ensures log == DependenciesGroupLog(project)
  {
    var conflicts := ValidateNoConflictingSdks(project.isUsingCocoaPods, project.podfileLockPath, project.podfileLockContent,
                                               project.iosPods, project.multiplePushProviders);
    var dependencies := ValidateDependencies(project.isUsingCocoaPods, project.podfilePath, project.podfileLockContent);
    log := conflicts + dependencies;
  }
}
