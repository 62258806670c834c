/**
 * What the iOS checks read from an Xcode project and from an extension's
 * Info.plist, and the decisions all three revisions of the check share:
 * which targets are app extensions or applications, whether an Info.plist
 * describes a Notification Service Extension (NSE), which build
 * configuration supplies an extension's deployment target, and the
 * verdict on the number of extensions and how they are embedded.
 *
 * The pbxproj parser and the XML parser are not part of this model: their
 * output is given as the datatypes below.
 */
module Xcode {
  import opened Wrappers
  import opened Strings
  import opened Arrays
  import opened Paths

  // ---------------------------------------------------------------------------
  // Info.plist, as the XML parser returns it

  /** An element the XML parser gives as one string, or as a list when it occurs several times. */
  datatype Field = One(s: string) | Many(items: seq<string>)

  /** The nested `dict` of the top-level plist dictionary: its `key` and `string` elements. */
  datatype InnerDict = InnerDict(key: Option<Field>, str: Option<Field>)

  /**
   * The nested `dict` element of the top-level dictionary. With
   * `explicitArray: false` one such element is an object and two or more
   * are a list of objects, which has no `key` or `string` property.
   */
  datatype NestedDict = Single(inner: InnerDict) | Several(dicts: seq<InnerDict>)

  /** The top-level plist dictionary: its `key` elements and its nested `dict`. */
  datatype PlistDict = PlistDict(key: Option<Field>, dict: Option<NestedDict>)

  /** The `plist` element, holding the one top-level dictionary a plist has. */
  datatype PlistElement = PlistElement(dict: Option<PlistDict>)

  /** A parsed XML document, whose `plist` element may be missing. */
  datatype XmlDocument = XmlDocument(plist: Option<PlistElement>)

  /**
   * `Array.isArray(f) ? f.includes(v) : f === v`: a list is searched, a
   * single string compared, and a missing element matches nothing.
   */
  predicate FieldHas(f: Option<Field>, v: string) {
    match f
    case None => false
    case Some(One(s)) => s == v
    case Some(Many(items)) => v in items
  }

  /** The strings an element holds: a single string is a list of one. */
  function Items(f: Option<Field>): (r: seq<string>)
    ensures f.Some? && f.value.One? ==> r == [f.value.s]
  {
    match f
    case None => []
    case Some(One(s)) => [s]
    case Some(Many(items)) => items
  }

  /** Both readings of an element agree: it has `v` exactly when `v` is one of its strings. */
  lemma FieldHasItems(f: Option<Field>, v: string)
    ensures FieldHas(f, v) <==> v in Items(f)
  {
  }

  const NSExtension := "NSExtension"
  const NSExtensionPointIdentifier := "NSExtensionPointIdentifier"
  const UserNotificationsService := "com.apple.usernotifications.service"

  /**
   * `isNotificationServiceExtension(content)`, where `content` is the
   * top-level plist dictionary (absent when the plist has none). Reading
   * `content.key` of an absent dictionary throws, and so does reading
   * `content.dict.key` when the nested `dict` is missing: the guard
   * `content.dict && ...` only chooses the branch that then dereferences it.
   * Several nested dictionaries form a list, whose `key` and `string` are
   * undefined, so the answer is false without a throw.
   */
  function IsNotificationServiceExtension(content: Option<PlistDict>): (r: Eval<bool>)
    ensures r.Throws? <==> content.None? || content.value.dict.None?
    ensures content.Some? && content.value.dict.Some? && content.value.dict.value.Several? ==> r == Returns(false)
    ensures r == Returns(true) <==>
      && content.Some? && content.value.dict.Some? && content.value.dict.value.Single?
      && NSExtension in Items(content.value.key)
      && NSExtensionPointIdentifier in Items(content.value.dict.value.inner.key)
      && UserNotificationsService in Items(content.value.dict.value.inner.str)
  {
    match content
    case None => Throws
    case Some(d) =>
      match d.dict
      case None => Throws
      case Some(Several(_)) => Returns(false)
      case Some(Single(inner)) =>
        var hasNSExtensionKey := FieldHas(d.key, NSExtension);
        var hasNSExtensionPointIdentifier := FieldHas(inner.key, NSExtensionPointIdentifier);
        var hasUserNotificationsService := FieldHas(inner.str, UserNotificationsService);
        FieldHasItems(d.key, NSExtension);
        FieldHasItems(inner.key, NSExtensionPointIdentifier);
        FieldHasItems(inner.str, UserNotificationsService);
        Returns(hasNSExtensionKey && hasNSExtensionPointIdentifier && hasUserNotificationsService)
  }

  /** Each of the three tests reads its element on its own: a single string and a list are both accepted. */
  lemma NseMixedFieldShapes(a: string, b: string)
    ensures IsNotificationServiceExtension(Some(PlistDict(
      Some(Many([a, NSExtension])),
      Some(Single(InnerDict(Some(One(NSExtensionPointIdentifier)), Some(Many([b, UserNotificationsService])))))))) == Returns(true)
  {
  }

  /**
   * Two nested dictionaries are read as a list, so the extension is not
   * recognised even when one of them names the notification service.
   */
  lemma SeveralNestedDictsAreNotNse(other: InnerDict)
    ensures IsNotificationServiceExtension(Some(PlistDict(
      Some(One(NSExtension)),
      Some(Several([InnerDict(Some(One(NSExtensionPointIdentifier)), Some(One(UserNotificationsService))), other]))))) == Returns(false)
  {
  }

  // ---------------------------------------------------------------------------
  // The pbxproj model

  /** A build phase of a target, with the comment the parser attaches to it. */
  datatype BuildPhase = BuildPhase(comment: string)

  /**
   * An entry of the native-target section. The section also holds comment
   * entries (plain strings); those read as entries without a product type.
   * A missing `name` is the empty string (both are falsy).
   */
  datatype Target = Target(
    name: string,
    productType: Option<string>,
    productReferenceComment: Option<string>,
    buildConfigurationList: string,
    buildPhases: Option<seq<BuildPhase>>)

  /** An entry of the build-configuration section: its id and its build settings, if any. */
  datatype BuildConfiguration = BuildConfiguration(id: string, buildSettings: Option<map<string, string>>)

  /**
   * A parsed project: the native targets in section order, each
   * configuration list's build-configuration ids, and the build
   * configurations in section order.
   */
  datatype XcodeProject = XcodeProject(
    targets: seq<Target>,
    configurationLists: map<string, seq<string>>,
    buildConfigurations: seq<BuildConfiguration>)

  const AppExtensionType := "com.apple.product-type.app-extension"
  const ApplicationType := "com.apple.product-type.application"
  const EmbedAppExtensions := "Embed App Extensions"
  const EmbedFoundationExtensions := "Embed Foundation Extensions"
  const DeploymentTargetSetting := "IPHONEOS_DEPLOYMENT_TARGET"

  /** `productType && trimQuotes(productType) === kind`. */
  predicate HasProductType(t: Target, kind: string) {
    t.productType.Some? && t.productType.value != "" && TrimQuotes(t.productType.value) == kind
  }

  predicate IsAppExtension(t: Target) {
    HasProductType(t, AppExtensionType)
  }

  predicate IsApplication(t: Target) {
    HasProductType(t, ApplicationType)
  }

  /** The two product types differ, so no target is both an app extension and an application. */
  lemma ExtensionIsNotApplication(t: Target)
    ensures !(IsAppExtension(t) && IsApplication(t))
  {
    assert AppExtensionType[26] != ApplicationType[26];
  }

  /** `target.buildPhases && target.buildPhases.find(phase => trimQuotes(phase.comment) === phaseName)`. */
  predicate HasPhase(t: Target, phaseName: string) {
    t.buildPhases.Some? && exists p <- t.buildPhases.value :: TrimQuotes(p.comment) == phaseName
  }

  /** Some application target has an `Embed App Extensions` phase: what sets `isEmbedded`. */
  predicate Embedded(targets: seq<Target>) {
    exists t <- targets :: IsApplication(t) && HasPhase(t, EmbedAppExtensions)
  }

  /**
   * Some application target has an `Embed Foundation Extensions` phase but
   * no `Embed App Extensions` phase: what sets `isFoundationExtension` (the
   * `else if`).
   */
  predicate FoundationEmbedded(targets: seq<Target>) {
    exists t <- targets :: IsApplication(t) && !HasPhase(t, EmbedAppExtensions) && HasPhase(t, EmbedFoundationExtensions)
  }

  /** The two embedding flags of a prefix grow by what the next target contributes. */
  lemma EmbeddingStep(targets: seq<Target>, i: nat)
    requires i < |targets|
    ensures Embedded(targets[..i + 1]) ==
      (Embedded(targets[..i]) || (IsApplication(targets[i]) && HasPhase(targets[i], EmbedAppExtensions)))
    ensures FoundationEmbedded(targets[..i + 1]) ==
      (FoundationEmbedded(targets[..i]) || (IsApplication(targets[i]) && !HasPhase(targets[i], EmbedAppExtensions)
                                              && HasPhase(targets[i], EmbedFoundationExtensions)))
  {
    assert targets[..i + 1] == targets[..i] + [targets[i]];
  }

  // ---------------------------------------------------------------------------
  // Locating and reading an extension's Info.plist

  /**
   * `target.name || target.productReference_comment.replace('.appex', '')`:
   * throws when the target has no name and no product reference comment.
   */
  function InferredDirectoryName(t: Target): (r: Eval<string>)
    ensures t.name != "" ==> r == Returns(t.name)
    ensures r.Throws? <==> t.name == "" && t.productReferenceComment.None?
  {
    if t.name != "" then Returns(t.name)
    else if t.productReferenceComment.Some? then Returns(RemoveFirst(t.productReferenceComment.value, ".appex"))
    else Throws
  }

  predicate NotDoubleQuoteChar(c: char) {
    c != '"'
  }

  /** `path.join(iOSProjectPath, './<dir>/Info.plist'.replace(/"/g, ''))`. */
  function InfoPlistPath(iOSProjectPath: string, directoryName: string): string {
    PathJoin(iOSProjectPath, Filter(directoryName, NotDoubleQuoteChar) + "/Info.plist")
  }

  /**
   * Whether an app-extension target is an NSE: its Info.plist is read and
   * parsed (`readPlist` gives the parsed document, absent when the file
   * cannot be read or parsed), and `infoPlistContent.plist.dict` is passed
   * to the predicate. Every missing link in that chain throws.
   */
  function ConfirmNse(t: Target, iOSProjectPath: string, readPlist: string -> Option<XmlDocument>): (r: Eval<bool>)
    ensures InferredDirectoryName(t).Throws? ==> r.Throws?
    ensures InferredDirectoryName(t).Returns? ==>
      var doc := readPlist(InfoPlistPath(iOSProjectPath, InferredDirectoryName(t).value));
      && (doc.None? || doc.value.plist.None? ==> r.Throws?)
      && (doc.Some? && doc.value.plist.Some? ==> r == IsNotificationServiceExtension(doc.value.plist.value.dict))
  {
    match InferredDirectoryName(t)
    case Throws => Throws
    case Returns(directoryName) =>
      match readPlist(InfoPlistPath(iOSProjectPath, directoryName))
      case None => Throws
      case Some(doc) =>
        if doc.plist.None? then Throws else IsNotificationServiceExtension(doc.plist.value.dict)
  }

  /** The app-extension targets whose Info.plist confirms an NSE: what `extensionCount` counts in the plist-checking revisions. */
  function IsConfirmedNse(iOSProjectPath: string, readPlist: string -> Option<XmlDocument>): Target -> bool {
    t => IsAppExtension(t) && ConfirmNse(t, iOSProjectPath, readPlist) == Returns(true)
  }

  /** An app-extension target whose Info.plist cannot be examined without an exception. */
  predicate ConfirmThrows(t: Target, iOSProjectPath: string, readPlist: string -> Option<XmlDocument>) {
    IsAppExtension(t) && ConfirmNse(t, iOSProjectPath, readPlist).Throws?
  }

  // ---------------------------------------------------------------------------
  // Deployment targets

  /** `config.buildSettings && config.buildSettings['IPHONEOS_DEPLOYMENT_TARGET']`: present and non-empty. */
  function DeploymentSetting(c: BuildConfiguration): (r: Option<string>)
    ensures r.Some? ==> r.value != ""
  {
    if c.buildSettings.Some? && DeploymentTargetSetting in c.buildSettings.value
       && c.buildSettings.value[DeploymentTargetSetting] != ""
    then Some(c.buildSettings.value[DeploymentTargetSetting])
    else None
  }

  /** A configuration that belongs to the list `keys` and sets a deployment target. */
  predicate Provides(c: BuildConfiguration, keys: seq<string>) {
    c.id in keys && DeploymentSetting(c).Some?
  }

  /**
   * The deployment target of the first build configuration, in section
   * order, that is in `keys` and sets one; none when no configuration does.
   */
  function FirstDeploymentTarget(configs: seq<BuildConfiguration>, keys: seq<string>): (r: Option<string>)
    ensures r.None? <==> forall i | 0 <= i < |configs| :: !Provides(configs[i], keys)
    ensures r.Some? ==> exists i | 0 <= i < |configs| ::
      && Provides(configs[i], keys)
      && DeploymentSetting(configs[i]) == r
      && forall j | 0 <= j < i :: !Provides(configs[j], keys)
  {
    if |configs| == 0 then None
    else if Provides(configs[0], keys) then
      assert Provides(configs[0], keys) && DeploymentSetting(configs[0]) == DeploymentSetting(configs[0]);
      DeploymentSetting(configs[0])
    else
      var r := FirstDeploymentTarget(configs[1..], keys);
      if r.Some? then
        var i :| 0 <= i < |configs[1..]| && Provides(configs[1..][i], keys) && DeploymentSetting(configs[1..][i]) == r
          && forall j | 0 <= j < i :: !Provides(configs[1..][j], keys);
        assert Provides(configs[i + 1], keys) && DeploymentSetting(configs[i + 1]) == r
          && forall j | 0 <= j < i + 1 :: !Provides(configs[j], keys);
        r
      else r
  }

  /** The first configuration that provides a deployment target is the one `FirstDeploymentTarget` names. */
  lemma FirstProviderWins(configs: seq<BuildConfiguration>, keys: seq<string>, i: nat)
    requires i < |configs| && Provides(configs[i], keys)
    requires forall j | 0 <= j < i :: !Provides(configs[j], keys)
    ensures FirstDeploymentTarget(configs, keys) == DeploymentSetting(configs[i])
  {
    var r := FirstDeploymentTarget(configs, keys);
    var k :| 0 <= k < |configs| && Provides(configs[k], keys) && DeploymentSetting(configs[k]) == r
      && forall j | 0 <= j < k :: !Provides(configs[j], keys);
    assert k == i;
  }

  /**
   * The deployment target of one target: none unless it is an app
   * extension; otherwise the first configuration of its configuration list
   * (`configList[target.buildConfigurationList]`, which throws when the
   * list is missing) that sets one.
   */
  function ExtensionDeploymentTarget(project: XcodeProject, t: Target): (r: Eval<Option<string>>)
    ensures !IsAppExtension(t) ==> r == Returns(None)
    ensures IsAppExtension(t) ==> (r.Throws? <==> t.buildConfigurationList !in project.configurationLists)
    ensures IsAppExtension(t) && t.buildConfigurationList in project.configurationLists ==>
      r == Returns(FirstDeploymentTarget(project.buildConfigurations, project.configurationLists[t.buildConfigurationList]))
  {
    if !IsAppExtension(t) then Returns(None)
    else if t.buildConfigurationList !in project.configurationLists then Throws
    else
      var keys := project.configurationLists[t.buildConfigurationList];
      if |keys| == 0 then Returns(None)
      else Returns(FirstDeploymentTarget(project.buildConfigurations, keys))
  }

  /**
   * Section order decides: once a configuration of the list sets a
   * deployment target, configurations after it are never consulted.
   */
  lemma {:induction false} EarlierConfigurationWins(before: seq<BuildConfiguration>, after: seq<BuildConfiguration>, keys: seq<string>)
    requires exists i | 0 <= i < |before| :: Provides(before[i], keys)
    ensures FirstDeploymentTarget(before + after, keys) == FirstDeploymentTarget(before, keys)
  {
    if !Provides(before[0], keys) {
      assert (before + after)[1..] == before[1..] + after;
      var i :| 0 <= i < |before| && Provides(before[i], keys);
      assert before[1..][i - 1] == before[i];
      EarlierConfigurationWins(before[1..], after, keys);
    }
  }

  /**
   * The first app-extension target in section order, the one the
   * revisions without a plist check resolve the deployment target for.
   */
  function FirstAppExtension(targets: seq<Target>): (r: Option<Target>)
    ensures r.None? <==> forall i | 0 <= i < |targets| :: !IsAppExtension(targets[i])
    ensures r.Some? ==> exists i | 0 <= i < |targets| ::
      targets[i] == r.value && IsAppExtension(targets[i]) && forall j | 0 <= j < i :: !IsAppExtension(targets[j])
  {
    Find(targets, IsAppExtension)
  }

  /** `getDeploymentTargetVersion(project)` of the revisions that take the first app extension and stop (`break`). */
  function ProjectDeploymentTarget(project: XcodeProject): (r: Eval<Option<string>>)
    ensures FirstAppExtension(project.targets).None? ==> r == Returns(None)
    ensures FirstAppExtension(project.targets).Some? ==> r == ExtensionDeploymentTarget(project, FirstAppExtension(project.targets).value)
  {
    match FirstAppExtension(project.targets)
    case None => Returns(None)
    case Some(t) => ExtensionDeploymentTarget(project, t)
  }

  /**
   * Only the first app extension matters: whatever targets follow it, and
   * whether or not it is the NSE, the answer is that target's.
   */
  lemma ProjectDeploymentTargetIgnoresLaterTargets(project: XcodeProject, n: nat)
    requires n < |project.targets| && IsAppExtension(project.targets[n])
    requires forall j | 0 <= j < n :: !IsAppExtension(project.targets[j])
    ensures ProjectDeploymentTarget(project) == ExtensionDeploymentTarget(project, project.targets[n])
  {
    var targets := project.targets;
    var f := FirstAppExtension(targets);
    var i :| 0 <= i < |targets| && targets[i] == f.value && IsAppExtension(targets[i])
      && forall j | 0 <= j < i :: !IsAppExtension(targets[j]);
    assert i == n;
  }

  // ---------------------------------------------------------------------------
  // `parseFloat(deploymentTarget) >= 13.0`

  const MinimumDeploymentTarget := 13

  predicate IsDigit(c: char) {
    '0' <= c <= '9'
  }

  /** The value of a run of decimal digits. */
  function DecimalValue(digits: string): (v: nat)
    requires forall k | 0 <= k < |digits| :: IsDigit(digits[k])
  {
    if |digits| == 0 then 0
    else
      var last := digits[|digits| - 1];
      assert IsDigit(last);
      10 * DecimalValue(digits[..|digits| - 1]) + (last as int - '0' as int)
  }

  /**
   * Whether `parseFloat(s) >= 13`. `parseFloat` skips leading whitespace,
   * reads an optional sign and the longest decimal prefix, and gives NaN
   * (never at least 13) when there are no digits. A fractional part cannot
   * lift an integer part below 13 to 13, so the integer part decides. An
   * exponent (`1e2`) and the text `Infinity` are not read.
   */
  predicate MeetsMinimum(s: string) {
    MeetsMinimumTrimmed(TrimStart(s))
  }

  /** The same test on text that starts with the number. */
  predicate MeetsMinimumTrimmed(t: string) {
    var signed := |t| > 0 && (t[0] == '+' || t[0] == '-');
    var start := if signed then 1 else 0;
    var end := SkipWhileDigits(t, start);
    && !(signed && t[0] == '-')
    && end > start
    && DecimalValue(t[start..end]) >= MinimumDeploymentTarget
  }

  function SkipWhileDigits(s: string, i: nat): (j: nat)
    requires i <= |s|
    ensures i <= j <= |s|
    ensures forall k | i <= k < j :: IsDigit(s[k])
    ensures j == |s| || !IsDigit(s[j])
    decreases |s| - i
  {
    if i < |s| && IsDigit(s[i]) then SkipWhileDigits(s, i + 1) else i
  }

  /** A null deployment target (`parseFloat(null)` is NaN) never meets the minimum. */
  function DeploymentLevel(deploymentTarget: Option<string>): (level: Level)
    ensures level == Success <==> deploymentTarget.Some? && MeetsMinimum(deploymentTarget.value)
    ensures level == Success || level == Failure
  {
    if deploymentTarget.Some? && MeetsMinimum(deploymentTarget.value) then Success else Failure
  }

  lemma {:induction false} SkipWhileDigitsStopsAt(s: string, i: nat, j: nat)
    requires i <= j <= |s|
    requires forall k | i <= k < j :: IsDigit(s[k])
    requires j == |s| || !IsDigit(s[j])
    ensures SkipWhileDigits(s, i) == j
    decreases j - i
  {
    if i < j {
      SkipWhileDigitsStopsAt(s, i + 1, j);
    }
  }

  /**
   * For a version written as an integer part followed by anything that is
   * not a digit (`13.0`, `9.3.1`), the integer part's numeric value decides.
   */
  lemma MeetsMinimumByIntegerPart(integerPart: string, rest: string)
    requires |integerPart| > 0 && forall k | 0 <= k < |integerPart| :: IsDigit(integerPart[k])
    requires |rest| == 0 || !IsDigit(rest[0])
    ensures MeetsMinimum(integerPart + rest) <==> DecimalValue(integerPart) >= MinimumDeploymentTarget
  {
    var s := integerPart + rest;
    assert s[0] == integerPart[0];
    DigitIsNotWhitespace(s[0]);
    TrimStartIdentity(s);
    assert forall k | 0 <= k < |integerPart| :: IsDigit(s[k]);
    SkipWhileDigitsStopsAt(s, 0, |integerPart|);
    assert s[0..|integerPart|] == integerPart;
  }

  lemma DigitIsNotWhitespace(c: char)
    requires IsDigit(c)
    ensures !IsWhitespace(c)
  {
  }

  /** Versions compare as numbers, not as strings: `9.0` is below the minimum although `"9.0" > "13.0"`. */
  lemma NineIsBelowMinimum()
    ensures !MeetsMinimum("9.0") && MeetsMinimum("13.0")
  {
    MeetsMinimumByIntegerPart("9", ".0");
    assert "9" + ".0" == "9.0";
    MeetsMinimumByIntegerPart("13", ".0");
    assert "13" + ".0" == "13.0";
    assert "13"[..1] == "1";
  }

  // ---------------------------------------------------------------------------
  // `${parseFloat(deploymentTarget)}`

  /** The decimal `parseFloat` reads from the start of a text: its sign, its integer digits and its fraction digits. */
  datatype Decimal = Decimal(negative: bool, integerDigits: string, fractionDigits: string)

  predicate AllDigits(s: string) {
    forall k | 0 <= k < |s| :: IsDigit(s[k])
  }

  /**
   * What `parseFloat` reads after leading whitespace: an optional sign,
   * integer digits, and a `.` followed by fraction digits. None when it
   * reads no digit at all, where `parseFloat` gives NaN. Reading stops at
   * the first character that does not fit, so `14.0.1` reads as `14.0`.
   */
  function LeadingDecimal(s: string): (r: Option<Decimal>)
    ensures r.Some? ==> AllDigits(r.value.integerDigits) && AllDigits(r.value.fractionDigits)
    ensures r.Some? ==> |r.value.integerDigits| + |r.value.fractionDigits| > 0
  {
    var t := TrimStart(s);
    var signed := |t| > 0 && (t[0] == '+' || t[0] == '-');
    var start := if signed then 1 else 0;
    var end := SkipWhileDigits(t, start);
    var fractionStart := if end < |t| && t[end] == '.' then end + 1 else end;
    var fractionEnd := SkipWhileDigits(t, fractionStart);
    if end == start && fractionEnd == fractionStart then None
    else Some(Decimal(signed && t[0] == '-', t[start..end], t[fractionStart..fractionEnd]))
  }

  /** The digits without their leading zeros: only zeros are dropped, and what is left does not start with one. */
  function DropLeadingZeros(d: string): (r: string)
    ensures |r| <= |d| && r == d[|d| - |r|..]
    ensures |r| == 0 || r[0] != '0'
    ensures forall k | 0 <= k < |d| - |r| :: d[k] == '0'
  {
    if |d| > 0 && d[0] == '0' then DropLeadingZeros(d[1..]) else d
  }

  /** The digits without their trailing zeros: only zeros are dropped, and what is left does not end with one. */
  function DropTrailingZeros(d: string): (r: string)
    ensures |r| <= |d| && r == d[..|r|]
    ensures |r| == 0 || r[|r| - 1] != '0'
    ensures forall k | |r| <= k < |d| :: d[k] == '0'
  {
    if |d| > 0 && d[|d| - 1] == '0' then DropTrailingZeros(d[..|d| - 1]) else d
  }

  /**
   * How JavaScript prints the number a decimal denotes: no leading zeros
   * (`0` for a zero integer part), no trailing fraction zeros and no point
   * without a fraction, and no sign on zero (`String(-0)` is `0`).
   */
  function NumberText(d: Decimal): (r: string)
    requires AllDigits(d.integerDigits)
    ensures |r| > 0 && (r[0] == '-' || IsDigit(r[0]))
  {
    var whole := DropLeadingZeros(d.integerDigits);
    var fraction := DropTrailingZeros(d.fractionDigits);
    var magnitude := (if |whole| == 0 then "0" else whole) + (if |fraction| == 0 then "" else "." + fraction);
    assert |whole| > 0 ==> IsDigit(whole[0]) by {
      if |whole| > 0 { assert whole[0] == d.integerDigits[|d.integerDigits| - |whole|]; }
    }
    if d.negative && (|whole| > 0 || |fraction| > 0) then "-" + magnitude else magnitude
  }

  /** `${parseFloat(deploymentTarget)}`: `NaN` for null (`parseFloat(null)` reads the text `null`) and for a text without a leading number. */
  function ParseFloatText(deploymentTarget: Option<string>): (r: string)
    ensures r == "NaN" <==> deploymentTarget.None? || LeadingDecimal(deploymentTarget.value).None?
  {
    if deploymentTarget.None? then "NaN"
    else match LeadingDecimal(deploymentTarget.value)
      case None => "NaN"
      case Some(d) => NumberText(d)
  }

  /** A number as JavaScript prints it: one `0` or digits not starting with `0`, then optionally a point and digits not ending with `0`. */
  predicate CanonicalDecimal(whole: string, fraction: string) {
    && |whole| > 0 && AllDigits(whole) && (whole[0] != '0' || |whole| == 1)
    && AllDigits(fraction) && (|fraction| == 0 || fraction[|fraction| - 1] != '0')
  }

  function DecimalText(whole: string, fraction: string): string {
    whole + (if |fraction| == 0 then "" else "." + fraction)
  }

  /** A text that starts with digits and has no point after them reads as those digits. */
  lemma {:induction false} LeadingDecimalWhole(s: string, e: nat)
    requires 0 < e <= |s| && forall k | 0 <= k < e :: IsDigit(s[k])
    requires e == |s| || (!IsDigit(s[e]) && s[e] != '.')
    ensures LeadingDecimal(s) == Some(Decimal(false, s[..e], ""))
  {
    DigitIsNotWhitespace(s[0]);
    TrimStartIdentity(s);
    SkipWhileDigitsStopsAt(s, 0, e);
    SkipWhileDigitsStopsAt(s, e, e);
  }

  /** A text that starts with digits, a point and more digits reads as both runs of digits. */
  lemma {:induction false} LeadingDecimalFraction(s: string, e: nat, f: nat)
    requires 0 < e < f <= |s| && s[e] == '.'
    requires forall k | 0 <= k < e :: IsDigit(s[k])
    requires forall k | e < k < f :: IsDigit(s[k])
    requires f == |s| || !IsDigit(s[f])
    ensures LeadingDecimal(s) == Some(Decimal(false, s[..e], s[e + 1..f]))
  {
    DigitIsNotWhitespace(s[0]);
    TrimStartIdentity(s);
    SkipWhileDigitsStopsAt(s, 0, e);
    SkipWhileDigitsStopsAt(s, e + 1, f);
  }

  /** Reading a printed number back and printing it again gives the same text. */
  lemma {:induction false} CanonicalTextRoundTrip(whole: string, fraction: string)
    requires CanonicalDecimal(whole, fraction)
    ensures ParseFloatText(Some(DecimalText(whole, fraction))) == DecimalText(whole, fraction)
  {
    CanonicalReads(whole, fraction);
    CanonicalPrints(whole, fraction);
  }

  /** A printed number reads back as its own integer and fraction digits. */
  lemma CanonicalReads(whole: string, fraction: string)
    requires CanonicalDecimal(whole, fraction)
    ensures LeadingDecimal(DecimalText(whole, fraction)) == Some(Decimal(false, whole, fraction))
  {
    var s := DecimalText(whole, fraction);
    if |fraction| == 0 {
      assert s == whole;
      LeadingDecimalWhole(s, |whole|);
      assert s[..|whole|] == whole;
    } else {
      assert s == whole + "." + fraction;
      assert forall k | 0 <= k < |whole| :: s[k] == whole[k];
      assert forall k | |whole| < k < |s| :: s[k] == fraction[k - |whole| - 1];
      LeadingDecimalFraction(s, |whole|, |s|);
      assert s[..|whole|] == whole && s[|whole| + 1..|s|] == fraction;
    }
  }

  /** The digits of a printed number print as that number. */
  lemma CanonicalPrints(whole: string, fraction: string)
    requires CanonicalDecimal(whole, fraction)
    ensures NumberText(Decimal(false, whole, fraction)) == DecimalText(whole, fraction)
  {
    assert DropTrailingZeros(fraction) == fraction;
    if whole[0] == '0' {
      assert whole == "0";
      assert DropLeadingZeros(whole) == DropLeadingZeros("");
    } else {
      assert DropLeadingZeros(whole) == whole;
    }
  }

  /** `13.0` prints as `13`. */
  lemma ParseFloatDropsZeroFraction()
    ensures ParseFloatText(Some("13.0")) == "13"
  {
    assert "13" + "." + "0" + "" == "13.0";
    VersionPrints("13", "0", "");
  }

  /** `14.0.1` prints as `14`: reading stops at the second point. */
  lemma ParseFloatStopsAtSecondPoint()
    ensures ParseFloatText(Some("14.0.1")) == "14"
  {
    assert "14" + "." + "0" + ".1" == "14.0.1";
    VersionPrints("14", "0", ".1");
  }

  /** `15.6` prints as itself. */
  lemma ParseFloatKeepsFraction()
    ensures ParseFloatText(Some("15.6")) == "15.6"
  {
    CanonicalTextRoundTrip("15", "6");
    assert DecimalText("15", "6") == "15.6";
  }

  /** `<whole>.<zeros><rest>` with `rest` not starting with a digit prints as `<whole>`. */
  lemma {:induction false} VersionPrints(whole: string, zeros: string, rest: string)
    requires |whole| > 0 && AllDigits(whole) && whole[0] != '0'
    requires |zeros| > 0 && forall k | 0 <= k < |zeros| :: zeros[k] == '0'
    requires |rest| == 0 || !IsDigit(rest[0])
    ensures ParseFloatText(Some(whole + "." + zeros + rest)) == whole
  {
    var s := whole + "." + zeros + rest;
    var f := |whole| + 1 + |zeros|;
    VersionSplits(whole, zeros, rest);
    LeadingDecimalFraction(s, |whole|, f);
    IntegerPrints(whole, zeros);
  }

  /** The pieces of `<whole>.<zeros><rest>` sit where `LeadingDecimalFraction` expects them. */
  lemma VersionSplits(whole: string, zeros: string, rest: string)
    requires |whole| > 0 && AllDigits(whole)
    requires |zeros| > 0 && forall k | 0 <= k < |zeros| :: zeros[k] == '0'
    requires |rest| == 0 || !IsDigit(rest[0])
    ensures var s := whole + "." + zeros + rest; var f := |whole| + 1 + |zeros|;
      && f <= |s| && s[|whole|] == '.'
      && (forall k | 0 <= k < |whole| :: IsDigit(s[k]))
      && (forall k | |whole| < k < f :: IsDigit(s[k]))
      && (f == |s| || !IsDigit(s[f]))
      && s[..|whole|] == whole && s[|whole| + 1..f] == zeros
  {
    var s := whole + "." + zeros + rest;
    var f := |whole| + 1 + |zeros|;
    assert forall k | 0 <= k < |whole| :: s[k] == whole[k];
    assert forall k | |whole| < k < f :: s[k] == zeros[k - |whole| - 1];
    assert f == |s| || s[f] == rest[0];
    assert s[..|whole|] == whole;
    assert s[|whole| + 1..f] == zeros;
  }

  /** Digits without a leading zero followed by a fraction of zeros print as the digits alone. */
  lemma IntegerPrints(whole: string, zeros: string)
    requires |whole| > 0 && AllDigits(whole) && whole[0] != '0'
    requires forall k | 0 <= k < |zeros| :: zeros[k] == '0'
    ensures NumberText(Decimal(false, whole, zeros)) == whole
  {
    assert DropLeadingZeros(whole) == whole;
  }

  /** A deployment target that meets the minimum prints as a non-negative number, never as NaN. */
  lemma MeetingMinimumPrintsNumber(s: string)
    requires MeetsMinimum(s)
    ensures LeadingDecimal(s).Some? && !LeadingDecimal(s).value.negative
    ensures DecimalValue(LeadingDecimal(s).value.integerDigits) >= MinimumDeploymentTarget
    ensures ParseFloatText(Some(s)) != "NaN" && ParseFloatText(Some(s))[0] != '-'
  {
  }

  // ---------------------------------------------------------------------------
  // The verdict on the extensions found

  /** What the loop's counters and flags amount to. */
  datatype TargetScan = TargetScan(extensionCount: nat, isEmbedded: bool, isFoundationExtension: bool)

  datatype NseVerdict = MultipleFound | FoundEmbedded | FoundAsFoundationExtension | FoundNotEmbedded | NotFound

  /** The `if`/`else if` chain after the loop: the count decides first, then the embedding flags. */
  function Verdict(scan: TargetScan): (v: NseVerdict)
    ensures v == MultipleFound <==> scan.extensionCount > 1
    ensures v == NotFound <==> scan.extensionCount == 0
    ensures v == FoundEmbedded <==> scan.extensionCount == 1 && scan.isEmbedded
    ensures v == FoundAsFoundationExtension <==> scan.extensionCount == 1 && !scan.isEmbedded && scan.isFoundationExtension
    ensures v == FoundNotEmbedded <==> scan.extensionCount == 1 && !scan.isEmbedded && !scan.isFoundationExtension
  {
    if scan.extensionCount > 1 then MultipleFound
    else if scan.extensionCount == 1 then
      if scan.isEmbedded then FoundEmbedded
      else if scan.isFoundationExtension then FoundAsFoundationExtension
      else FoundNotEmbedded
    else NotFound
  }

  /**
   * The level the verdict is logged at. The Foundation-extension case is a
   * success in two revisions and a warning in the third, so its level is a
   * parameter.
   */
  function VerdictLevel(v: NseVerdict, foundationLevel: Level): (level: Level)
    ensures v == FoundEmbedded ==> level == Success
    ensures v == FoundAsFoundationExtension ==> level == foundationLevel
    ensures v in {MultipleFound, FoundNotEmbedded, NotFound} ==> level == Failure
  {
    match v
    case FoundEmbedded => Success
    case FoundAsFoundationExtension => foundationLevel
    case _ => Failure
  }

  /** With the Foundation case a success, the check succeeds exactly when there is one extension and some embedding phase. */
  lemma SucceedsWithOneEmbeddedExtension(scan: TargetScan)
    ensures VerdictLevel(Verdict(scan), Success) == Success <==>
      scan.extensionCount == 1 && (scan.isEmbedded || scan.isFoundationExtension)
  {
  }

  /** With the Foundation case a warning, only an `Embed App Extensions` phase makes the check succeed. */
  lemma WarnsOnFoundationExtension(scan: TargetScan)
    ensures VerdictLevel(Verdict(scan), Warning) == Success <==> scan.extensionCount == 1 && scan.isEmbedded
    ensures VerdictLevel(Verdict(scan), Warning) == Warning <==>
      scan.extensionCount == 1 && !scan.isEmbedded && scan.isFoundationExtension
  {
  }
}
