# cio-sdk-tools doctor, modelled in Dafny

`cio-sdk-tools` is a command-line tool that inspects a mobile app project and
reports whether the Customer.io SDK is set up correctly. Its `doctor` command
checks that the project directory is not empty. It then identifies the
framework: React Native, Flutter or native iOS. It builds a project object
that locates the Xcode project, entitlements, AppDelegate, Podfile and lock
files, loads their content, and runs check suites. Each suite logs success,
warning, failure and alert lines and pushes lines onto a project summary.

The repository holds three revisions of this logic. Each is modelled as
written, except the defects listed under "## Findings": those are modelled
twice, as written and as evidently intended, and the top-level callers
(the check groups, `runAllChecks` and the script) compose the intended
member, as their rows say:

- `src/doctor/*`, the newer `doctor` with ordered check groups;
- `src/*`, the older `doctor` with per-framework `runAllChecks`;
- `run-diagnostics.ts`, a stand-alone script.

The model is split into Dafny modules that follow the source:

- `Strings`, `Arrays`, `Paths`: the string, array and path helpers (`trimQuotes`,
  `trimEqualOperator`, `uniqueValues`, `getFilename`, `getReadablePath`).
- `FileTree`: the file system as a tree of directories, files and links.
  Reads give `None` where the helpers catch an error. `FileSearch` and
  `CodeSearch` are the directory walks over it.
- `Json`: parsed JSON documents, with JavaScript's property reads.
- `Scan`, `Patterns`: the regular expressions the code builds and the ones
  it uses, as explicit matchers.
- `PodLock`, `LockFiles`: the version extractors for Podfile.lock, yarn.lock,
  package-lock.json and package.json.
- `Xcode`, `NseLoop`, `Entitlements`: Xcode targets and build configurations,
  the notification-service-extension verdict and the entitlements test.
- `DoctorIos`, `IosChecks`: the iOS checks of the two `doctor` revisions.
- `ReactNativeChecks`, `ReactNativeCheckGroups`: the React Native checks of
  `src/checks/react_native.ts` and `src/checks/reactnative.ts`.
- `Projects`: the project classes. `File` is a class whose content is
  loaded in place. The mobile project is a class whose lists of located
  files grow by `concat`.
- `Logging`: the `(level, message)` lines a check leaves, `runCatching`,
  and the summary as an append-only list.
- `RunDiagnostics`: the legacy script.
- `Doctor`: framework identification and the two `doctor` commands.

Loops that update variables in the source are methods with loop
invariants, proved equal to reference functions. Properties of those
functions are proved as lemmas.

## Model

| member | source | states |
|---|---|---|
| Strings.TrimStartShape | src/utils/string.ts:7 | the `trim` inside `trimQuotes` removes a whitespace prefix and nothing else, and the result starts with no whitespace |
| Strings.TrimEndShape | src/utils/string.ts:7 | the `trim` inside `trimQuotes` removes a whitespace suffix and nothing else, and the result ends with no whitespace |
| Strings.TrimShape | src/utils/string.ts:7 | `trim` leaves no whitespace at either edge |
| Strings.RemoveQuotesShape | src/utils/string.ts:7 | `replace(/['"]/g, '')` leaves no `'` or `"` anywhere, never lengthens the text, and keeps only characters of the input |
| Strings.TrimQuotesShape | src/utils/string.ts:6-8 | `trimQuotes` output holds no quote character and has no leading or trailing whitespace |
| Strings.TrimEqualOperatorShape | src/utils/string.ts:10-12 | `trimEqualOperator` output has no edge whitespace and is strictly shorter than an input that starts with `=` |
| Strings.TrimIdentity | src/utils/string.ts:7 | a text without edge whitespace is its own `trim` |
| Strings.RemoveQuotesIdentity | src/utils/string.ts:7 | removing quotes from a quote-free text changes nothing |
| Strings.TrimQuotesIdentity | src/utils/string.ts:6-8 | `trimQuotes` leaves a text with no quotes and no edge whitespace unchanged |
| Strings.TrimQuotesIdempotent | src/utils/string.ts:6-8 | applying `trimQuotes` twice gives the same text as applying it once |
| Strings.TrimQuotesAppExtensionLiteral | src/utils/string.ts:6-8 | `com.apple.product-type.app-extension` passes through `trimQuotes` unchanged |
| Strings.TrimQuotesIgnoresQuoting | src/utils/string.ts:6-8 | wrapping a value in double quotes does not change its `trimQuotes` |
| Strings.TrimEqualOperatorDropsOne | src/utils/string.ts:10-12 | `=` followed by an already trimmed text yields exactly that text |
| Strings.TrimEqualOperatorNoOperator | src/utils/string.ts:10-12 | a text that does not start with `=` is only trimmed |
| Strings.TrimEqualOperatorIdentity | src/utils/string.ts:10-12 | a trimmed text that does not start with `=` is returned as it is |
| Strings.TrimEqualOperatorDouble | src/utils/string.ts:11 | `==1.0` becomes `=1.0`: at most one `=` is removed |
| Strings.TrimEqualOperatorLeadingSpace | src/utils/string.ts:11 | the `=` is removed only when it is the very first character: a space before a trimmed text is trimmed away and nothing else changes |
| Strings.TrimEqualOperatorLeadingSpaceExample | src/utils/string.ts:11 | ` =1.0` becomes `=1.0` |
| Strings.Contains | src/utils/code.ts:121-124 | `includes` holds exactly when the needle occurs at some position |
| Strings.TextOf | src/checks/ios.ts:262-278 | where the source turns an absent value into text it becomes `undefined`; a present value is kept as it is |
| Strings.MissingCharacterExcludes | src/checks/ios.ts:262-278 | a text that lacks some character of the needle does not contain the needle (used to show that `undefined` holds no entitlement key) |
| Strings.IndexOf | src/utils/patterns.ts:10 | the first position at or after `from` where the needle occurs, and none when it occurs nowhere there |
| Strings.RemoveFirst | src/doctor/checks/ios.ts:92 | `replace` with a string pattern returns the text unchanged when the needle does not occur; otherwise it is the text without the needle's leftmost occurrence, shorter by the needle's length |
| Strings.Join | src/utils/patterns.ts:11-12 | `join` of no parts is empty and of one part is that part |
| Strings.JoinAppend | src/utils/patterns.ts:11-12 | joining one more part appends the separator and that part to the joined text |
| Strings.ContainsIgnoringCase | src/utils/patterns.ts:15-23 | the case-insensitive test holds exactly when the needle matches, ASCII letters folded, at some position |
| Arrays.UniqueValues | src/utils/array.ts:1-3 | `uniqueValues` output has no duplicates, holds exactly the values of the input, and is no longer than it |
| Arrays.UniqueValuesFirstOccurrenceOrder | src/utils/array.ts:2 | the output lists the values in the order of their first occurrence in the input |
| Arrays.UniqueValuesLength | src/utils/array.ts:2 | the output is as long as the input exactly when the input has no duplicates |
| Arrays.UniqueValuesIdentity | src/utils/array.ts:2 | a sequence without duplicates is its own `uniqueValues` |
| Arrays.UniqueValuesIdempotent | src/utils/array.ts:1-3 | `uniqueValues` applied twice equals `uniqueValues` applied once |
| Arrays.Filter | src/checks/react_native.ts:40-51 | `filter` keeps exactly the elements that pass and never lengthens |
| Arrays.FilterAppend | src/checks/react_native.ts:40-51 | filtering distributes over concatenation, so the elements kept stay in input order |
| Arrays.Map | src/utils/patterns.ts:9-11 | `map` keeps the length and maps each position |
| Arrays.Find | src/doctor/utils/version.ts:53-55 | `find` gives the first element that passes, and none exactly when no element passes |
| Paths.PathJoin | src/utils/file.ts:75 | `path.join` of two empty parts is `.`, of one empty part the other part; otherwise the result starts with the base and a `/` and ends with the relative part |
| Paths.LastSlash | src/utils/file.ts:169 | the position of the last `/` of a path, and none when the path has no `/` |
| Paths.TrimTrailingSlashes | src/utils/file.ts:169 | the path with its trailing `/` characters removed: a prefix of it, followed only by `/`, and not ending in `/` |
| Paths.Basename | src/utils/file.ts:169 | `path.basename` ignores trailing separators and then returns the text after the last `/`: it holds no `/`, is a suffix of the trimmed path preceded by a `/` unless it is the whole trimmed path, and is empty only for a path made of `/` |
| Paths.BasenameIgnoresTrailingSlash | src/utils/file.ts:169 | `/a/b/` and `/a/b` both have the name `b`; `/` has the empty name |
| FileTree.Resolve | src/utils/file.ts:155 | what `statSync` looks at: an entry that is not a link is itself; a link resolves to a non-link entry it leads to, or to nothing when it dangles |
| FileTree.GetFileLinkStats | src/utils/file.ts:153-165 | `getFileLinkStats` is undefined exactly when `statSync` fails; otherwise its directory and file flags are those of the entry the link leads to, and `isSymbolicLink` is never set |
| FileTree.LinkStatsLikeTarget | src/utils/file.ts:153-165 | a link to an entry gets exactly the stats of that entry |
| FileTree.ReadFileContent | src/utils/file.ts:48-54 | `readFileContent` gives the content exactly when the path leads to a readable regular file, and undefined (never an exception) otherwise |
| FileTree.ReadDirectory | src/utils/file.ts:40-46 | `readDirectory` gives the entries exactly when the path leads to a readable directory, and undefined (never an exception) otherwise |
| FileTree.StatsOf | src/utils/file.ts:133-141 | the record for one path carries that path and its content; a failed read leaves both content and time absent, and a read content comes with the modification time |
| FileTree.ReadFileWithStats | src/utils/file.ts:130-145 | one record per input path, in input order, each the record for its own path |
| FileTree.GetFilename | src/utils/file.ts:167-179 | `getFilename` holds no `/`; for a path not ending in `/` it is the suffix after the last separator, or the whole path when it has none |
| FileTree.Relative | src/utils/file.ts:189 | `path.relative` of the base itself is empty, and of a path inside the base is the part after the base and its separator |
| FileTree.GetReadablePath | src/utils/file.ts:181-195 | `getReadablePath` of the base is the base's own name (`.` for the root, whose name is empty), and of a path inside the base is that name, a `/`, and the path relative to the base |
| FileTree.ReadablePathKeepsRelativePart | src/utils/file.ts:181-195 | for every path inside the base, the readable path is the base's name joined with the relative path: only the base's location is dropped |
| Json.Lookup | src/doctor/utils/version.ts:65-72 | the value `JSON.parse` keeps for a key is absent exactly when no member has that name, and is the value of some member with that name otherwise |
| Json.LookupLastWins | src/doctor/utils/version.ts:65-72 | a later duplicate member overwrites an earlier one, and a member with another name changes nothing |
| Json.Keys | src/doctor/utils/version.ts:53 | `Object.keys` lists each name once, and exactly the names that have a value |
| Json.KeysAreMemberNames | src/doctor/utils/version.ts:53 | a name is an own key exactly when some member has that name |
| Json.KeysInDocumentOrder | src/doctor/utils/version.ts:53 | the model lists keys in the order of their first appearance in the document, which is JavaScript's order for names that are not array indices |
| Json.Member | src/checks/reactnative.ts:41-42 | a property read throws exactly on `undefined` or `null`, and on an object gives the member's value or undefined; every other value reads undefined |
| Json.MemberOf | src/utils/version.ts:46-48 | a property read after an expression that threw throws as well, and otherwise reads the property |
| Json.ObjectKeys | src/doctor/utils/version.ts:53 | `Object.keys` throws exactly on `undefined` or `null`, and on an object gives its keys; every other value gives none |
| Json.TemplateText | src/checks/reactnative.ts:43-45 | inside a template literal `undefined` becomes `undefined`, `null` becomes `null` and a string stays itself (a number keeps its source literal, see Left out) |
| Scan.SkipWhile | src/doctor/utils/version.ts:6 | a greedy `[...]*` run: every character it passes satisfies the class and the character after it does not |
| Scan.SkipWhileStopsAt | src/doctor/utils/version.ts:6 | the greedy run ends exactly at the first character outside the class |
| Scan.NextMatch | src/doctor/utils/version.ts:17 | `exec` with a given `lastIndex` finds the leftmost match at or after it, and none exactly when the pattern matches nowhere from there |
| Scan.AllMatchesShape | src/doctor/utils/version.ts:16-19 | the `exec` loop reports only real matches, left to right and without overlap |
| Scan.AllMatchesEmpty | src/doctor/utils/version.ts:16-19 | the `exec` loop reports nothing exactly when the pattern matches nowhere |
| Scan.AllMatchesCoverEveryMatch | src/doctor/utils/version.ts:16-19 | every position where the pattern matches lies inside one of the reported matches, so no match is skipped except by overlap |
| Scan.Captures | src/doctor/utils/version.ts:18 | the first capture group of each match, one per match, in order |
| Scan.GlobalPattern.Exec | src/checks/ios.ts:391 | `exec` on a global pattern returns the next match from `lastIndex`, moves `lastIndex` to its end, and resets it to 0 when there is none |
| Scan.CollectCaptures | src/checks/ios.ts:389-393 | the `while ((match = exec(...)) !== null)` loop collects the capture of every match from the starting `lastIndex`, and always leaves `lastIndex` at 0 |
| Patterns.Atoms | src/utils/patterns.ts:2 | the regular-expression reading of a source text never has more atoms than the text has characters |
| Patterns.EscapeFirstDot | src/utils/patterns.ts:10 | an extension without a `.` is left as it is by `replace('.', '\\.')` |
| Patterns.Alternatives | src/utils/patterns.ts:9-12 | the group is the single empty alternative when there are no extensions; otherwise it has one alternative per extension, in order, the i-th being the i-th extension with its first `.` escaped |
| Patterns.CreateFilePattern | src/utils/patterns.ts:1-3 | `createFilePattern(n)` has source `n$` and no `i` flag |
| Patterns.ConstructFilePattern | src/utils/patterns.ts:5-13 | `constructFilePattern` has source name, `(`, the extensions with their first `.` escaped joined by `|`, `)$`, and no `i` flag |
| Patterns.ConstructKeywordFilePattern | src/utils/patterns.ts:15-23 | `constructKeywordFilePattern` has source keyword, `.*(`, the escaped extensions joined by `|`, `)$`, and the `i` flag |
| Patterns.PlainMatchIsItself | src/utils/patterns.ts:2 | a name without metacharacters matches, without the `i` flag, exactly the same text |
| Patterns.EscapedExtensionAtoms | src/utils/patterns.ts:10 | an escaped `.ext` extension reads as a literal `.` followed by the extension's own characters |
| Patterns.OnlyFirstDotEscaped | src/utils/patterns.ts:10-20 | only the first `.` of an extension is escaped: in `.d.ts` the second dot stays a wildcard |
| Patterns.CreateFilePatternMatchesSuffix | src/utils/patterns.ts:1-3 | `createFilePattern(n)` is anchored only at the end: it holds exactly when the text ends with a match of `n` |
| Patterns.UnescapedDotMatchesAnyCharacter | src/utils/patterns.ts:1-3 | the name is not escaped, so the pattern for `a.b` accepts `a`, any one character other than a line terminator, and `b`, after any prefix |
| Patterns.ConstructFilePatternMeaning | src/utils/patterns.ts:5-13 | for a plain name and `.ext` extensions the pattern holds exactly when the text ends with the name followed by one of the extensions, with case and without a start anchor (`MyApp.js` passes for `App`) |
| Patterns.FilePatternMatchSplit | src/utils/patterns.ts:12 | a match of the name pattern is the name followed by one escaped extension that reaches the end of the text |
| Patterns.PlainFileMatchEndsWith | src/utils/patterns.ts:12 | such a match, for a plain name and a `.ext` extension, makes the text end with the name and the extension literally |
| Patterns.EscapedAlternative | src/utils/patterns.ts:9-11 | each alternative of the group is the escaped form of one of the extensions |
| Patterns.EscapedExtensionMatch | src/utils/patterns.ts:10 | an escaped `.ext` alternative matches only the text `.ext` itself |
| Patterns.EndsWithFilePatternMatch | src/utils/patterns.ts:12 | a text ending with the name and one of the extensions is matched by the name pattern |
| Patterns.EscapedExtensionMatches | src/utils/patterns.ts:10 | the text `.ext` matches its escaped alternative |
| Patterns.ConstructFilePatternNoExtensions | src/utils/patterns.ts:9-12 | with no extensions the group `()` matches the empty text, so the name pattern is the same test as "ends with the name" |
| Patterns.KeywordPatternNoExtensions | src/utils/patterns.ts:19-22 | with no extensions the keyword pattern holds exactly when the keyword occurs, case ignored, with no line terminator after it |
| Patterns.UpperAll | src/utils/patterns.ts:22 | upper-casing a text keeps its length and upper-cases each character |
| Patterns.AtomMatchesUpper | src/utils/patterns.ts:22 | under the `i` flag an atom matches a character exactly when it matches its upper-case form |
| Patterns.KeywordPatternIgnoresCase | src/utils/patterns.ts:15-23 | the keyword pattern gives the same answer for a text and its upper-cased form |
| PodLock.PodMatchAt | src/doctor/utils/version.ts:5-7 | a match of `- <pod>\s+\(([^)]+)\)` at a position starts there, ends inside the text, and captures a non-empty version without `)` |
| PodLock.PodMatchAtSound | src/doctor/utils/version.ts:6 | every match the scanner reports is `- `, the pod name, whitespace, `(`, a version without `)`, and `)` |
| PodLock.PodMatchAtComplete | src/doctor/utils/version.ts:6 | every such pod line is reported by the scanner, with its version as the capture |
| PodLock.PodNameFollowedByWhitespace | src/doctor/utils/version.ts:6 | whitespace must follow the pod name, so `CustomerIOMessagingPush` does not match a `- CustomerIOMessagingPushAPN (…)` line |
| PodLock.PodMatcher | src/doctor/utils/version.ts:5-7 | `createPodRegex` gives a matcher that only reports matches starting where it is asked |
| PodLock.VersionSummary | src/doctor/utils/version.ts:21-28 | the result is undefined exactly when no version was captured |
| PodLock.ExtractWithPattern | src/checks/ios.ts:385-403 | the extraction loop with a shared pattern: the summary of every capture from the pattern's current `lastIndex`, leaving `lastIndex` at 0 |
| PodLock.ExtractVersionFromPodLock | src/doctor/utils/version.ts:9-29 | `extractVersionFromPodLock` summarises the captures of all matches left to right, and is undefined exactly when no pod line for the pod occurs; the older copy in src/utils/version.ts:8-28 is the same loop and gets the same contract |
| PodLock.ExtractTwice | src/checks/ios.ts:385-403 | two extractions with the same global pattern give equal results, because the loop always ends with `lastIndex` reset to 0 |
| PodLock.VersionSummaryMergesOperatorForm | src/doctor/utils/version.ts:21-25 | the `=` is removed before de-duplication: versions `a`, `=a`, `b` are listed as `a, b` |
| PodLock.ConflictingPods | src/doctor/checks/ios.ts:400-402 | a pod is reported as conflicting exactly when it is listed and occurs in the lock file |
| LockFiles.YarnMatchAt | src/doctor/utils/version.ts:31-36 | a match of the yarn.lock block pattern at a position starts there, ends inside the text, and captures a non-empty version without `"` |
| LockFiles.YarnMatchAtSound | src/doctor/utils/version.ts:33 | every match the scanner reports is the header `<pkg>@`, text without `:`, `:`, whitespace holding a line feed, `version`, whitespace and a quoted version |
| LockFiles.YarnMatchAtComplete | src/doctor/utils/version.ts:33 | every such block is reported by the scanner, with its version as the capture |
| LockFiles.YarnMatchAtHeader | src/doctor/utils/version.ts:33 | once the header, the `:` and `version` are found, the match is decided by the quoted tail alone |
| LockFiles.QuotedVersionAfter | src/doctor/utils/version.ts:33 | the tail `\s*"([^"]+)"` captures a non-empty text without `"` |
| LockFiles.QuotedVersionAfterSound | src/doctor/utils/version.ts:33 | a tail the scanner reports is whitespace, a quote, the captured version and a closing quote |
| LockFiles.YarnMatcher | src/doctor/utils/version.ts:31-36 | `createPackageRegexYarn` gives a matcher that only reports matches starting where it is asked |
| LockFiles.YarnLockVersion | src/doctor/utils/version.ts:43-46 | the yarn branch is undefined exactly when no block matches, and otherwise gives the capture of the leftmost block; the older branch in src/utils/version.ts:42-45 is the same expression and gets the same contract |
| LockFiles.YarnLockVersionNonEmpty | src/doctor/utils/version.ts:46 | a version from the yarn branch is never empty |
| LockFiles.ExtractVersionFromPackageLock | src/doctor/utils/version.ts:38-63 | an unknown lock type gives undefined; yarn never throws and is undefined exactly when no block matches; npm gives undefined when no key of `packages` mentions the name case-insensitively and throws when `packages` is missing or null |
| LockFiles.NpmLockUsesFirstMatchingKey | src/doctor/utils/version.ts:53-58 | with `packages` present, npm gives the `version` of the first key, in key order, that mentions the name case-insensitively |
| LockFiles.ExtractVersionFromPackageLockLegacy | src/utils/version.ts:37-52 | an unknown lock type gives undefined; yarn never throws; npm reads `dependencies[name].version` by exact key and throws when the package or `dependencies` is absent |
| LockFiles.DependencyEntry | src/utils/version.ts:48 | `json.dependencies[name]` is the value listed under that exact key, and throws when `dependencies` is absent |
| LockFiles.ExtractVersionFromPackageJson | src/doctor/utils/version.ts:65-72 | `extractVersionFromPackageJson` returns `dependencies[name]` unchanged, undefined when the key is absent, and throws when `dependencies` is missing |
| Xcode.Items | src/doctor/checks/ios.ts:205-207 | a plist element that is a single string is read as a list of that one string |
| Xcode.FieldHasItems | src/doctor/checks/ios.ts:205-219 | the `Array.isArray ? includes : ===` test on an element holds exactly when the value is one of the element's strings |
| Xcode.IsNotificationServiceExtension | src/doctor/checks/ios.ts:203-227 | the predicate throws exactly when the dictionary or its nested `dict` is missing, is false when there are several nested dictionaries (the parser then gives a list, whose `key` and `string` are undefined), and is true exactly when there is one nested `dict`, `key` has `NSExtension`, `dict.key` has `NSExtensionPointIdentifier` and `dict.string` has `com.apple.usernotifications.service`, each as a single string or in a list; the older copy in src/checks/ios.ts:159-183 is the same expression and gets the same contract |
| Xcode.NseMixedFieldShapes | src/doctor/checks/ios.ts:205-219 | each of the three tests reads its element on its own, so a list for one and a single string for another are accepted together |
| Xcode.SeveralNestedDictsAreNotNse | src/doctor/checks/ios.ts:210-219 | a plist dictionary with two nested dictionaries is not an NSE even when one of them names the notification service |
| Xcode.ExtensionIsNotApplication | src/checks/ios.ts:71-98 | no target is both an app extension and an application, so the two branches of the target loops exclude each other |
| Xcode.EmbeddingStep | src/doctor/checks/ios.ts:132-158 | the two embedding flags after one more target grow by what that target's build phases contribute, and `Embed App Extensions` takes precedence over `Embed Foundation Extensions` on the same target |
| Xcode.InferredDirectoryName | src/doctor/checks/ios.ts:91-92 | the directory is the target's name when it has one, and reading `productReference_comment` of a target without name or comment throws |
| Xcode.ConfirmNse | src/doctor/checks/ios.ts:91-108 | an app extension's Info.plist is read from the inferred directory under the iOS project path; a missing name, an unreadable or unparsable plist, or a plist without `plist` throws, and otherwise the NSE predicate decides |
| Xcode.DeploymentSetting | src/doctor/checks/ios.ts:266-269 | the deployment target a configuration provides is present only when it is a non-empty text |
| Xcode.FirstDeploymentTarget | src/doctor/checks/ios.ts:260-274 | none exactly when no configuration in the list provides a deployment target; otherwise the one of the first such configuration in section order |
| Xcode.FirstProviderWins | src/doctor/checks/ios.ts:261-270 | the first configuration, in section order, that provides a deployment target is the one returned |
| Xcode.ExtensionDeploymentTarget | src/doctor/checks/ios.ts:230-275 | `getDeploymentTargetVersion(project, target)` is null unless the target is an app extension; for an app extension it throws exactly when its configuration list is missing, and otherwise gives the first deployment target in its list |
| Xcode.EarlierConfigurationWins | src/doctor/checks/ios.ts:261-270 | configurations after one that provides a deployment target are never consulted |
| Xcode.FirstAppExtension | src/checks/ios.ts:194-210 | the first app-extension target in section order, and none exactly when there is no app extension |
| Xcode.ProjectDeploymentTarget | src/checks/ios.ts:186-228 | `getDeploymentTargetVersion(project)` is null without an app extension, and is otherwise the deployment target of the first app extension |
| Xcode.ProjectDeploymentTargetIgnoresLaterTargets | src/checks/ios.ts:194-210 | only the first app extension matters, because of the `break`, whatever targets follow it and whether or not its plist is an NSE |
| Xcode.DeploymentLevel | src/doctor/checks/ios.ts:117-128 | the deployment line is a success exactly when the target is present and parses to at least 13, and a failure otherwise (a null target parses to NaN) |
| Xcode.MeetsMinimumByIntegerPart | src/doctor/checks/ios.ts:117-121 | for a version written as digits followed by a non-digit, the number the digits denote decides the comparison with 13 |
| Xcode.NineIsBelowMinimum | src/doctor/checks/ios.ts:117-121 | versions compare as numbers, not as texts: `9.0` is below the minimum and `13.0` meets it |
| Xcode.LeadingDecimal | src/doctor/checks/ios.ts:117 | `parseFloat` reads, after leading whitespace, a sign, integer digits and an optional point with fraction digits; it reads nothing (NaN) exactly when there is no digit in that prefix |
| Xcode.DropLeadingZeros | src/doctor/checks/ios.ts:122-124 | printing drops only zeros from the front of the integer digits, leaving digits that do not start with `0` |
| Xcode.DropTrailingZeros | src/doctor/checks/ios.ts:122-124 | printing drops only zeros from the end of the fraction digits, leaving digits that do not end with `0` |
| Xcode.NumberText | src/doctor/checks/ios.ts:122-124 | a number prints starting with a digit or a minus sign |
| Xcode.ParseFloatText | src/doctor/checks/ios.ts:117-124 | `${parseFloat(target)}` is `NaN` exactly when the target is null or has no leading number |
| Xcode.CanonicalTextRoundTrip | src/doctor/checks/ios.ts:117-124 | a number in JavaScript's printed form (no redundant zeros) is read and printed back unchanged |
| Xcode.CanonicalReads | src/doctor/checks/ios.ts:117 | a printed number reads back as its own integer and fraction digits |
| Xcode.CanonicalPrints | src/doctor/checks/ios.ts:122-124 | the digits of a printed number print as that number |
| Xcode.VersionPrints | src/doctor/checks/ios.ts:117-124 | a version `<digits>.<zeros>` followed by anything that is not a digit prints as its integer digits |
| Xcode.IntegerPrints | src/doctor/checks/ios.ts:122-124 | digits without a leading zero and a fraction of zeros print as the digits alone |
| Xcode.ParseFloatDropsZeroFraction | src/doctor/checks/ios.ts:117-124 | the setting `13.0` is logged as `13` |
| Xcode.ParseFloatStopsAtSecondPoint | src/doctor/checks/ios.ts:117-124 | the setting `14.0.1` is logged as `14` |
| Xcode.ParseFloatKeepsFraction | src/doctor/checks/ios.ts:117-124 | the setting `15.6` is logged as `15.6` |
| Xcode.MeetingMinimumPrintsNumber | src/doctor/checks/ios.ts:117-124 | a target that meets the minimum is read as a non-negative number whose integer part is at least 13, and prints neither as `NaN` nor with a minus sign |
| Xcode.Verdict | src/doctor/checks/ios.ts:161-185 | the `if`/`else if` chain after the loop: more than one NSE, none, exactly one embedded, exactly one in a Foundation phase only, and exactly one without either, each exactly in its case |
| Xcode.VerdictLevel | src/checks/ios.ts:125-141 | the embedded case is a success, the Foundation case is at the level of the revision, and the other three are failures |
| Xcode.SucceedsWithOneEmbeddedExtension | src/doctor/checks/ios.ts:161-185 | with the Foundation case a success, the check succeeds exactly when there is one NSE and one of the embedding phases |
| Xcode.WarnsOnFoundationExtension | src/checks/ios.ts:125-141 | with the Foundation case a warning, only one NSE with `Embed App Extensions` succeeds, and one NSE with only `Embed Foundation Extensions` is exactly the warning |
| NseLoop.ThrownStays | src/doctor/checks/ios.ts:75-159 | once the loop over the targets has thrown, later targets change nothing |
| NseLoop.ScannedThrows | src/doctor/checks/ios.ts:75-159 | after some targets the loop has thrown exactly when one of them threw |
| NseLoop.ScannedFlags | src/doctor/checks/ios.ts:140-157 | until the loop throws, `isEmbedded` and `isFoundationExtension` are set exactly when some target set them |
| NseLoop.ScannedCount | src/doctor/checks/ios.ts:108-110 | until the loop throws, `extensionCount` is the number of targets the body counts |
| NseLoop.EmbeddingMeaning | src/doctor/checks/ios.ts:132-158 | the flags the targets set are exactly the ones the application targets' build phases call for |
| NseLoop.ScanResult | src/doctor/checks/ios.ts:75-159 | when the loop does not throw, it ends with the number of targets the body counts and the two flags the application targets' phases call for |
| Entitlements.ScanAtMeaning | src/constants/patterns.ts:14 | the scanner accepts at a position exactly when `<key>\s*aps-environment\s*</key>` matches there |
| Entitlements.TestFromMeaning | src/constants/patterns.ts:14 | the scan from a position succeeds exactly when the scanner accepts somewhere at or after it |
| Entitlements.HasPushEnvironmentMeaning | src/constants/patterns.ts:14 | the scanner agrees with the regular expression on every text |
| Entitlements.UndefinedHasNoPushEnvironment | src/checks/ios.ts:268-270 | the text `undefined`, which a missing file's content is matched as, holds no entitlement |
| Entitlements.SpacedKeyIsRecognised | src/constants/patterns.ts:14 | an entitlement key with any whitespace around the name is recognised |
| DoctorIos.DeploymentLog | src/doctor/checks/ios.ts:117-128 | a confirmed NSE's deployment line is at the deployment level and shows the number `parseFloat` read (as `Xcode.ParseFloatText` prints it), and the minimum-version error follows exactly when it is a failure |
| DoctorIos.DeploymentLogOfThirteen | src/doctor/checks/ios.ts:117-128 | a `13.0` setting gives the single success line `Deployment Target for NSE: 13` |
| DoctorIos.DeploymentLogOfMissing | src/doctor/checks/ios.ts:117-128 | a missing setting gives the failure line with `NaN` and then the error |
| DoctorIos.Outcomes | src/doctor/checks/ios.ts:75-159 | one loop-body outcome per native target |
| DoctorIos.OutcomeAt | src/doctor/checks/ios.ts:75-159 | the outcome at each index is the loop body's outcome for the target at that index, in section order |
| DoctorIos.OutcomeMeaning | src/doctor/checks/ios.ts:85-130 | a target throws exactly when its plist cannot be examined or it is a confirmed NSE whose configuration list is missing, and otherwise is counted exactly when its plist confirms an NSE |
| DoctorIos.ExtensionSetsNoFlag | src/doctor/checks/ios.ts:85-130 | the app-extension branch sets neither embedding flag |
| DoctorIos.OutcomePhases | src/doctor/checks/ios.ts:132-158 | a target sets an embedding flag exactly when it is an application target with the matching build phase |
| DoctorIos.OutcomesMeaning | src/doctor/checks/ios.ts:75-159 | the two statements above hold for every target of the project |
| DoctorIos.VerdictLog | src/doctor/checks/ios.ts:161-185 | the verdict's first line is at the verdict's level, with the Foundation case a success, and an error line follows exactly for "not embedded" and "not found" |
| DoctorIos.NseRunMeaning | src/doctor/checks/ios.ts:64-186 | the check throws exactly when some target fails; otherwise the verdict, logged after the per-target lines, is the one for the number of plist-confirmed NSEs and the embedding phases of the application targets |
| DoctorIos.ScanMeaning | src/doctor/checks/ios.ts:75-159 | over outcomes that agree with their targets, the loop throws exactly when some target fails, and otherwise ends with the plist-confirmed count and the flags the application targets' phases call for |
| DoctorIos.GetDeploymentTargetVersion | src/doctor/checks/ios.ts:230-275 | the loop with its early return gives the deployment target of the target as stated by `Xcode.ExtensionDeploymentTarget` |
| DoctorIos.InspectExtension | src/doctor/checks/ios.ts:85-130 | the app-extension branch of the loop body gives the outcome `OutcomeOf` specifies for that target |
| DoctorIos.InspectTarget | src/doctor/checks/ios.ts:76-158 | one pass of the loop body gives the outcome specified for the target at that index |
| DoctorIos.ValidateNotificationServiceExtension | src/doctor/checks/ios.ts:64-186 | the loop with its mutable counter and flags, and the verdict after it, produce exactly the run `NseRunMeaning` characterises |
| DoctorIos.AnalyzeNotificationServiceExtensionProperties | src/doctor/checks/ios.ts:48-57 | the NSE check runs for each project file in turn, and an exception in one ends the analysis |
| DoctorIos.EntitlementsLog | src/doctor/checks/ios.ts:381-388 | the entitlements line is a success exactly when the capability was found |
| DoctorIos.ValidatePushEntitlements | src/doctor/checks/ios.ts:369-389 | the loop accumulating `allRequirementsMet` logs the line for whether some file passed the pattern test |
| DoctorIos.PushCapabilityMeaning | src/doctor/checks/ios.ts:370-379 | the check succeeds exactly when some entitlements file has content that matches the pattern; an empty file list fails |
| DoctorIos.ValidateNoConflictingSdks | src/doctor/checks/ios.ts:391-420 | nothing is logged without CocoaPods; an empty or absent Podfile.lock gives exactly the "No Podfile.lock" error; otherwise the first line is a success exactly when no listed pod occurs in the lock file |
| DoctorIos.PodVersions | src/doctor/checks/ios.ts:437-440 | the versions of a pod are undefined exactly when the lock file is empty or absent or has no pod line for it |
| DoctorIos.PodEntry | src/doctor/checks/ios.ts:442-446 | at most one line: the versions as a success when present, a failure for a missing required pod, nothing for a missing optional pod, never an error |
| DoctorIos.ValidatePod | src/doctor/checks/ios.ts:436-448 | `validatePod` reports the pod found exactly when its versions are defined, and logs its pod line |
| DoctorIos.ExtractPodVersions | src/doctor/checks/ios.ts:432-461 | the four `validatePod` calls and the both-push-pods test log exactly the pod report |
| DoctorIos.PodVersionsLogMeaning | src/doctor/checks/ios.ts:450-460 | the report has the both-push-pods error exactly when the lock file has a pod line for both push pods, and its first line is the tracking pod's versions or its failure |
| DoctorIos.ValidateDependencies | src/doctor/checks/ios.ts:422-430 | with CocoaPods the pod report, without it the Swift Package Manager warning |
| DoctorIos.ModuleInitializationFrom | src/doctor/checks/ios.ts:286 | the scan from a position succeeds exactly when the scanner accepts somewhere at or after it |
| DoctorIos.HasModuleInitialization | src/doctor/checks/ios.ts:286 | a text that passes `/MessagingPush\w*\.initialize/` contains `.initialize` |
| DoctorIos.HasModuleInitializationMeaning | src/doctor/checks/ios.ts:286 | the scanner agrees with the regular expression on every text |
| DoctorIos.ModuleInitializationVariants | src/doctor/checks/ios.ts:282-286 | `MessagingPush` followed by any run of word characters and `.initialize` is recognised, so `MessagingPushAPN.initialize` and `MessagingPushFCM.initialize` are |
| DoctorIos.InitializationConfig | src/doctor/checks/ios.ts:288-297 | both searches look at `.swift`, `.m` and `.mm` files named `AppDelegate` or matching one of four keywords |
| DoctorIos.InitializationLog | src/doctor/checks/ios.ts:301-323 | one line, a success exactly when some file matched |
| DoctorIos.ValidateInitialization | src/doctor/checks/ios.ts:326-367 | the SDK and MessagingPush initialization checks log the line for the files the code search of the iOS project directory matched (intended `path.extname` reading of the extension, see Findings) |
| DoctorIos.InitializationFoundOnlyInSearchedFiles | src/doctor/checks/ios.ts:287-299 | every file the search reports as a match is among the files it searched (intended `path.extname` search, see Findings) |
| DoctorIos.RunChecks | src/doctor/checks/ios.ts:22-46 | Diagnostics logs nothing, Initialization runs the SDK search, PushSetup runs entitlements, the NSE analysis and the MessagingPush search, and Dependencies runs the conflict check then the dependency report, each check isolated by `runCatching`; the searches use the intended `path.extname` reading of the extension (see Findings) |
| IosChecks.ReadAt | src/checks/ios.ts:268 | `readFileContent` of an undefined path gives undefined, and of a path gives that file's content |
| IosChecks.ParseAt | src/checks/ios.ts:30-32 | parsing the project at an undefined path fails, and at a path gives the parser's result |
| IosChecks.Outcomes | src/checks/ios.ts:61-123 | one loop-body outcome per native target |
| IosChecks.OutcomeAt | src/checks/ios.ts:61-123 | the outcome at each index is the loop body's outcome for the target at that index, in section order |
| IosChecks.ExtensionOutcomeMeaning | src/checks/ios.ts:71-94 | the app-extension branch throws exactly when reading its plist throws, counts exactly the plist-confirmed NSEs, and sets no embedding flag |
| IosChecks.OutcomeMeaning | src/checks/ios.ts:62-122 | a target throws exactly when it is an app extension whose plist cannot be examined, is counted exactly when its plist confirms an NSE, and sets a flag exactly when it is an application with the matching phase |
| IosChecks.VerdictLines | src/checks/ios.ts:125-141 | one verdict line, at the verdict's level with the Foundation case a warning |
| IosChecks.NseRunMeaning | src/checks/ios.ts:52-142 | the check throws exactly when some app extension's plist cannot be examined; otherwise the verdict, after the per-target lines, is the one for the number of plist-confirmed NSEs and the embedding phases, with the Foundation case a warning |
| IosChecks.InspectTarget | src/checks/ios.ts:62-122 | one pass of the loop body gives the outcome specified for the target at that index |
| IosChecks.VerifyNotificationServiceExtension | src/checks/ios.ts:52-142 | the loop with its mutable counter and flags, and the verdict after it, produce exactly the run `NseRunMeaning` characterises |
| IosChecks.GetDeploymentTargetVersion | src/checks/ios.ts:186-228 | the loop with its `break` and early return gives the deployment target of the first app-extension target as stated by `Xcode.ProjectDeploymentTarget`; the copy in run-diagnostics.ts:70-101 is the same code and gets the same contract |
| IosChecks.ExtensionTargetVersion | src/checks/ios.ts:202-225 | for an app-extension target: throws exactly when its configuration list is missing, and otherwise gives the deployment target of the first configuration in section order that is on the list and sets one, as stated by `Xcode.ExtensionDeploymentTarget` |
| IosChecks.NullableText | src/checks/ios.ts:41-43 | a present deployment target is written as itself |
| IosChecks.DeploymentRun | src/checks/ios.ts:40-43 | the deployment report throws exactly when resolving the target throws, and otherwise is the one result line with the target's text |
| IosChecks.ProjectRunMeaning | src/checks/ios.ts:29-44 | a project file that cannot be parsed ends the check with nothing logged for it; otherwise its heading line comes first, then the NSE lines and the deployment line, and it throws exactly when the NSE check or the deployment lookup does |
| IosChecks.CheckProjectFile | src/checks/ios.ts:30-43 | the check of one project file gives the run `ProjectRunMeaning` characterises |
| IosChecks.ValidateDeploymentTarget | src/checks/ios.ts:28-45 | every project file is checked in turn, and an exception ends the loop |
| IosChecks.DelegateStep | src/checks/ios.ts:242-250 | `allRequirementsMet \|\| test`: the test runs only while nothing has matched, throws exactly on a Swift file without text, and otherwise the flag becomes whether any file so far matched |
| IosChecks.DelegateThrows | src/checks/ios.ts:234-253 | the loop throws exactly when a Swift file without text comes before every file that shows the method; otherwise the flag says whether some file shows it |
| IosChecks.DelegateLines | src/checks/ios.ts:236 | until it throws, the loop logs one line per file, naming its path |
| IosChecks.DelegateVerdict | src/checks/ios.ts:255-259 | the verdict line is a success exactly when the requirement was met |
| IosChecks.ValidateUserNotificationCenterDelegate | src/checks/ios.ts:230-260 | the loop over the AppDelegate files gives exactly the run `DelegateRunMeaning` characterises |
| IosChecks.ThrownStaysDelegate | src/checks/ios.ts:234-253 | once the delegate loop has thrown, later files change nothing |
| IosChecks.DelegateRunMeaning | src/checks/ios.ts:230-260 | the check throws exactly when a Swift file without text comes before every file showing the method; otherwise it logs one line per file and a verdict that succeeds exactly when a Swift file contains `func userNotificationCenter(` or an Objective-C(++) file passes the pattern |
| IosChecks.EntitlementsVerdict | src/checks/ios.ts:273-277 | the verdict line is a success exactly when the capability was found |
| IosChecks.ValidatePushEntitlements | src/checks/ios.ts:262-278 | one line per entitlements file, then the verdict for whether some file passed the test |
| IosChecks.EntitlementFoundMeaning | src/checks/ios.ts:263-271 | the check succeeds exactly when some file that could be read holds the `aps-environment` key; no file means failure |
| IosChecks.NoConflictingSdksLog | src/checks/ios.ts:280-300 | a heading line, then a failure without lock-file text, otherwise a success exactly when no listed pod occurs in the lock file and a warning exactly when one does |
| IosChecks.PodSummaryEntry | src/checks/ios.ts:312-324 | a required pod's entry is an info line when its versions are truthy and a failure otherwise |
| IosChecks.PushSummaryEntry | src/checks/ios.ts:352-376 | the push entry is a failure exactly when both APN and FCM are found, an info line with the found pod's versions exactly when one is, and a warning exactly when neither is |
| IosChecks.PodPatterns.constructor | src/constants/patterns.ts:18-23 | the four shared global pod patterns start at rest, one per pod |
| IosChecks.ExtractPodVersions | src/checks/ios.ts:385-403 | on a shared pattern at rest, the result is the pod's version summary, undefined exactly when no pod line occurs, and the pattern is left at rest for the next call |
| IosChecks.CollectSummary | src/checks/ios.ts:302-383 | exactly three entries are appended, tracking, in-app and push, and none is removed; the shared patterns stay at rest |
| IosChecks.RunLoggedChecks | src/checks/ios.ts:21-24 | the four logged checks run in order, each under `runCatching`, so an exception in one is logged and the next still runs |
| IosChecks.RunAllChecks | src/checks/ios.ts:17-26 | the four logged checks, then the three summary entries appended |
| IosChecks.AsWrittenIgnoresFiles | src/checks/ios.ts:30-281 | as written every file is read at `undefined`: the deployment check parses the project file at `undefined` and throws at the first project file (line 30), no AppDelegate file ever shows the delegate method (line 235), the entitlements check always fails (line 266), and the conflict check always reports a missing Podfile.lock (line 281) |
| IosChecks.EntitlementsFoundOnlyAsIntended | src/checks/ios.ts:262-278 | an entitlements file holding the key is found as intended and missed as written |
| CodeSearch.LastDot | src/utils/code.ts:93 | the position of the last `.` of a name, and none when it has no `.` |
| CodeSearch.Extname | src/utils/code.ts:93 | `path.extname` is empty or a `.` followed by no further `.`, a proper suffix of the name |
| CodeSearch.TargetExtensions | src/utils/code.ts:78 | one target extension per entry of `codePatternByExtension` |
| CodeSearch.PatternOf | src/utils/code.ts:120 | an extension has a code pattern exactly when it is one of the record's extensions |
| CodeSearch.CodePatternFor | src/utils/code.ts:120 | `codePatternByExtension[extension]` is present exactly for a defined extension that is a key of the record |
| CodeSearch.InspectionPatterns | src/utils/code.ts:79-85 | one name pattern per target file name, then one keyword pattern per target pattern |
| CodeSearch.Visit | src/utils/code.ts:75-76 | an unreadable or empty directory contributes nothing |
| CodeSearch.StringSet.constructor | src/utils/code.ts:56 | a new `Set` is empty |
| CodeSearch.StringSet.Add | src/utils/code.ts:121 | `set.add(x)` appends a new value and leaves a set already holding it unchanged, so the set keeps insertion order and no duplicates |
| CodeSearch.AddedValue | src/utils/code.ts:121 | the distinct values of a sequence extended by one value are the distinct values of the sequence with that value added to the set |
| CodeSearch.UniqueValuesAbsorbs | src/utils/code.ts:121 | adding further values to an already de-duplicated sequence gives the distinct values of the whole, in first-insertion order |
| CodeSearch.SearchFilesRecursivelyForCode | src/utils/code.ts:68-130 | the recursive walk returns exactly the matching readable paths the walk specification finds, and leaves in the shared set its old values followed by every path the walk inspected, without duplicates |
| CodeSearch.SearchedStep | src/utils/code.ts:121 | recording one entry's inspected paths after those seen before gives the set of all of them |
| CodeSearch.InspectEntry | src/utils/code.ts:98-126 | the loop body for one entry, a file or a whole subdirectory, returns that entry's matches and records its inspected paths |
| CodeSearch.SearchFilesForCode | src/utils/code.ts:51-66 | `searchFilesForCode` always returns a result, holding the matching files and the searched files in insertion order without duplicates, and the configuration |
| CodeSearch.FormattedMatchedFiles | src/utils/code.ts:29-33 | undefined exactly when nothing matched; a single match is quoted |
| CodeSearch.FormattedTargetFileNames | src/utils/code.ts:36-38 | the target file names joined by `", "`: empty for none, the name itself for one |
| CodeSearch.FormattedTargetPatterns | src/utils/code.ts:41-43 | the target keywords joined by `", "`: empty for none, the keyword itself for one |
| CodeSearch.FormattedSearchedFiles | src/utils/code.ts:46-48 | the searched files joined by `", "`: empty for none, the path itself for one |
| CodeSearch.FormattedMatchedFilesAppend | src/utils/code.ts:29-33 | one more matched file extends the formatted list by `, ` and that file in single quotes |
| CodeSearch.FormattedSearchedFilesAppend | src/utils/code.ts:46-48 | one more searched file extends the formatted list by `, ` and that file |
| CodeSearch.MatchedAreSearched | src/utils/code.ts:121-124 | every matched file was also recorded as searched, because it is added to the set before its content is matched |
| CodeSearch.UndefinedExtensionFindsNothing | src/utils/code.ts:93-120 | with `linkStat.extension` undefined, as written, no file passes the validity test, so the walk searches and matches nothing |
| CodeSearch.FileInspectedIff | src/utils/code.ts:87-121 | a regular file, reached directly or through a link, is inspected exactly when its name is not ignored, its extension is a key of the code patterns and some inspection pattern accepts its name |
| CodeSearch.UnreadableFileSearchedNotMatched | src/utils/code.ts:119-124 | an inspected file that cannot be read, or is empty, is recorded as searched and never matched |
| CodeSearch.IgnoredEntryContributesNothing | src/utils/code.ts:88-104 | an entry whose name the ignore rule rejects is neither entered nor inspected |
| FileSearch.Concat | src/utils/file.ts:87-89 | joining two parts of a walk throws exactly when one of them throws, and otherwise concatenates them |
| FileSearch.Candidates | src/utils/file.ts:73 | the candidate paths a walk tests, in listing order; a walk starting at a directory that cannot be listed raises |
| FileSearch.CandidatesFromStep | src/utils/file.ts:74-95 | the walk from one entry on is that entry's part followed by the walk over the remaining entries |
| FileSearch.MergeResults | src/utils/file.ts:87-89 | merging a subdirectory's results keeps exactly the keys of the results |
| FileSearch.RecordMatch | src/utils/file.ts:91-93 | recording a file keeps exactly the keys of the results |
| FileSearch.MergeKeepsFiltered | src/utils/file.ts:87-89 | merging per-key results of two parts of a walk gives the per-key results of the whole |
| FileSearch.RecordKeepsFiltered | src/utils/file.ts:91-93 | testing one more file against every filter extends the per-key results by it exactly under the keys whose filter accepts it |
| FileSearch.SearchFileInDirectory | src/utils/file.ts:64-100 | `searchFileInDirectory` raises exactly when a directory it enters cannot be listed; otherwise it has a key for every filter, each holding, in walk order, exactly the candidate paths that filter accepts (so a file may appear under several keys) |
| FileSearch.SearchEntry | src/utils/file.ts:74-94 | one entry's task: an ignored path adds nothing, a sub-directory that cannot be listed raises, otherwise the per-key results grow by exactly that entry's candidates, filtered per key |
| FileSearch.SearchResultsAreFilteredCandidates | src/utils/file.ts:79-93 | every reported path passed its filter and contains none of the ignored substrings |
| FileSearch.NoCandidateIgnored | src/utils/file.ts:79 | no path the walk tests contains an ignored substring |
| FileSearch.IgnoredDirectoryIsNotEntered | src/utils/file.ts:79-86 | an ignored directory is not entered: it adds nothing and raises nothing even when it cannot be listed |
| FileSearch.LinkIsMatchedNotFollowed | src/utils/file.ts:76-94 | `lstatSync` does not follow links, so a link is matched against the filters like a file and never descended into |
| FileSearch.UnreadableSubdirectoryRaises | src/utils/file.ts:73-86 | a subdirectory that cannot be listed makes the whole search raise |
| FileSearch.IgnoredByOne | run-diagnostics.ts:14 | the `/Pods/` test of the legacy walk is the ignore test with `/Pods/` as the only ignored substring |
| FileSearch.SearchWithCallbackReaddir | run-diagnostics.ts:7-29 | the legacy walk as written awaits the callback `fs.readdir` without a callback, so every call rejects |
| FileSearch.SearchWithFilter | run-diagnostics.ts:7-29 | the legacy walk as intended raises exactly when a directory cannot be listed, and otherwise returns the candidate paths, `/Pods/` paths skipped, that the filter accepts |
| FileSearch.EscapedExtensionAccepts | run-diagnostics.ts:113 | a pattern made of an escaped extension accepts every path ending in that extension |
| FileSearch.ProjectFileAccepted | run-diagnostics.ts:113 | `/\.pbxproj$/` accepts `/app/app.pbxproj` |
| FileSearch.CallbackReaddirLosesProjectFiles | run-diagnostics.ts:9 | a project holding one `.pbxproj` file that the project filter accepts: the intended walk reaches it, the walk as written rejects |
| Logging.Completed | src/utils/helpers.ts:9-10 | a check that returns normally leaves exactly its own lines and does not throw |
| Logging.RunCatching | src/utils/helpers.ts:3-19 | `runCatching` keeps every line the check logged; a check that returns adds nothing, and one that throws adds exactly one error line naming the function, so nothing reaches the caller |
| Logging.AndThen | src/checks/react_native.ts:12-19 | two awaited steps: a throw in the first ends the run unchanged; otherwise the lines are concatenated and the run throws exactly when the second step does |
| Logging.RunEachThrows | run-diagnostics.ts:125-138 | a loop of awaited checks with nothing to catch throws exactly when the check of some item throws |
| Logging.RunEachStopsAtThrow | run-diagnostics.ts:125-138 | once the check of an item throws, later items are not examined: the outcome stays that of the prefix |
| Logging.SummaryLog.constructor | src/core/projects.ts:215 | a project's summary starts empty |
| Logging.SummaryLog.Push | src/checks/react_native.ts:34 | `summary.push(entry)` appends exactly that entry and keeps the earlier ones |
| ReactNativeChecks.InitFileIn | src/checks/react_native.ts:86-87 | an unreadable or empty directory gives undefined |
| ReactNativeChecks.EntryInitFile | src/checks/react_native.ts:92-120 | a hidden, `_`, `node_modules`, unstattable or symbolic-link entry contributes nothing; a regular file gives its own name exactly when it is a listed inspection file whose content contains `CustomerIO.initialize` |
| ReactNativeChecks.HitsIn | src/checks/react_native.ts:115-119 | every hit of the reference walk is one of the listed inspection file names |
| ReactNativeChecks.HitsFrom | src/checks/react_native.ts:89-121 | every hit from a given entry on is one of the listed inspection file names |
| ReactNativeChecks.EntryHits | src/checks/react_native.ts:110-120 | every hit of one entry is one of the listed inspection file names |
| ReactNativeChecks.First | src/checks/react_native.ts:111-114 | the first element, and undefined exactly for an empty sequence |
| ReactNativeChecks.InitFileIsFirstHit | src/checks/react_native.ts:82-124 | the search returns the first hit of the whole tree in depth-first listing order, and undefined exactly when the tree has none |
| ReactNativeChecks.InitFileFromIsFirstHit | src/checks/react_native.ts:89-123 | the loop from a given entry on returns the first hit from that entry on |
| ReactNativeChecks.EntryInitFileIsFirstHit | src/checks/react_native.ts:110-120 | one entry gives its own first hit |
| ReactNativeChecks.InitFileIsListedName | src/checks/react_native.ts:115-118 | a found initialization file is reported by its bare listed name, never a path |
| ReactNativeChecks.EarlierHitWins | src/checks/react_native.ts:111-118 | a hit in an earlier entry decides the search: later entries of the directory are not looked at |
| ReactNativeChecks.SearchFilesForSdkInitialization | src/checks/react_native.ts:82-124 | the loop with `continue`, `break` and early `return` returns exactly the first hit of the tree |
| ReactNativeChecks.InitializationLog | src/checks/react_native.ts:57-68 | the checking line, then a success exactly when a file was found and a warning exactly when none was |
| ReactNativeChecks.ValidateSdkInitialization | src/checks/react_native.ts:54-69 | logs the verdict for the first hit of the project tree |
| ReactNativeChecks.ConflictingLibraries | src/checks/react_native.ts:40-42 | a library is reported exactly when it is both listed and a dependency; none is reported exactly when no listed library is a dependency |
| ReactNativeChecks.ConflictsInListOrder | src/checks/react_native.ts:40-42 | conflicts are reported in list order: filtering a split list is filtering each part |
| ReactNativeChecks.DependencyNames | src/checks/react_native.ts:29-30 | reading the dependency names throws exactly when reading `dependencies` of the document throws (a missing or null document) |
| ReactNativeChecks.ConflictsRun | src/checks/react_native.ts:21-52 | the checking line first; a throw right after it exactly when the SDK's dependency entry cannot be read; otherwise one verdict, a success exactly when no listed library is a dependency |
| ReactNativeChecks.ConflictsSummary | src/checks/react_native.ts:32-38 | the version entry is pushed exactly when reading the SDK's dependency does not throw, and then holds that dependency's value |
| ReactNativeChecks.ValidateNoConflictingSdks | src/checks/react_native.ts:21-52 | logs the conflict verdict and appends exactly the version entry to the project summary |
| ReactNativeChecks.LockFileVersion | src/checks/react_native.ts:134-150 | only an npm lock file can throw; a yarn lock file gives a version exactly when its block pattern matches; an npm lock file that lists the SDK gives its `version` member |
| ReactNativeChecks.LockFileSummary | src/checks/react_native.ts:127-165 | no lock file, or one without content, gives the warning; only an npm lock file can throw; an info entry needs a yarn or npm lock file with content |
| ReactNativeChecks.LockVersionEntry | src/checks/react_native.ts:152-164 | the entry is an info line exactly when the version read is truthy |
| ReactNativeChecks.YarnLockSummary | src/checks/react_native.ts:137-164 | a yarn lock file never throws: it gives the info line with the captured version, or the not-found warning |
| ReactNativeChecks.NpmLockWithoutSdkThrows | src/checks/react_native.ts:147-149 | an npm lock file that does not list the SDK under `dependencies` makes the block throw, so no entry is pushed |
| ReactNativeChecks.ReactNativePodMatches | src/checks/react_native.ts:174-176 | every whole match of the global pod pattern is non-empty, hence truthy |
| ReactNativeChecks.PodfileLockSummary | src/checks/react_native.ts:170-189 | the block throws exactly when the Podfile.lock has no content; as written it gives an info line exactly when the pod pattern matches at least twice |
| ReactNativeChecks.PodfileLockSummaryIntended | src/checks/react_native.ts:170-189 | the intended block throws exactly when there is no content, and gives an info line exactly when some pod line matches |
| ReactNativeChecks.SinglePodLineMatches | src/checks/react_native.ts:174-176 | a Podfile.lock with one pod line has exactly one match, capturing its version |
| ReactNativeChecks.SinglePodLineIsNotFound | src/checks/react_native.ts:177-188 | as written, a Podfile.lock recording the pod once is reported as not listing it; as intended its version is reported |
| ReactNativeChecks.Completed | src/checks/react_native.ts:153-163 | a block pushes its entry exactly when it did not throw |
| ReactNativeChecks.Caught | src/checks/react_native.ts:166-168 | a block's `catch` logs one error line exactly when the block threw, and nothing otherwise |
| ReactNativeChecks.SummaryAccountsForBothBlocks | src/checks/react_native.ts:126-196 | each of the two blocks either pushes its entry or logs an error line, never both and never neither |
| ReactNativeChecks.PodfileBlockIndependent | src/checks/react_native.ts:170-195 | the Podfile.lock block's outcome does not depend on what happened to the lock file |
| ReactNativeChecks.CollectSummary | src/checks/react_native.ts:126-196 | logs exactly the caught errors and appends exactly the entries of the blocks that completed, the Podfile.lock one read as intended (`PodfileLockSummaryIntended`, see Findings) |
| ReactNativeChecks.AllChecksLog | src/checks/react_native.ts:12-19 | the initialization check's two lines come first, then the conflict check's checking line, whatever the conflict check and the summary do |
| ReactNativeChecks.RunAllChecks | src/checks/react_native.ts:12-19 | the initialization search, the conflict check and the summary run in order, each under `runCatching`, and the summary gains the conflict check's entry followed by the two blocks' entries; it composes the intended Podfile.lock summary (`PodfileLockSummaryIntended`), not the one the source writes (see Findings) |
| ReactNativeCheckGroups.NoConflictingSdksRun | src/checks/reactnative.ts:34-61 | throws, before logging anything, exactly when the SDK's entry under `dependencies` cannot be read; otherwise logs the declared SDK version, then a success exactly when no listed library is a dependency, or a warning and an alert naming the conflicting libraries and the documentation link |
| ReactNativeCheckGroups.MissingDependenciesThrow | src/checks/reactnative.ts:39-42 | the `\|\| {}` guard does not protect the next line: a package.json without `dependencies` lists no dependency names, yet the check throws with nothing logged |
| ReactNativeCheckGroups.InitializationConfig | src/checks/reactnative.ts:66-78 | the search covers `.js`, `.jsx`, `.ts` and `.tsx` sources, ignores `android` and `ios`, and targets files named `App` or `index` or mentioning `cio` or `customerio` |
| ReactNativeCheckGroups.InitializationLogAsWritten | src/checks/reactnative.ts:82-85 | as written the search result is an object, never undefined, so the check always logs one success line |
| ReactNativeCheckGroups.AsWrittenIgnoresResult | src/checks/reactnative.ts:82-88 | as written the logged line does not depend on what the search found |
| ReactNativeCheckGroups.InitializationLog | src/checks/reactnative.ts:82-88 | as intended: one line, a success exactly when some file matched (naming a single match in quotes) and a failure exactly when none did |
| ReactNativeCheckGroups.ValidateSdkInitialization | src/checks/reactnative.ts:63-89 | runs the code search over the project tree and logs the intended verdict on its matches (intended `path.extname` reading of the extension, see Findings) |
| ReactNativeCheckGroups.UnreadableProjectStillSucceeds | src/checks/reactnative.ts:67-88 | a project directory that cannot be listed: the intended check fails, the check as written still reports success |
| ReactNativeCheckGroups.InitializationFoundOnlyInSearchedFiles | src/checks/reactnative.ts:67-80 | every file the initialization search reports as a match is among the files it searched (intended `path.extname` search, see Findings) |
| ReactNativeCheckGroups.PackageLockVersion | src/checks/reactnative.ts:112-128 | without lock text: one warning naming the install command, and undefined; with it: nothing logged and the version the lock file records |
| ReactNativeCheckGroups.PackageFileVersion | src/checks/reactnative.ts:130-140 | undefined without package.json text; otherwise throws exactly when the text does not parse to a value with properties, and for an object gives its top-level SDK key |
| ReactNativeCheckGroups.PackageFileVersionSkipsDependencies | src/checks/reactnative.ts:138-139 | a package.json that declares the SDK only under `dependencies` gives undefined here, where `extractVersionFromPackageJson` gives the range |
| ReactNativeCheckGroups.ResolvedVersion | src/checks/reactnative.ts:94-95 | `lock ?? file`: a throw in the lock file ends the check; an undefined or null lock version falls back to package.json; a usable result is one of the two |
| ReactNativeCheckGroups.SdkVersionLog | src/checks/reactnative.ts:97-109 | a success exactly when the version is truthy and the published one, a warning (followed by the update alert) exactly when truthy and different, a failure naming the lock file exactly when missing |
| ReactNativeCheckGroups.SdkVersionRun | src/checks/reactnative.ts:91-110 | the lock file's lines come first; the check throws exactly when resolving the version throws, and then logs nothing more |
| ReactNativeCheckGroups.LockVersionWins | src/checks/reactnative.ts:94-95 | a lock file that gives a version decides the check: the package.json content does not matter |
| ReactNativeCheckGroups.YarnLockVersionVerdict | src/checks/reactnative.ts:94-104 | a yarn lock recording the published version gives exactly one success line; another version gives a warning and the update alert |
| ReactNativeCheckGroups.RunChecks | src/checks/reactnative.ts:12-32 | each group runs its own check under `runCatching`, and the push-setup group logs nothing; the initialization group logs the intended `SdkInitializationLog`, not the always-successful branch the source writes, over the intended `path.extname` search (see Findings) |
| ReactNativeCheckGroups.DependenciesGroupCatches | src/checks/reactnative.ts:29 | a package.json without `dependencies` leaves exactly one error line in the dependencies group |
| Projects.LoadKeepsText | src/core/projects.ts:44-48 | once a load has given text, later loads keep it, whatever the file holds by then |
| Projects.EmptyContentIsReread | src/core/projects.ts:45 | an empty content is falsy, so the next load reads the file again |
| Projects.File.constructor | src/core/projects.ts:28-42 | a new file resolves its path against the project root, keeps its tags, derives its file name and readable path, and holds content only when asked to load it |
| Projects.File.LoadContent | src/core/projects.ts:44-48 | `loadContent` reads the file only while the content is falsy |
| Projects.OpenFile | src/core/projects.ts:141 | `new File(projectRoot, path, args, true)` gives a new file whose path is resolved against the project root, with the given tags and the content read from that path |
| Projects.OpenFiles | src/core/projects.ts:147-149 | one new, loaded file per found path, in order, each with the given tags |
| Projects.FilesOf | src/core/projects.ts:85-89 | the files of the project-file records, one per record, in order |
| Projects.OpenProjectFiles | src/core/projects.ts:136-145 | the mapping throws exactly when some found project file does not parse; otherwise one new loaded file per path, in order, paired with that path's parsed project |
| Projects.LocateFilters | src/core/projects.ts:116-128 | one filter per file name of the record: the three AppDelegate names, `.entitlements` and `.pbxproj` |
| Projects.LocatedPathsPassFilter | src/core/projects.ts:130-134 | every path `locateFiles` records contains no `/Pods/` and passes its file name's filter |
| Projects.PreferredLockFile | src/core/projects.ts:244-250 | the chosen record is one of the two lock files |
| Projects.PreferredLockFileOrder | src/core/projects.ts:244-248 | equal times, or two missing ones, choose yarn.lock; a missing time loses to any positive one and beats none |
| Projects.LockTypeNamesChoice | src/core/projects.ts:244-258 | the lock file is tagged `yarn` exactly when yarn.lock's time, missing counting as 0, is not older than package-lock.json's |
| Projects.CheckSuites | src/core/projects.ts:205-303 | a React Native project runs its own checks first and the iOS checks last (lines 266-269); a native iOS project (lines 205-207) and a Flutter project (lines 301-303) run only the iOS checks |
| Projects.PodFiles | src/core/projects.ts:102-109 | the Podfile and Podfile.lock of the iOS directory, new and not read |
| Projects.FrameworkFiles | src/core/projects.ts:226-289 | `package.json` exactly for React Native (line 226), `pubspec.yaml` and `pubspec.lock` exactly for Flutter (lines 288-289), each new, at the project root and not read |
| Projects.MobileProject.constructor | src/core/projects.ts:190-290 | a native iOS project searches the project path itself (lines 190-195); React Native (lines 220-227) and Flutter (lines 282-290) projects search `<project>/ios` and get their unread framework files, React Native with no lock file yet; `initIOSProject` sets the Podfile records; no located files, an empty summary |
| Projects.MobileProject.InitIosProject | src/core/projects.ts:100-111 | new Podfile and Podfile.lock under the iOS directory; the project uses CocoaPods exactly when the Podfile exists; the located files are unchanged |
| Projects.MobileProject.LocateFiles | src/core/projects.ts:113-180 | throws, changing nothing, exactly when a directory cannot be listed or a project file does not parse; otherwise appends the opened project files, entitlements files and AppDelegate files (Swift, then Objective-C, then Objective-C++) that the search found |
| Projects.MobileProject.OpenLocated | src/core/projects.ts:136-179 | the mapping half of `locateFiles`: throws, changing nothing, exactly when a project file does not parse, otherwise appends every opened file to its list |
| Projects.MobileProject.AppendLocated | src/core/projects.ts:136-179 | the `concat`s append exactly the files opened from the paths found, in order and with their language tags, and leave the Podfile and lock-file records alone |
| Projects.MobileProject.FindPreferredLockFile | src/core/projects.ts:238-264 | the chosen lock file becomes `packageLockFile`, tagged with its type and holding the content already read, exactly when that content is non-empty; otherwise the lock file is unchanged and the other lock file is not a fallback |
| Projects.MobileProject.LoadReactNativeFiles | src/core/projects.ts:231-233 | the preferred lock file is chosen as `findPreferredLockFile` chooses it, then `package.json` is loaded; the Podfile and the Podfile.lock are untouched |
| Projects.MobileProject.LoadLocatedProject | src/core/projects.ts:197-299 | after locating, the framework's own files are loaded and the lock file chosen for React Native only, then the Podfile and the Podfile.lock are loaded |
| Projects.MobileProject.LoadFilesContent | src/core/projects.ts:197-299 | throws, loading nothing, exactly when locating throws; otherwise native iOS loads the Podfile and the Podfile.lock (lines 197-203), React Native first chooses the lock file (`packageLockFile` is then what `findPreferredLockFile` sets, a new file or the one before) and loads `package.json` (lines 229-236), and Flutter loads `pubspec.yaml` and `pubspec.lock` and chooses no lock file (lines 292-299), each then loading the Podfile and the Podfile.lock |
| Doctor.CheckDirectory | src/utils/file.ts:25-38 | `isDirectoryNonEmpty` fails with an exception exactly when `statSync` throws or the directory cannot be listed, and answers true exactly for a listed directory with at least one entry |
| Doctor.DirectoryCheckLog | src/utils/file.ts:34-36 | the `catch` logs one error line exactly when the check failed with an exception, and nothing otherwise |
| Doctor.MissingPathLogsTwice | src/index.ts:30-35 | a path `statSync` cannot read logs `Error checking directory: ...` and then the invalid-directory line |
| Doctor.NotDirectoryLogsOnce | src/index.ts:30-35 | a plain file or an empty directory logs only the invalid-directory line |
| Doctor.IdentifyProject | src/index.ts:61-86 | React Native exactly when package.json names `"react-native"`; otherwise Flutter exactly when pubspec.yaml exists; otherwise native iOS exactly when the listing holds a `.xcodeproj`; it throws exactly when package.json exists but cannot be read, or when the directory must be listed and cannot be |
| Doctor.WithoutPackageJson | src/index.ts:63 | the file system with package.json absent from the project directory and every other path as it was |
| Doctor.PackageJsonWithoutMarkerFallsThrough | src/index.ts:62-71 | a readable package.json that does not name React Native identifies the same project as no package.json at all |
| Doctor.PackageJsonIsNotPubspec | src/index.ts:63-74 | the two files identification tests are different paths |
| Doctor.ReactNativeWinsOverLaterRules | src/index.ts:62-76 | a package.json naming React Native wins whatever pubspec.yaml and the directory listing are |
| Doctor.ReportPath | src/index.ts:53-58 | a report path exactly when a non-empty report option is given, resolved against the base |
| Doctor.Doctor | src/index.ts:29-121 | a path that is not a non-empty directory exits with code 1 after the invalid-directory line, preceded by `Error checking directory: ...` exactly when `statSync` or `readdirSync` threw; an unidentified project exits with code 1 after one error line; a throw in identification or in loading becomes the one error line of the `.catch`, and no suite starts; otherwise the project of the identified framework loads its files in full, and whenever locating its iOS files does not throw the run finishes, with the report path resolved against the project path, after starting exactly the framework's check suites in order |
| Doctor.GroupOrder | src/doctor/index.ts:53-64 | Diagnostics first, then Initialization, PushSetup and Dependencies |
| Doctor.EveryGroupOnce | src/doctor/index.ts:53-64 | each check group is run exactly once |
| Doctor.NewerVersionLog | src/doctor/index.ts:132-137 | one warning exactly when the latest version is known and differs from the running version, nothing otherwise |
| Doctor.RunGroups | src/doctor/index.ts:53-64 | the groups are awaited in order; every group before the last one started returned, and a run that stops early stops at a group that threw |
| Doctor.DoctorRevision | src/doctor/index.ts:27-142 | the newer-version warning comes first; a path that is not a non-empty directory exits with code 1 after the same lines as in the older revision, and an unidentified project exits with code 1, both starting no group; a throw in identification, or in loading an identified project, is rejected after the error line of the `.catch` and starts no group; groups start only for an identified project whose files loaded, and for such a project they always start: each group runs in order until one throws, the log is the warning, the project path line, the groups' lines and, when a group threw, the error line, and the run finishes exactly when no group threw, with every group run and the report path resolved against the working directory |
| RunDiagnostics.LiteralAtomsMatch | run-diagnostics.ts:113-114 | a pattern made of literal characters matches at a position exactly when its text occurs there |
| RunDiagnostics.EscapedSuffixPattern | run-diagnostics.ts:113-114 | a plain name followed by an escaped extension and anchored at the end accepts exactly the paths ending in the name and the extension |
| RunDiagnostics.ProjPatternPieces | run-diagnostics.ts:113 | `/\.pbxproj$/` is the escaped extension `.pbxproj` with no name before it |
| RunDiagnostics.ProjPatternMeaning | run-diagnostics.ts:113 | the project pattern accepts exactly the paths that end in `.pbxproj` |
| RunDiagnostics.AppDelegatePatternPieces | run-diagnostics.ts:114 | `/AppDelegate\.swift$/` is the name `AppDelegate` followed by the escaped extension `.swift` |
| RunDiagnostics.AppDelegatePatternMeaning | run-diagnostics.ts:114 | the AppDelegate pattern accepts exactly the paths that end in `AppDelegate.swift` |
| RunDiagnostics.Outcomes | run-diagnostics.ts:36-53 | one outcome per target |
| RunDiagnostics.OutcomesShape | run-diagnostics.ts:36-53 | each outcome is that of the target at the same index |
| RunDiagnostics.VerdictLine | run-diagnostics.ts:55-67 | the verdict line opens with the success mark exactly when the verdict is a success |
| RunDiagnostics.NseLogMeaning | run-diagnostics.ts:31-68 | the last line is the verdict for the number of app extensions and the embedding phases, and it is a success exactly when there is one extension and some application target embeds app or Foundation extensions |
| RunDiagnostics.InspectTarget | run-diagnostics.ts:37-52 | the loop body never throws; it counts the target exactly when it is an app extension, logging two lines for it, and logs one more line for an application, which embeds app extensions exactly when it has that build phase and otherwise may embed Foundation extensions |
| RunDiagnostics.CheckNotificationServiceExtension | run-diagnostics.ts:31-68 | the counter and flags updated target by target give the reference log |
| RunDiagnostics.AppDelegateLines | run-diagnostics.ts:142-152 | the path line, then an error line exactly when the file cannot be read, the found line exactly when its text contains `func userNotificationCenter(`, and the missing line otherwise |
| RunDiagnostics.AppDelegatesLog | run-diagnostics.ts:141-153 | two lines per AppDelegate file; a read error does not end the loop |
| RunDiagnostics.AppDelegatesLogShape | run-diagnostics.ts:141-153 | each file's two lines sit at twice its index, in path order |
| RunDiagnostics.CheckProjectFile | run-diagnostics.ts:126-137 | a project file that does not parse throws before logging; one whose extension has no configuration list throws after the NSE lines; otherwise the NSE lines and the deployment-target line |
| RunDiagnostics.CheckProjects | run-diagnostics.ts:125-138 | the project loop: the first project that throws ends it |
| RunDiagnostics.CheckAppDelegates | run-diagnostics.ts:141-153 | the AppDelegate loop gives the reference log, two lines per file |
| RunDiagnostics.CheckProject | run-diagnostics.ts:116-156 | with promise-returning file-system calls: the search line, then an error line if the search rejects, otherwise each project and each AppDelegate in turn, ending with one error line at the first project that throws (the intended promise-based walk `SearchWithFilter`, see Findings) |
| RunDiagnostics.CheckFound | run-diagnostics.ts:124-153 | after the searches: the projects' lines and, unless one threw, the AppDelegates' lines |
| RunDiagnostics.DiagnoseLog | run-diagnostics.ts:103-107 | exit code 1 exactly when no or an empty directory argument is given, with the one error line; otherwise 0 |
| RunDiagnostics.Diagnose | run-diagnostics.ts:103-156 | the script: the argument check, then the project check, over the intended promise-based walk (see Findings) |
| RunDiagnostics.AsWrittenOnlyReportsError | run-diagnostics.ts:116-156 | as written the walk always rejects, so the script logs only the search line and the error line |

## Left out

- Logger formatting is not modelled: colours, bold titles, line breaks, debug lines, the extra arguments passed after a message and the report file. A logged line is a level and its message text.
- `JSON.parse`, the `xcode` pbxproj parser and `xml2js` are given as their outputs (`Json`, `XcodeProject`, plist datatypes) or as parse functions that return `None` where the library throws.
- The Objective-C delegate regular expression and the `shouldIgnoreDirectory` callback are function parameters, not matchers.
- `Promise.all` and the `map(async ...)` fan-out of the walks run as a sequential fold in listing order. The model proves membership and per-key contents, and its order is the listing order.
- Xcode.MeetsMinimum: `parseFloat(...) >= 13.0` is read by its leading integer part. Exponent forms (`1e2`) and `Infinity` are not read.
- Xcode.ParseFloatText: prints the number `parseFloat` reads as digits with a point. Exponent forms (`1e2`), `Infinity`, and numbers JavaScript prints in exponent form or rounds (at least 10^21, below 10^-6, or more than 17 significant digits) are not modelled.
- Json.Member: reading a property of an array or a string gives undefined in the model. JavaScript gives the element or character for an index key and the length for `length`, and inherited properties (`constructor`, `toString`) of any value are not modelled.
- Json.ObjectKeys: `Object.keys` of an array or a string gives no names in the model. JavaScript lists their indices.
- Json.KeysInDocumentOrder: JavaScript lists names that are array indices (`"0"`, `"7"`) first, in ascending numeric order, and the others in first-appearance order. The model lists every name in first-appearance order, so it agrees only for objects without index names, such as the path-named `packages` of an npm lock file.
- Json.TemplateText: a JSON number inside a template literal is printed as its source literal. JavaScript prints the number's canonical text (`1.50` as `1.5`, `1e2` as `100`, `-0` as `0`); the version fields these lines print are strings in the projects the tool reads, and the model's canonical printing (Xcode.NumberText) covers no exponent forms.
- Xcode.HasPhase: every build phase carries a comment in the model. A phase without one makes `trimQuotes(undefined)` throw in the source; Xcode writes a comment after every phase it lists, and the parser keeps it.
- Xcode.IsNotificationServiceExtension: the `plist` element holds one top-level dictionary. A plist with two (not a valid property list) would make `content` a list and `content.dict.key` throw; the model has no such value.
- FileTree.Resolve: the file tree has no symbolic-link cycles, since a link's target is a subtree. On a cycle, the walks that follow links through `statSync` (CodeSearch.SearchFilesRecursivelyForCode, ReactNativeChecks.SearchFilesForSdkInitialization) would revisit a subtree under ever longer paths until the system refuses the path; that is not modelled.
- PodLock.PodMatchAt: the pod name is inserted into `new RegExp(...)` unescaped, and the model reads it as literal text. That is exact for the pod names the tool passes (`CustomerIOTracking` and the like, letters only); a name with `.`, `+` or `(` would be read differently by JavaScript.
- LockFiles.YarnMatchAt: the package name is inserted into `new RegExp(...)` unescaped, and the model reads it as literal text. That is exact for `customerio-reactnative`; a name with `.`, `+` or `(` would be read differently by JavaScript.
- Doctor.Doctor: the text printed after `Error checking directory: ` is the thrown error's, given as the parameter `errorText`. The logger's formatting of the error object is not modelled.
- Xcode.Target: a target without a `name` has the empty name in the model. The log lines that print the name (in IosChecks, DoctorIos and RunDiagnostics) would show `undefined` in JavaScript; `target.name || ...` treats both alike.
- `fetchNPMVersion` and `fetchCachedLatestVersion` (network and cache file) are not modelled. The latest version is a parameter.
- Projects.ResolvePath: `path.resolve` and `path.join` do not normalise `.` and `..` segments or repeated separators in the model. The project root is used as given: the command-line argument (`.` by default) is passed on unresolved, and Node would resolve a relative root against the working directory, which the model does not know.
- FileTree.GetReadablePath: for a path outside the base directory, Node's `path.relative` gives `..` segments. The model uses the whole path there.
- Case-insensitive matching (the `i` flag, the npm `packages` key search) folds ASCII letters only.
- The `Context` singleton, the commander command-line wiring, `configureLogger` and the tool's own package.json are left out. The project and the tool name and version are passed explicitly.
- The project classes of the newer revision (`src/doctor/core`) are not part of this model. Doctor.DoctorRevision takes their loading and check groups as the parameters `loadThrows` and `runGroup`.
- Doctor.Doctor records which check suites run, not the lines they log. The suites themselves are modelled in `IosChecks` and `ReactNativeChecks`.
- The file system is one snapshot. Changes between the emptiness check, identification and loading are not modelled.
- A native iOS project's `this.projectFile?.loadContent()` reads a field the class does not have, so it does nothing and is not modelled.
- The `Conflicts` lists of pods and packages, the documentation links and the install commands are parameters. Only the constants that decide a branch are copied.
- `process.exit` is an outcome (`Exited(1)`). What runs after the process would have ended is not modelled.
- The compiled `run-diagnostics.js` is not part of this model. It is the same logic as `run-diagnostics.ts`.

## Findings

| source | as written | input that shows it | evidently intended | confidence | as-written member | corrected member |
|---|---|---|---|---|---|---|
| src/utils/code.ts:93 | reads `linkStat.extension` (also at line 120), which `getFileLinkStats` never sets, so no file passes the extension test | any project, for example one holding `App.tsx` that calls `CustomerIO.initialize` | the extension is `path.extname` of the entry's name | high, not executed | CodeSearch.UndefinedExtensionFindsNothing | CodeSearch.SearchFilesForCode |
| src/checks/ios.ts:266 | reads `.path` of project files (also at lines 30, 235 and 281), which have `absolutePath`, `readablePath`, `filename`, `args` and `content` but no `path`, so every path is `undefined` | a project with one entitlements file holding `<key>aps-environment</key>` | the files' `absolutePath` | high, not executed | IosChecks.AsWrittenIgnoresFiles | IosChecks.EntitlementsFoundOnlyAsIntended |
| run-diagnostics.ts:9 | awaits the callback-style `fs.readdir` with no callback, which throws, so every search rejects | a directory holding `app.pbxproj` | the promise-returning `fs.promises.readdir` and `lstat` | high, not executed | FileSearch.CallbackReaddirLosesProjectFiles | FileSearch.SearchWithFilter |
| src/checks/react_native.ts:174-189 | `match` with a global pattern returns whole matches, so `[1]` is the second pod line, not the version | a Podfile.lock whose text is the single line `- customerio-reactnative (1)` | the version captured by the first pod line | high, not executed | ReactNativeChecks.SinglePodLineIsNotFound | ReactNativeChecks.PodfileLockSummaryIntended |
| src/checks/reactnative.ts:82-88 | `searchFilesForCode` always returns an object, so the success branch is always taken | a project directory that cannot be listed | success exactly when some file matched | high, not executed | ReactNativeCheckGroups.UnreadableProjectStillSucceeds | ReactNativeCheckGroups.InitializationLog |
