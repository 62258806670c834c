/**
 * Version lookups in JavaScript lock files and package.json:
 * `extractVersionFromPackageLock` and `extractVersionFromPackageJson` of
 * src/doctor/utils/version.ts:31-72, and the older
 * `extractVersionFromPackageLock` of src/utils/version.ts:30-52.
 *
 * The yarn.lock pattern `<pkg>@[^:]+:\s*\n\s*version\s*"([^"]+)"` is written
 * out as a scanner. At a given position it has one way to match: `[^:]+`
 * must stop at the first `:`, the whitespace between the `:` and `version`
 * must be the whole whitespace run (`version` does not start with
 * whitespace) and must contain a line feed, and `[^"]+` must stop at the
 * first `"`. The package name is inserted unescaped and read as literal
 * text, which it is for `customerio-reactnative`.
 */
module LockFiles {
  import opened Wrappers
  import opened Strings
  import opened Arrays
  import opened Scan
  import opened Json

  predicate NotColon(c: char) {
    c != ':'
  }

  predicate NotDoubleQuote(c: char) {
    c != '"'
  }

  /** A line feed occurs in `text[i..j]`. */
  predicate HasLineFeed(text: string, i: nat, j: nat)
    requires i <= j <= |text|
  {
    exists k | i <= k < j :: text[k] == '\n'
  }

  /** The yarn.lock block pattern matched at exactly position `p`, if it does. */
  function YarnMatchAt(text: string, packageName: string, p: nat): (r: Option<Span>)
    ensures r.Some? ==> r.value.start == p && p < r.value.end <= |text|
    ensures r.Some? ==> |r.value.capture| >= 1 && '"' !in r.value.capture
  {
    if !OccursAt(text, packageName + "@", p) then None
    else YarnAfterHeader(text, p, p + |packageName| + 1)
  }

  /** The rest of the pattern after the header `<pkg>@` of a match at `p`, from position `a`: `[^:]+:` and on. */
  function YarnAfterHeader(text: string, p: nat, a: nat): (r: Option<Span>)
    requires p < a <= |text|
    ensures r.Some? ==> r.value.start == p && p < r.value.end <= |text|
    ensures r.Some? ==> |r.value.capture| >= 1 && '"' !in r.value.capture
  {
    var c := SkipWhile(text, a, NotColon);
    if c == a || c == |text| then None
    else YarnAfterColon(text, p, c)
  }

  /** The rest of the pattern after the `:` at `colon`: `\s*\n\s*version` and the quoted tail. */
  function YarnAfterColon(text: string, p: nat, colon: nat): (r: Option<Span>)
    requires p < colon < |text|
    ensures r.Some? ==> r.value.start == p && p < r.value.end <= |text|
    ensures r.Some? ==> |r.value.capture| >= 1 && '"' !in r.value.capture
  {
    var b := SkipWhile(text, colon + 1, IsWhitespace);
    if !HasLineFeed(text, colon + 1, b) || !OccursAt(text, "version", b) then None
    else QuotedVersionAfter(text, p, b + 7)
  }

  /** The tail `\s*"([^"]+)"` of the pattern, from position `i` of a match that started at `p`. */
  function QuotedVersionAfter(text: string, p: nat, i: nat): (r: Option<Span>)
    requires p < i <= |text|
    ensures r.Some? ==> r.value.start == p && i < r.value.end <= |text|
    ensures r.Some? ==> |r.value.capture| >= 1 && '"' !in r.value.capture
  {
    var q := SkipWhile(text, i, IsWhitespace);
    if q == |text| || text[q] != '"' then None
    else
      var e := SkipWhile(text, q + 1, NotDoubleQuote);
      if e == q + 1 || e == |text| then None
      else Some(Span(p, text[q + 1..e], e + 1))
  }

  /**
   * The regular expression's own reading of a yarn.lock block at `p`: the
   * header `<pkg>@`, at least one character other than `:` up to the `:` at
   * `colon`, whitespace containing a line feed up to `version` at `keyword`,
   * whitespace up to the `"` at `quote`, a non-empty version without `"`,
   * and a closing `"`.
   */
  predicate YarnBlockAt(text: string, packageName: string, p: nat, colon: nat, keyword: nat, quote: nat, version: string) {
    && YarnHeaderAt(text, packageName, p, colon)
    && YarnKeywordAt(text, colon, keyword)
    && YarnQuotedAt(text, keyword + 7, quote, version)
  }

  /** `<pkg>@` at `p`, then at least one character other than `:`, up to the `:` at `colon`. */
  predicate YarnHeaderAt(text: string, packageName: string, p: nat, colon: nat) {
    var a := p + |packageName| + 1;
    && OccursAt(text, packageName + "@", p)
    && a < colon < |text| && (forall k | a <= k < colon :: text[k] != ':') && text[colon] == ':'
  }

  /** Whitespace containing a line feed after the `:` at `colon`, up to `version` at `keyword`. */
  predicate YarnKeywordAt(text: string, colon: nat, keyword: nat) {
    && colon + 1 <= keyword <= |text|
    && (forall k | colon + 1 <= k < keyword :: IsWhitespace(text[k])) && HasLineFeed(text, colon + 1, keyword)
    && OccursAt(text, "version", keyword)
  }

  /** Whitespace from `i` up to the `"` at `quote`, a non-empty `version` without `"`, and a closing `"`. */
  predicate YarnQuotedAt(text: string, i: nat, quote: nat, version: string) {
    && i <= quote < |text| && (forall k | i <= k < quote :: IsWhitespace(text[k]))
    && text[quote] == '"'
    && |version| >= 1 && quote + 1 + |version| < |text|
    && text[quote + 1..quote + 1 + |version|] == version && '"' !in version
    && text[quote + 1 + |version|] == '"'
  }

  /** Every match the scanner reports is a yarn.lock block in the regular expression's sense. */
  lemma YarnMatchAtSound(text: string, packageName: string, p: nat)
    requires YarnMatchAt(text, packageName, p).Some?
    ensures var m := YarnMatchAt(text, packageName, p).value;
      exists colon: nat, keyword: nat, quote: nat ::
        YarnBlockAt(text, packageName, p, colon, keyword, quote, m.capture) && m.end == quote + |m.capture| + 2
  {
    var m := YarnMatchAt(text, packageName, p).value;
    var a := p + |packageName| + 1;
    YarnMatchAtOpens(text, packageName, p);
    var c := YarnAfterHeaderSound(text, p, a, m);
    assert YarnHeaderAt(text, packageName, p, c);
    var b, q := YarnAfterColonSound(text, p, c, m);
    assert YarnBlockAt(text, packageName, p, c, b, q, m.capture);
  }

  /** The `:` that ends the header of a match `m`, with no `:` before it. */
  lemma YarnAfterHeaderSound(text: string, p: nat, a: nat, m: Span) returns (colon: nat)
    requires p < a <= |text| && YarnAfterHeader(text, p, a) == Some(m)
    ensures a < colon < |text| && text[colon] == ':'
    ensures forall k | a <= k < colon :: text[k] != ':'
    ensures YarnAfterColon(text, p, colon) == Some(m)
  {
    colon := SkipWhile(text, a, NotColon);
    assert !NotColon(text[colon]);
  }

  /** The `version` keyword after the `:` of a match `m`, and the quoted version after it. */
  lemma YarnAfterColonSound(text: string, p: nat, colon: nat, m: Span) returns (keyword: nat, quote: nat)
    requires p < colon < |text| && YarnAfterColon(text, p, colon) == Some(m)
    ensures YarnKeywordAt(text, colon, keyword) && keyword + 7 <= |text|
    ensures YarnQuotedAt(text, keyword + 7, quote, m.capture) && m.end == quote + |m.capture| + 2
  {
    keyword := SkipWhile(text, colon + 1, IsWhitespace);
    quote := QuotedVersionAfterSound(text, p, keyword + 7, m);
  }

  /** The quote the tail of a match `m` opens with, and what lies between. */
  lemma QuotedVersionAfterSound(text: string, p: nat, i: nat, m: Span) returns (quote: nat)
    requires p < i <= |text| && QuotedVersionAfter(text, p, i) == Some(m)
    ensures YarnQuotedAt(text, i, quote, m.capture) && m.end == quote + |m.capture| + 2
  {
    quote := SkipWhile(text, i, IsWhitespace);
  }

  /** Every yarn.lock block in the regular expression's sense is what the scanner reports. */
  lemma YarnMatchAtComplete(text: string, packageName: string, p: nat, colon: nat, keyword: nat, quote: nat, version: string)
    requires YarnBlockAt(text, packageName, p, colon, keyword, quote, version)
    ensures YarnMatchAt(text, packageName, p) == Some(Span(p, version, quote + |version| + 2))
  {
    YarnHeaderComplete(text, packageName, p, colon);
    YarnKeywordComplete(text, colon, keyword);
    QuotedVersionAfterComplete(text, p, keyword + 7, quote, version);
    YarnMatchAtHeader(text, packageName, p, colon, keyword);
  }

  /** The scan for the `:` of a header stops at the first one. */
  lemma YarnHeaderComplete(text: string, packageName: string, p: nat, colon: nat)
    requires YarnHeaderAt(text, packageName, p, colon)
    ensures SkipWhile(text, p + |packageName| + 1, NotColon) == colon
  {
    SkipWhileStopsAt(text, p + |packageName| + 1, colon, NotColon);
  }

  /** The scan over the whitespace after the `:` stops at the `version` keyword. */
  lemma YarnKeywordComplete(text: string, colon: nat, keyword: nat)
    requires YarnKeywordAt(text, colon, keyword)
    ensures SkipWhile(text, colon + 1, IsWhitespace) == keyword
  {
    assert text[keyword..keyword + 7] == "version";
    assert text[keyword] == 'v';
    SkipWhileStopsAt(text, colon + 1, keyword, IsWhitespace);
  }

  /** Once the header, the `:` and the `version` keyword are found, the match is decided by the quoted tail. */
  lemma YarnMatchAtHeader(text: string, packageName: string, p: nat, colon: nat, keyword: nat)
    requires OccursAt(text, packageName + "@", p) && p + |packageName| + 1 < colon < |text|
    requires SkipWhile(text, p + |packageName| + 1, NotColon) == colon
    requires SkipWhile(text, colon + 1, IsWhitespace) == keyword
    requires HasLineFeed(text, colon + 1, keyword) && OccursAt(text, "version", keyword)
    ensures YarnMatchAt(text, packageName, p) == QuotedVersionAfter(text, p, keyword + 7)
  {
    YarnMatchAtOpens(text, packageName, p);
    YarnAfterHeaderAt(text, p, p + |packageName| + 1, colon);
    YarnAfterColonAt(text, p, colon, keyword);
  }

  /** A match at `p` is the header `<pkg>@` followed by the rest of the pattern. */
  lemma YarnMatchAtOpens(text: string, packageName: string, p: nat)
    ensures YarnMatchAt(text, packageName, p) ==
      if OccursAt(text, packageName + "@", p) then YarnAfterHeader(text, p, p + |packageName| + 1) else None
  {
  }

  lemma YarnAfterHeaderAt(text: string, p: nat, a: nat, colon: nat)
    requires p < a < colon < |text| && SkipWhile(text, a, NotColon) == colon
    ensures YarnAfterHeader(text, p, a) == YarnAfterColon(text, p, colon)
  {
  }

  lemma YarnAfterColonAt(text: string, p: nat, colon: nat, keyword: nat)
    requires p < colon < |text| && SkipWhile(text, colon + 1, IsWhitespace) == keyword
    requires HasLineFeed(text, colon + 1, keyword) && OccursAt(text, "version", keyword)
    ensures YarnAfterColon(text, p, colon) == QuotedVersionAfter(text, p, keyword + 7)
  {
  }

  lemma QuotedVersionAfterComplete(text: string, p: nat, i: nat, quote: nat, version: string)
    requires p < i && YarnQuotedAt(text, i, quote, version)
    ensures QuotedVersionAfter(text, p, i) == Some(Span(p, version, quote + |version| + 2))
  {
    SkipWhileStopsAt(text, i, quote, IsWhitespace);
    var close := quote + 1 + |version|;
    forall k | quote + 1 <= k < close ensures NotDoubleQuote(text[k]) {
      assert text[k] == version[k - quote - 1];
    }
    SkipWhileStopsAt(text, quote + 1, close, NotDoubleQuote);
  }

  /** `createPackageRegexYarn(packageName)` as a matcher. */
  function YarnMatcher(packageName: string): (matchAt: Matcher)
    ensures Anchored(matchAt)
  {
    (text: string, p: nat) => YarnMatchAt(text, packageName, p)
  }

  /**
   * The yarn branch shared by both revisions: one `exec` of a fresh
   * pattern, so the first block from the start of the file, and its
   * captured version.
   */
  function YarnLockVersion(content: string, packageName: string): (r: Option<string>)
    ensures r.None? <==> forall p :: YarnMatchAt(content, packageName, p).None?
    ensures r.Some? ==> exists p: nat ::
      (&& YarnMatchAt(content, packageName, p).Some?
       && YarnMatchAt(content, packageName, p).value.capture == r.value
       && forall q | 0 <= q < p :: YarnMatchAt(content, packageName, q).None?)
  {
    var m := NextMatch(YarnMatcher(packageName), content, 0);
    assert forall p: nat :: YarnMatcher(packageName)(content, p) == YarnMatchAt(content, packageName, p);
    if m.Some? then Some(m.value.capture) else None
  }

  /** A version the yarn branch reports is never empty, so it is truthy. */
  lemma YarnLockVersionNonEmpty(content: string, packageName: string)
    ensures YarnLockVersion(content, packageName).Some? ==> YarnLockVersion(content, packageName).value != ""
  {
    var v := YarnLockVersion(content, packageName);
    if v.Some? {
      var p: nat :| YarnMatchAt(content, packageName, p).Some? && YarnMatchAt(content, packageName, p).value.capture == v.value;
    }
  }

  /** The `packages` member of a parsed npm lock file, as `npmLockJson.packages` reads it. */
  function Packages(lock: Option<Json>): Eval<Option<Json>> {
    Member(lock, "packages")
  }

  /** Whether `new RegExp(packageName, 'i').test(dep)`: the name occurs in the key, ignoring case. */
  function KeyMentions(packageName: string): string -> bool {
    dep => ContainsIgnoringCase(dep, packageName)
  }

  /**
   * `extractVersionFromPackageLock` of src/doctor/utils/version.ts:38-63.
   * `lock` is `JSON.parse(content)`, absent when that throws. With the npm
   * type it returns the `version` of the first key of `packages`, in key
   * order, that mentions the package name ignoring case.
   */
  function ExtractVersionFromPackageLock(content: string, lockType: string, packageName: string, lock: Option<Json>): (r: Eval<Option<Json>>)
    ensures lockType != "yarn" && lockType != "npm" ==> r == Returns(None)
    ensures lockType == "yarn" ==> r.Returns? && (r.value.None? <==> YarnLockVersion(content, packageName).None?)
    ensures lockType == "yarn" && r.value.Some? ==> r.value == Some(JString(YarnLockVersion(content, packageName).value))
    ensures lockType == "npm" && Packages(lock).Returns? && Packages(lock).value.Some?
      && Packages(lock).value.value.JObject? && (forall k <- Keys(Packages(lock).value.value.members) :: !ContainsIgnoringCase(k, packageName))
      ==> r == Returns(None)
    ensures lockType == "npm" && (Packages(lock).Throws? || Packages(lock) == Returns(None) || Packages(lock) == Returns(Some(JNull)))
      ==> r.Throws?
  {
    if lockType == "yarn" then
      var v := YarnLockVersion(content, packageName);
      if v.Some? then Returns(Some(JString(v.value))) else Returns(None)
    else if lockType == "npm" then
      match Packages(lock)
      case Throws => Throws
      case Returns(packages) =>
        match ObjectKeys(packages)
        case Throws => Throws
        case Returns(keys) =>
          var matchingPackage := Find(keys, KeyMentions(packageName));
          if matchingPackage.Some? && matchingPackage.value != "" then
            MemberOf(Member(packages, matchingPackage.value), "version")
          else Returns(None)
    else Returns(None)
  }

  /**
   * With the npm type and a `packages` object, the result is the `version`
   * of the first key that mentions the package name, and the keys before
   * it do not.
   */
  lemma NpmLockUsesFirstMatchingKey(content: string, packageName: string, lock: Option<Json>, members: seq<(string, Json)>, i: nat)
    requires Packages(lock) == Returns(Some(JObject(members)))
    requires var keys := Keys(members);
      i < |keys| && keys[i] != "" && ContainsIgnoringCase(keys[i], packageName)
      && forall j | 0 <= j < i :: !ContainsIgnoringCase(keys[j], packageName)
    ensures ExtractVersionFromPackageLock(content, "npm", packageName, lock)
      == Member(Lookup(members, Keys(members)[i]), "version")
  {
    var keys := Keys(members);
    var found := Find(keys, KeyMentions(packageName));
    assert KeyMentions(packageName)(keys[i]);
    var j :| 0 <= j < |keys| && keys[j] == found.value && KeyMentions(packageName)(keys[j])
      && forall l | 0 <= l < j :: !KeyMentions(packageName)(keys[l]);
    assert j == i;
  }

  /**
   * `extractVersionFromPackageLock` of src/utils/version.ts:37-52: the npm
   * branch reads `dependencies[packageName].version` by exact key, and
   * throws when the package is not listed.
   */
  function ExtractVersionFromPackageLockLegacy(content: string, lockType: string, packageName: string, lock: Option<Json>): (r: Eval<Option<Json>>)
    ensures lockType != "yarn" && lockType != "npm" ==> r == Returns(None)
    ensures lockType == "yarn" ==> r.Returns? && (r.value.None? <==> YarnLockVersion(content, packageName).None?)
    ensures lockType == "npm" && ReturnsObject(DependencyEntry(lock, packageName))
      ==> r == Returns(Lookup(ObjectMembers(DependencyEntry(lock, packageName)), "version"))
    ensures lockType == "npm" && (DependencyEntry(lock, packageName).Throws? || DependencyEntry(lock, packageName) == Returns(None))
      ==> r.Throws?
  {
    if lockType == "yarn" then
      var v := YarnLockVersion(content, packageName);
      if v.Some? then Returns(Some(JString(v.value))) else Returns(None)
    else if lockType == "npm" then
      MemberOf(DependencyEntry(lock, packageName), "version")
    else Returns(None)
  }

  /** `json.dependencies[packageName]`. */
  function DependencyEntry(json: Option<Json>, packageName: string): (r: Eval<Option<Json>>)
    ensures ReturnsObject(Member(json, "dependencies"))
      ==> r == Returns(Lookup(ObjectMembers(Member(json, "dependencies")), packageName))
    ensures Member(json, "dependencies").Throws? || Member(json, "dependencies") == Returns(None) ==> r.Throws?
  {
    MemberOf(Member(json, "dependencies"), packageName)
  }

  /**
   * `extractVersionFromPackageJson` (src/doctor/utils/version.ts:65-72):
   * `dependencies[packageName]` as written (a range such as `^3.1.0`),
   * undefined when the package is not listed, throwing when package.json
   * has no `dependencies`.
   */
  function ExtractVersionFromPackageJson(packageName: string, packageJson: Option<Json>): (r: Eval<Option<Json>>)
    ensures ReturnsObject(Member(packageJson, "dependencies"))
      ==> r == Returns(Lookup(ObjectMembers(Member(packageJson, "dependencies")), packageName))
    ensures Member(packageJson, "dependencies") == Returns(None) ==> r.Throws?
  {
    DependencyEntry(packageJson, packageName)
  }
}
