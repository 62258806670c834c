/**
 * The Podfile.lock version scanner of src/doctor/utils/version.ts:5-29 and
 * src/utils/version.ts:4-28 (the two files hold the same code), and the
 * shared-pattern variant of src/checks/ios.ts:385-403.
 *
 * The regular expression `- <pod>\s+\(([^)]+)\)` is written out as a scanner.
 * It has exactly one way to match at a given position: `\s+` must stop at
 * the `(` (which is not whitespace) and `[^)]+` must stop at the first `)`,
 * so greedy matching and backtracking cannot choose between alternatives.
 * The pod name is inserted into the pattern unescaped; the model reads it
 * as literal text, which it is for every pod name the tool uses.
 */
module PodLock {
  import opened Wrappers
  import opened Strings
  import opened Arrays
  import opened Scan

  /** The literal start of a pod line: `- ` and the pod name. */
  function Header(podName: string): string {
    "- " + podName
  }

  predicate NotCloseParen(c: char) {
    c != ')'
  }

  /** The pattern matched at exactly position `p`, if it does. */
  function PodMatchAt(text: string, podName: string, p: nat): (r: Option<Span>)
    ensures r.Some? ==> r.value.start == p && p < r.value.end <= |text|
    ensures r.Some? ==> |r.value.capture| >= 1 && ')' !in r.value.capture
  {
    var h := Header(podName);
    if !OccursAt(text, h, p) then None
    else
      var w := SkipWhile(text, p + |h|, IsWhitespace);
      if w == p + |h| || w == |text| || text[w] != '(' then None
      else
        var c := SkipWhile(text, w + 1, NotCloseParen);
        if c == w + 1 || c == |text| then None
        else Some(Span(p, text[w + 1..c], c + 1))
  }

  /**
   * The regular expression's own reading of a pod line at `p`: the header,
   * `ws >= 1` whitespace characters, `(`, a non-empty version without `)`,
   * and `)`.
   */
  predicate PodLineAt(text: string, podName: string, p: nat, ws: nat, version: string) {
    var h := Header(podName);
    var open := p + |h| + ws;
    && ws >= 1 && |version| >= 1
    && open + |version| + 2 <= |text|
    && OccursAt(text, h, p)
    && (forall k | p + |h| <= k < open :: IsWhitespace(text[k]))
    && text[open] == '('
    && text[open + 1..open + 1 + |version|] == version
    && ')' !in version
    && text[open + 1 + |version|] == ')'
  }

  /** Every match the scanner reports is a pod line in the regular expression's sense. */
  lemma PodMatchAtSound(text: string, podName: string, p: nat)
    requires PodMatchAt(text, podName, p).Some?
    ensures var m := PodMatchAt(text, podName, p).value;
      exists ws :: PodLineAt(text, podName, p, ws, m.capture) && m.end == p + |Header(podName)| + ws + |m.capture| + 2
  {
    var h := Header(podName);
    var m := PodMatchAt(text, podName, p).value;
    var w := SkipWhile(text, p + |h|, IsWhitespace);
    assert PodLineAt(text, podName, p, w - p - |h|, m.capture);
  }

  /** Every pod line in the regular expression's sense is what the scanner reports. */
  lemma PodMatchAtComplete(text: string, podName: string, p: nat, ws: nat, version: string)
    requires PodLineAt(text, podName, p, ws, version)
    ensures PodMatchAt(text, podName, p) == Some(Span(p, version, p + |Header(podName)| + ws + |version| + 2))
  {
    var h := Header(podName);
    var open := p + |h| + ws;
    var w := SkipWhile(text, p + |h|, IsWhitespace);
    assert !IsWhitespace(text[open]);
    assert w == open;
    var c := SkipWhile(text, open + 1, NotCloseParen);
    var close := open + 1 + |version|;
    forall k | open + 1 <= k < close ensures text[k] != ')' {
      assert text[k] == version[k - open - 1];
    }
    assert c == close;
  }

  /** A match needs whitespace right after the name: a longer pod name sharing the prefix never matches. */
  lemma PodNameFollowedByWhitespace(text: string, podName: string, p: nat)
    requires PodMatchAt(text, podName, p).Some?
    ensures p + |Header(podName)| < |text| && IsWhitespace(text[p + |Header(podName)|])
  {
  }

  /** `createPodRegex(podName)` as a matcher. */
  function PodMatcher(podName: string): (matchAt: Matcher)
    ensures Anchored(matchAt)
  {
    (text: string, p: nat) => PodMatchAt(text, podName, p)
  }

  /**
   * What `extractVersionFromPodLock` makes of the captured versions: undefined
   * when there are none, otherwise each one with a leading `=` removed and
   * trimmed, de-duplicated in first-seen order and joined with `", "`.
   */
  function VersionSummary(versions: seq<string>): (r: Option<string>)
    ensures r.None? <==> |versions| == 0
  {
    if |versions| > 0 then Some(Join(UniqueValues(Map(versions, TrimEqualOperator)), ", ")) else None
  }

  /**
   * The extraction loop run with a given global pattern object, which may
   * already have been used: src/checks/ios.ts:385-403 keeps one pattern per
   * pod for the whole run. The loop leaves `lastIndex` at 0.
   */
  method ExtractWithPattern(pattern: GlobalPattern, content: string) returns (r: Option<string>)
    requires Anchored(pattern.matchAt)
    modifies pattern
    ensures r == VersionSummary(Captures(AllMatches(pattern.matchAt, content, old(pattern.lastIndex))))
    ensures pattern.lastIndex == 0
  {
    var versions := CollectCaptures(pattern, content);
    if |versions| > 0 {
      var distinctValues := UniqueValues(Map(versions, TrimEqualOperator));
      r := Some(Join(distinctValues, ", "));
    } else {
      r := None;
    }
  }

  /**
   * `extractVersionFromPodLock` (src/doctor/utils/version.ts:9-29,
   * src/utils/version.ts:8-28), which compiles a fresh pattern per call.
   * The result is undefined exactly when no pod line for the pod occurs.
   */
  method ExtractVersionFromPodLock(content: string, podName: string) returns (r: Option<string>)
    ensures r == VersionSummary(Captures(AllMatches(PodMatcher(podName), content, 0)))
    ensures r.None? <==> forall p :: PodMatchAt(content, podName, p).None?
  {
    var pattern := new GlobalPattern(PodMatcher(podName));
    r := ExtractWithPattern(pattern, content);
    assert forall p: nat :: PodMatcher(podName)(content, p) == PodMatchAt(content, podName, p);
  }

  /**
   * Reusing one global pattern, as src/checks/ios.ts does, is harmless: a
   * pattern that only this loop uses has `lastIndex` 0 whenever the loop
   * starts, so a second extraction gives the same result as the first.
   */
  method ExtractTwice(pattern: GlobalPattern, content: string) returns (first: Option<string>, second: Option<string>)
    requires Anchored(pattern.matchAt) && pattern.lastIndex == 0
    modifies pattern
    ensures first == second
    ensures pattern.lastIndex == 0
  {
    first := ExtractWithPattern(pattern, content);
    second := ExtractWithPattern(pattern, content);
  }

  /**
   * The `=` is dropped before de-duplication: versions `a`, `=a`, `b` are
   * listed as `a, b`.
   */
  lemma VersionSummaryMergesOperatorForm(a: string, b: string)
    requires NoEdgeWhitespace(a) && NoEdgeWhitespace(b) && a != b
    requires |a| > 0 && a[0] != '=' && |b| > 0 && b[0] != '='
    ensures VersionSummary([a, "=" + a, b]) == Some(a + ", " + b)
  {
    MapTrimEqualOperatorStep(a, b);
    UniqueValuesOfRepeat(a, b);
    assert Join([a, b], ", ") == a + ", " + Join([b], ", ");
  }

  lemma MapTrimEqualOperatorStep(a: string, b: string)
    requires NoEdgeWhitespace(a) && NoEdgeWhitespace(b)
    requires |a| > 0 && a[0] != '=' && |b| > 0 && b[0] != '='
    ensures Map([a, "=" + a, b], TrimEqualOperator) == [a, a, b]
  {
    var xs := [a, "=" + a, b];
    assert Map(xs, TrimEqualOperator) == [TrimEqualOperator(a), TrimEqualOperator("=" + a), TrimEqualOperator(b)];
    TrimEqualOperatorIdentity(a);
    TrimEqualOperatorIdentity(b);
    TrimEqualOperatorDropsOne(a);
  }

  lemma UniqueValuesOfRepeat(a: string, b: string)
    requires a != b
    ensures UniqueValues([a, a, b]) == [a, b]
  {
    var s := [a, a, b];
    assert s[..2] == [a, a] && s[..1] == [a] && s[..0] == [];
    assert UniqueValues(s[..1]) == [a];
    assert UniqueValues(s[..2]) == [a];
  }

  /** The listed pods that occur in the lock file, in list order: `Conflicts.iosPods.filter(lib => podfileLockContent.includes(lib))`. */
  function ConflictingPods(podfileLockContent: string, iosPods: seq<string>): (r: seq<string>)
    ensures forall pod :: pod in r <==> pod in iosPods && Contains(podfileLockContent, pod)
  {
    Filter(iosPods, (pod: string) => Contains(podfileLockContent, pod))
  }
}
