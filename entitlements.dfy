/**
 * The push-environment entitlement pattern `<key>\s*aps-environment\s*</key>`
 * (src/constants/patterns.ts:14), written as an explicit scanner.
 *
 * Each `\s*` is followed by a literal that starts with a non-whitespace
 * character, so the greedy run is the only one that can lead to a match:
 * the scanner skips whitespace and compares, without backtracking.
 */
module Entitlements {
  import opened Wrappers
  import opened Strings
  import opened Scan

  const KeyOpen := "<key>"
  const ApsEnvironment := "aps-environment"
  const KeyClose := "</key>"

  /** The regular expression's meaning: the three literals at `i`, `j` and `k`, with only whitespace between them. */
  ghost predicate PatternMatchesAt(s: string, i: nat, j: nat, k: nat) {
    LiteralsMatchAt(s, i, j, k, KeyOpen, ApsEnvironment, KeyClose)
  }

  /** The scanner's step: at `i`, the opening tag, a whitespace run, the name, a whitespace run, the closing tag. */
  predicate ScanAt(s: string, i: nat) {
    ScanLiteralsAt(s, i, KeyOpen, ApsEnvironment, KeyClose)
  }

  /** `a\s*b\s*c` matches from `i`, with `b` at `j` and `c` at `k`. */
  ghost predicate LiteralsMatchAt(s: string, i: nat, j: nat, k: nat, a: string, b: string, c: string) {
    i + |a| <= j && j + |b| <= k &&
    OccursAt(s, a, i) && OccursAt(s, b, j) && OccursAt(s, c, k) &&
    (forall p | i + |a| <= p < j :: IsWhitespace(s[p])) &&
    (forall p | j + |b| <= p < k :: IsWhitespace(s[p]))
  }

  /** The scan for `a\s*b\s*c` at `i`: each whitespace run is skipped greedily, without backtracking. */
  predicate ScanLiteralsAt(s: string, i: nat, a: string, b: string, c: string) {
    OccursAt(s, a, i) &&
    var j := SkipWhile(s, i + |a|, IsWhitespace);
    OccursAt(s, b, j) &&
    var k := SkipWhile(s, j + |b|, IsWhitespace);
    OccursAt(s, c, k)
  }

  /** The scanner accepts at `i` exactly when the pattern matches from `i`. */
  lemma ScanAtMeaning(s: string, i: nat)
    ensures ScanAt(s, i) <==> exists j: nat, k: nat :: PatternMatchesAt(s, i, j, k)
  {
    if ScanAt(s, i) {
      var j, k := ScanMatches(s, i, KeyOpen, ApsEnvironment, KeyClose);
      assert PatternMatchesAt(s, i, j, k);
    }
    if j: nat, k: nat :| PatternMatchesAt(s, i, j, k) {
      assert ApsEnvironment[0] == 'a' && KeyClose[0] == '<';
      MatchScans(s, i, j, k, KeyOpen, ApsEnvironment, KeyClose);
    }
  }

  /** An accepting scan stops at the positions of a match. */
  lemma ScanMatches(s: string, i: nat, a: string, b: string, c: string) returns (j: nat, k: nat)
    requires ScanLiteralsAt(s, i, a, b, c)
    ensures LiteralsMatchAt(s, i, j, k, a, b, c)
  {
    j := SkipWhile(s, i + |a|, IsWhitespace);
    k := SkipWhile(s, j + |b|, IsWhitespace);
  }

  /** A match is found by the scan when `b` and `c` start with a non-whitespace character. */
  lemma MatchScans(s: string, i: nat, j: nat, k: nat, a: string, b: string, c: string)
    requires LiteralsMatchAt(s, i, j, k, a, b, c)
    requires |b| > 0 && !IsWhitespace(b[0]) && |c| > 0 && !IsWhitespace(c[0])
    ensures ScanLiteralsAt(s, i, a, b, c)
  {
    SkipToLiteral(s, i + |a|, j, b);
    SkipToLiteral(s, j + |b|, k, c);
    assert SkipWhile(s, SkipWhile(s, i + |a|, IsWhitespace) + |b|, IsWhitespace) == k;
  }

  /** A whitespace run followed by a literal that starts with a non-whitespace character ends where the literal starts. */
  lemma SkipToLiteral(s: string, from: nat, j: nat, literal: string)
    requires from <= j && OccursAt(s, literal, j)
    requires |literal| > 0 && !IsWhitespace(literal[0])
    requires forall p | from <= p < j :: IsWhitespace(s[p])
    ensures SkipWhile(s, from, IsWhitespace) == j
  {
    assert s[j] == s[j..j + |literal|][0];
    SkipWhileStopsAt(s, from, j, IsWhitespace);
  }

  /** `pattern.test(s)` from position `from` on: some scan at or after `from` succeeds. */
  function TestFrom(s: string, from: nat): bool
    decreases |s| + 1 - from
  {
    if from > |s| then false
    else ScanAt(s, from) || TestFrom(s, from + 1)
  }

  /** The scan from `from` succeeds exactly when the scanner accepts at some position at or after `from`. */
  lemma {:induction false} TestFromMeaning(s: string, from: nat)
    ensures TestFrom(s, from) <==> exists i: nat | from <= i <= |s| :: ScanAt(s, i)
    decreases |s| + 1 - from
  {
    if from <= |s| {
      TestFromMeaning(s, from + 1);
      if TestFrom(s, from + 1) {
        var i: nat :| from + 1 <= i <= |s| && ScanAt(s, i);
        assert from <= i <= |s| && ScanAt(s, i);
      }
      if !ScanAt(s, from) && !TestFrom(s, from + 1) {
        forall i: nat | from <= i <= |s| ensures !ScanAt(s, i) {
          if i > from {
            assert from + 1 <= i <= |s|;
          }
        }
      }
    }
  }

  /** `iOS_PUSH_ENV_ENTITLEMENT.test(s)` (the pattern has no `g` flag, so nothing carries over between calls). */
  function HasPushEnvironment(s: string): bool {
    TestFrom(s, 0)
  }

  /** The scanner agrees with the regular expression on every text. */
  lemma HasPushEnvironmentMeaning(s: string)
    ensures HasPushEnvironment(s) <==> exists i: nat, j: nat, k: nat :: PatternMatchesAt(s, i, j, k)
  {
    TestFromMeaning(s, 0);
    if HasPushEnvironment(s) {
      var i: nat :| i <= |s| && ScanAt(s, i);
      ScanAtMeaning(s, i);
    } else {
      forall i: nat, j: nat, k: nat | PatternMatchesAt(s, i, j, k) ensures false {
        ScanAtMeaning(s, i);
      }
    }
  }

  /** The text a missing file's content turns into when it is matched: `"undefined"` has no entitlement. */
  lemma UndefinedHasNoPushEnvironment()
    ensures !HasPushEnvironment(TextOf(None))
  {
    HasPushEnvironmentMeaning(TextOf(None));
  }

  /** A typical entitlements file entry is recognised, whatever whitespace surrounds the name. */
  lemma SpacedKeyIsRecognised(before: string, after: string)
    requires forall p | 0 <= p < |before| :: IsWhitespace(before[p])
    requires forall p | 0 <= p < |after| :: IsWhitespace(after[p])
    ensures HasPushEnvironment(KeyOpen + before + ApsEnvironment + after + KeyClose)
  {
    var s := KeyOpen + before + ApsEnvironment + after + KeyClose;
    var j := |KeyOpen| + |before|;
    var k := j + |ApsEnvironment| + |after|;
    assert s[0..|KeyOpen|] == KeyOpen;
    assert s[j..j + |ApsEnvironment|] == ApsEnvironment;
    assert s[k..k + |KeyClose|] == KeyClose;
    forall p | |KeyOpen| <= p < j ensures IsWhitespace(s[p]) {
      assert s[p] == before[p - |KeyOpen|];
    }
    forall p | j + |ApsEnvironment| <= p < k ensures IsWhitespace(s[p]) {
      assert s[p] == after[p - j - |ApsEnvironment|];
    }
    assert PatternMatchesAt(s, 0, j, k);
    HasPushEnvironmentMeaning(s);
  }
}
