/**
 * How a JavaScript regular expression with the `g` flag walks a string:
 * `exec` searches from `lastIndex` for the leftmost position where the
 * pattern matches, moves `lastIndex` to the end of that match, and resets
 * it to 0 when no match is left. The pattern itself is abstracted as a
 * matcher: the match that starts at exactly a given position, if any.
 */
module Scan {
  import opened Wrappers
  import opened Arrays

  /** A match: its start, the text of its first capture group, and its end. */
  datatype Span = Span(start: nat, capture: string, end: nat)

  /** Index just past the longest run of characters satisfying `keep` that starts at `i`: a greedy `[...]*`. */
  function SkipWhile(s: string, i: nat, keep: char -> bool): (j: nat)
    requires i <= |s|
    ensures i <= j <= |s|
    ensures forall k | i <= k < j :: keep(s[k])
    ensures j == |s| || !keep(s[j])
    decreases |s| - i
  {
    if i < |s| && keep(s[i]) then SkipWhile(s, i + 1, keep) else i
  }

  /** A greedy run ends at the first character that does not satisfy `keep`. */
  lemma {:induction false} SkipWhileStopsAt(s: string, i: nat, j: nat, keep: char -> bool)
    requires i <= j <= |s|
    requires forall k | i <= k < j :: keep(s[k])
    requires j == |s| || !keep(s[j])
    ensures SkipWhile(s, i, keep) == j
    decreases j - i
  {
    if i < j {
      SkipWhileStopsAt(s, i + 1, j, keep);
    }
  }

  /** A pattern's matcher: the match of the pattern in `text` that starts exactly at `p`, if any. */
  type Matcher = (string, nat) -> Option<Span>

  /** A matcher reports non-empty matches that start where asked and end inside the text. */
  ghost predicate Anchored(matchAt: Matcher) {
    forall text: string, p: nat :: matchAt(text, p).Some? ==>
      matchAt(text, p).value.start == p && p < matchAt(text, p).value.end <= |text|
  }

  /** `exec` with `lastIndex = from`: the leftmost match starting at or after `from`. */
  function NextMatch(matchAt: Matcher, text: string, from: nat): (r: Option<Span>)
    requires Anchored(matchAt)
    ensures r.Some? ==> from <= r.value.start && matchAt(text, r.value.start) == r
    ensures r.Some? ==> forall q | from <= q < r.value.start :: matchAt(text, q).None?
    ensures r.None? ==> forall q | from <= q :: matchAt(text, q).None?
    decreases |text| + 1 - from
  {
    if from >= |text| then None
    else if matchAt(text, from).Some? then matchAt(text, from)
    else NextMatch(matchAt, text, from + 1)
  }

  /**
   * The matches `exec` returns one after another from `lastIndex = from`
   * until it returns null. Each search resumes where the previous match
   * ended, so the matches come left to right and never overlap.
   */
  function AllMatches(matchAt: Matcher, text: string, from: nat): seq<Span>
    requires Anchored(matchAt)
    decreases |text| + 1 - from
  {
    match NextMatch(matchAt, text, from)
    case None => []
    case Some(m) => [m] + AllMatches(matchAt, text, m.end)
  }

  /** Every reported match is a match of the pattern at or after `from`, and the matches come left to right without overlapping. */
  lemma {:induction false} AllMatchesShape(matchAt: Matcher, text: string, from: nat)
    requires Anchored(matchAt)
    ensures forall i | 0 <= i < |AllMatches(matchAt, text, from)| ::
      from <= AllMatches(matchAt, text, from)[i].start && matchAt(text, AllMatches(matchAt, text, from)[i].start) == Some(AllMatches(matchAt, text, from)[i])
    ensures forall i | 0 <= i < |AllMatches(matchAt, text, from)| - 1 :: AllMatches(matchAt, text, from)[i].end <= AllMatches(matchAt, text, from)[i + 1].start
    decreases |text| + 1 - from
  {
    match NextMatch(matchAt, text, from)
    case None =>
    case Some(m) =>
      assert matchAt(text, m.start) == Some(m);
      assert from <= m.start < m.end;
      var rest := AllMatches(matchAt, text, m.end);
      AllMatchesShape(matchAt, text, m.end);
      var r := [m] + rest;
      assert AllMatches(matchAt, text, from) == r;
      forall i | 1 <= i < |r|
        ensures from <= r[i].start && matchAt(text, r[i].start) == Some(r[i])
      {
        assert r[i] == rest[i - 1];
      }
      forall i | 0 <= i < |r| - 1
        ensures r[i].end <= r[i + 1].start
      {
        assert r[i + 1] == rest[i];
        if i > 0 {
          assert r[i] == rest[i - 1];
        }
      }
  }

  /** The walk reports nothing exactly when the pattern matches nowhere at or after `from`. */
  lemma AllMatchesEmpty(matchAt: Matcher, text: string, from: nat)
    requires Anchored(matchAt)
    ensures |AllMatches(matchAt, text, from)| == 0 <==> forall q | from <= q :: matchAt(text, q).None?
  {
  }

  /** Every position where the pattern matches lies inside one of the matches the walk reports. */
  lemma {:induction false} AllMatchesCoverEveryMatch(matchAt: Matcher, text: string, from: nat, q: nat) returns (i: nat)
    requires Anchored(matchAt)
    requires from <= q && matchAt(text, q).Some?
    ensures var r := AllMatches(matchAt, text, from);
      i < |r| && r[i].start <= q < r[i].end
    decreases |text| + 1 - from
  {
    var m := NextMatch(matchAt, text, from).value;
    var rest := AllMatches(matchAt, text, m.end);
    assert AllMatches(matchAt, text, from) == [m] + rest;
    if q >= m.end {
      var j := AllMatchesCoverEveryMatch(matchAt, text, m.end, q);
      i := j + 1;
    } else {
      i := 0;
    }
  }

  /** The first capture group of each match, in order. */
  function Captures(matches: seq<Span>): (r: seq<string>)
    ensures |r| == |matches|
    ensures forall i | 0 <= i < |r| :: r[i] == matches[i].capture
  {
    if |matches| == 0 then [] else [matches[0].capture] + Captures(matches[1..])
  }

  lemma CapturesCons(m: Span, rest: seq<Span>)
    ensures Captures([m] + rest) == [m.capture] + Captures(rest)
  {
    assert ([m] + rest)[1..] == rest;
  }

  /** Pushing the capture of the next match moves it from the matches still to come to the collected captures. */
  lemma CollectStep(captures: seq<string>, m: Span, rest: seq<Span>, total: seq<string>)
    requires captures + Captures([m] + rest) == total
    ensures (captures + [m.capture]) + Captures(rest) == total
  {
    CapturesCons(m, rest);
    assert (captures + [m.capture]) + Captures(rest) == captures + ([m.capture] + Captures(rest));
  }

  /** A regular expression object with the `g` flag: its pattern and its `lastIndex`. */
  class GlobalPattern {
    const matchAt: Matcher
    var lastIndex: nat

    constructor(matchAt: Matcher)
      ensures this.matchAt == matchAt && lastIndex == 0
    {
      this.matchAt := matchAt;
      lastIndex := 0;
    }

    /** `exec(text)`: on a match `lastIndex` moves to its end; on a failure it is reset to 0. */
    method Exec(text: string) returns (m: Option<Span>)
      requires Anchored(matchAt)
      modifies this
      ensures m == NextMatch(matchAt, text, old(lastIndex))
      ensures lastIndex == (if m.Some? then m.value.end else 0)
    {
      m := NextMatch(matchAt, text, lastIndex);
      lastIndex := if m.Some? then m.value.end else 0;
    }
  }

  /**
   * `while ((match = pattern.exec(text)) !== null) captures.push(match[1])`.
   * The loop runs until `exec` fails, so it always leaves `lastIndex` at 0.
   */
  method CollectCaptures(pattern: GlobalPattern, text: string) returns (captures: seq<string>)
    requires Anchored(pattern.matchAt)
    modifies pattern
    ensures captures == Captures(AllMatches(pattern.matchAt, text, old(pattern.lastIndex)))
    ensures pattern.lastIndex == 0
  {
    ghost var matchAt := pattern.matchAt;
    ghost var all := AllMatches(matchAt, text, pattern.lastIndex);
    captures := [];
    var m := pattern.Exec(text);
    while m.Some?
      invariant m.Some? ==> m.value.end <= |text| && pattern.lastIndex == m.value.end
      invariant m.None? ==> pattern.lastIndex == 0
      invariant captures + Captures(Remaining(matchAt, text, m)) == Captures(all)
      decreases if m.Some? then |text| + 1 - m.value.end else 0
    {
      var prev := m.value;
      ghost var rest := AllMatches(matchAt, text, prev.end);
      CollectStep(captures, prev, rest, Captures(all));
      captures := captures + [prev.capture];
      m := pattern.Exec(text);
      assert rest == Remaining(matchAt, text, m);
    }
    assert captures + [] == captures;
  }

  /** The matches still to come once `exec` has returned `m`. */
  ghost function Remaining(matchAt: Matcher, text: string, m: Option<Span>): seq<Span>
    requires Anchored(matchAt)
  {
    if m.Some? then [m.value] + AllMatches(matchAt, text, m.value.end) else []
  }
}
