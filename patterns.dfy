/**
 * The file-name patterns of src/utils/patterns.ts. Each function builds a
 * regular expression from strings: the model keeps the pieces the source
 * text is made of (a head, an optional `.*`, an optional group of
 * alternatives, the final `$`, the `i` flag), renders the exact source text
 * from them, and gives `test` its meaning over those pieces.
 *
 * Inside the head and the alternatives only the metacharacters the tool's
 * names and extensions contain are interpreted: an unescaped `.` matches any
 * character except a line terminator and `\x` matches `x`; every other
 * character matches itself.
 */
module Patterns {
  import opened Wrappers
  import opened Strings
  import opened Arrays

  /** One position of a pattern piece: `.` or a literal character. */
  datatype Atom = AnyChar | Literal(c: char)

  /** How the regular-expression parser reads a piece of source text. */
  function Atoms(src: string): (r: seq<Atom>)
    ensures |r| <= |src|
  {
    if |src| == 0 then []
    else if src[0] == '\\' && |src| >= 2 then [Literal(src[1])] + Atoms(src[2..])
    else if src[0] == '.' then [AnyChar] + Atoms(src[1..])
    else [Literal(src[0])] + Atoms(src[1..])
  }

  /** With the `i` flag both sides are compared after case folding. */
  predicate AtomMatches(a: Atom, c: char, ignoreCase: bool) {
    match a
    case AnyChar => !IsLineTerminator(c)
    case Literal(l) => if ignoreCase then SameIgnoringCase(l, c) else l == c
  }

  /** `atoms` match exactly `s[i..j]`. */
  predicate AtomsMatchAt(atoms: seq<Atom>, s: string, i: nat, j: nat, ignoreCase: bool)
    requires i <= j <= |s|
  {
    j - i == |atoms| && forall k | 0 <= k < |atoms| :: AtomMatches(atoms[k], s[i + k], ignoreCase)
  }

  /**
   * A pattern `head`, then `.*` when `gap` holds, then `(a1|a2|...)` when
   * `group` is present, then `$`; `ignoreCase` is the `i` flag.
   */
  datatype FilePattern = FilePattern(head: string, gap: bool, group: Option<seq<string>>, ignoreCase: bool)

  /** The pattern's `source` text. */
  function Source(p: FilePattern): string {
    p.head + (if p.gap then ".*" else "") + (if p.group.Some? then "(" + Join(p.group.value, "|") + ")" else "") + "$"
  }

  predicate NoLineTerminatorIn(s: string, i: nat, j: nat)
    requires i <= j <= |s|
  {
    forall k | i <= k < j :: !IsLineTerminator(s[k])
  }

  /** The group (or, without a group, `$` alone) matches from `k` to the end of `s`. */
  predicate GroupMatchesAt(p: FilePattern, s: string, k: nat)
    requires k <= |s|
  {
    if p.group.None? then k == |s|
    else exists a | a in p.group.value :: AtomsMatchAt(Atoms(a), s, k, |s|, p.ignoreCase)
  }

  /** What follows the head matches from `j` to the end of `s`. */
  predicate TailMatchesAt(p: FilePattern, s: string, j: nat)
    requires j <= |s|
  {
    if p.gap then exists k | j <= k <= |s| :: NoLineTerminatorIn(s, j, k) && GroupMatchesAt(p, s, k)
    else GroupMatchesAt(p, s, j)
  }

  /** `atoms` match the text starting at `i`. */
  predicate HeadAt(atoms: seq<Atom>, s: string, i: nat, ignoreCase: bool) {
    i + |atoms| <= |s| && AtomsMatchAt(atoms, s, i, i + |atoms|, ignoreCase)
  }

  /** The whole pattern matches from `i` to the end of `s`. */
  predicate MatchesFrom(p: FilePattern, s: string, i: nat) {
    HeadAt(Atoms(p.head), s, i, p.ignoreCase) && TailMatchesAt(p, s, i + |Atoms(p.head)|)
  }

  /** `pattern.test(s)`: no `^`, so the match may start anywhere; `$` ends it at the end of `s`. */
  predicate Test(p: FilePattern, s: string) {
    exists i | 0 <= i <= |s| :: MatchesFrom(p, s, i)
  }

  /** `ext.replace('.', '\\.')`: a string pattern, so only the first `.` is escaped. */
  function EscapeFirstDot(ext: string): (r: string)
    ensures '.' !in ext ==> r == ext
  {
    if |ext| == 0 then ""
    else if ext[0] == '.' then "\\." + ext[1..]
    else [ext[0]] + EscapeFirstDot(ext[1..])
  }

  /**
   * The alternatives of `(${extensions.join('|')})`: with no extensions the
   * group is `()`, whose single alternative is empty.
   */
  function Alternatives(extensions: seq<string>): (r: seq<string>)
    ensures |extensions| == 0 ==> r == [""]
    ensures |extensions| > 0 ==> |r| == |extensions|
    ensures forall i | 0 <= i < |extensions| :: r[i] == EscapeFirstDot(extensions[i])
  {
    if |extensions| == 0 then [""] else Map(extensions, EscapeFirstDot)
  }

  /** `createFilePattern` (src/utils/patterns.ts:1-3). */
  function CreateFilePattern(fileNameWithExtension: string): (p: FilePattern)
    ensures Source(p) == fileNameWithExtension + "$"
    ensures !p.ignoreCase
  {
    FilePattern(fileNameWithExtension, false, None, false)
  }

  /** `constructFilePattern` (src/utils/patterns.ts:5-13). */
  function ConstructFilePattern(fileName: string, extensions: seq<string>): (p: FilePattern)
    ensures Source(p) == fileName + "(" + Join(Map(extensions, EscapeFirstDot), "|") + ")$"
    ensures !p.ignoreCase
  {
    FilePattern(fileName, false, Some(Alternatives(extensions)), false)
  }

  /** `constructKeywordFilePattern` (src/utils/patterns.ts:15-23). */
  function ConstructKeywordFilePattern(keyword: string, extensions: seq<string>): (p: FilePattern)
    ensures Source(p) == keyword + ".*(" + Join(Map(extensions, EscapeFirstDot), "|") + ")$"
    ensures p.ignoreCase
  {
    FilePattern(keyword, true, Some(Alternatives(extensions)), true)
  }

  // ---------------------------------------------------------------------------
  // What the patterns mean

  /** Text without `.` or `\`: every character stands for itself. */
  predicate Plain(s: string) {
    forall k | 0 <= k < |s| :: s[k] != '.' && s[k] != '\\'
  }

  /** An extension written as `.` followed by plain text, like `.swift`. */
  predicate DotExtension(ext: string) {
    |ext| >= 1 && ext[0] == '.' && Plain(ext[1..])
  }

  lemma {:induction false} PlainAtoms(s: string)
    requires Plain(s)
    ensures |Atoms(s)| == |s|
    ensures forall k | 0 <= k < |s| :: Atoms(s)[k] == Literal(s[k])
  {
    if |s| > 0 {
      assert Plain(s[1..]);
      PlainAtoms(s[1..]);
    }
  }

  lemma {:induction false} AtomsAppendPlain(a: string, b: string)
    requires Plain(a)
    ensures Atoms(a + b) == Atoms(a) + Atoms(b)
  {
    if |a| > 0 {
      assert (a + b)[1..] == a[1..] + b;
      assert Plain(a[1..]);
      AtomsAppendPlain(a[1..], b);
    } else {
      assert a + b == b;
    }
  }

  /** Plain text matches exactly itself without the `i` flag. */
  lemma PlainMatchIsItself(t: string, s: string, i: nat)
    requires Plain(t) && HeadAt(Atoms(t), s, i, false)
    ensures |Atoms(t)| == |t| && i + |t| <= |s| && s[i..i + |t|] == t
  {
    PlainAtoms(t);
    forall k | 0 <= k < |t| ensures s[i..i + |t|][k] == t[k] {
      assert AtomMatches(Atoms(t)[k], s[i + k], false);
    }
  }

  lemma PlainItselfMatches(t: string, s: string, i: nat)
    requires Plain(t) && i + |t| <= |s| && s[i..i + |t|] == t
    ensures |Atoms(t)| == |t| && HeadAt(Atoms(t), s, i, false)
  {
    PlainAtoms(t);
    forall k | 0 <= k < |t| ensures AtomMatches(Atoms(t)[k], s[i + k], false) {
      assert s[i + k] == s[i..i + |t|][k];
    }
  }

  /** An escaped extension reads as a literal `.` followed by the rest of the extension. */
  lemma EscapedExtensionAtoms(ext: string)
    requires DotExtension(ext)
    ensures |Atoms(EscapeFirstDot(ext))| == |ext|
    ensures forall k | 0 <= k < |ext| :: Atoms(EscapeFirstDot(ext))[k] == Literal(ext[k])
  {
    var rest := ext[1..];
    assert EscapeFirstDot(ext) == "\\." + rest;
    assert ("\\." + rest)[2..] == rest;
    assert Atoms(EscapeFirstDot(ext)) == [Literal('.')] + Atoms(rest);
    PlainAtoms(rest);
  }

  /**
   * Only the first `.` of an extension is escaped: in `.d.ts` the second dot
   * stays a wildcard.
   */
  lemma OnlyFirstDotEscaped(a: string, b: string)
    requires Plain(a) && Plain(b)
    ensures Atoms(EscapeFirstDot("." + a + "." + b)) == [Literal('.')] + Atoms(a) + [AnyChar] + Atoms(b)
  {
    var ext := "." + a + "." + b;
    var rest := a + ("." + b);
    assert ext[0] == '.' && ext[1..] == rest;
    assert EscapeFirstDot(ext) == "\\." + rest;
    var escaped := "\\." + rest;
    assert escaped[0] == '\\' && escaped[1] == '.' && escaped[2..] == rest;
    assert Atoms(escaped) == [Literal('.')] + Atoms(rest);
    AtomsAppendPlain(a, "." + b);
    assert ("." + b)[0] == '.' && ("." + b)[1..] == b;
    assert Atoms("." + b) == [AnyChar] + Atoms(b);
  }

  /** `createFilePattern(n)` is anchored only at the end: it tests whether the text ends with a match of `n`. */
  lemma CreateFilePatternMatchesSuffix(n: string, s: string)
    ensures Test(CreateFilePattern(n), s) <==> |Atoms(n)| <= |s| && HeadAt(Atoms(n), s, |s| - |Atoms(n)|, false)
  {
    var p := CreateFilePattern(n);
    var m := |Atoms(n)|;
    if Test(p, s) {
      var i :| 0 <= i <= |s| && MatchesFrom(p, s, i);
      assert i == |s| - m;
    }
    if m <= |s| && HeadAt(Atoms(n), s, |s| - m, false) {
      assert MatchesFrom(p, s, |s| - m);
    }
  }

  /**
   * The name is not escaped, so the `.` in `AppDelegate.m` matches any
   * character: the pattern for `a.b` accepts `a`, any one character that is
   * not a line terminator, and `b`, after any prefix.
   */
  lemma UnescapedDotMatchesAnyCharacter(prefix: string, a: string, b: string, c: char)
    requires Plain(a) && Plain(b) && !IsLineTerminator(c)
    ensures Test(CreateFilePattern(a + "." + b), prefix + a + [c] + b)
  {
    var n := a + "." + b;
    var s := prefix + a + [c] + b;
    var atoms := Atoms(n);
    DotNameAtoms(a, b);
    var i := |prefix|;
    var t := a + [c] + b;
    assert s == prefix + t;
    forall k | 0 <= k < |atoms| ensures AtomMatches(atoms[k], s[i + k], false) {
      assert s[i + k] == t[k];
      if k < |a| {
        assert t[k] == a[k];
      } else if k > |a| {
        assert t[k] == b[k - |a| - 1];
      }
    }
    assert HeadAt(atoms, s, |s| - |atoms|, false);
    CreateFilePatternMatchesSuffix(n, s);
  }

  /** A name with one unescaped `.` between plain parts reads as those parts' literals around a wildcard. */
  lemma DotNameAtoms(a: string, b: string)
    requires Plain(a) && Plain(b)
    ensures var atoms := Atoms(a + "." + b);
      && |atoms| == |a| + 1 + |b|
      && (forall k | 0 <= k < |a| :: atoms[k] == Literal(a[k]))
      && atoms[|a|] == AnyChar
      && (forall k | |a| < k < |atoms| :: atoms[k] == Literal(b[k - |a| - 1]))
  {
    DotNameSplits(a, b);
    var front, back := Atoms(a), Atoms(b);
    var atoms := front + ([AnyChar] + back);
    PlainAtoms(a);
    PlainAtoms(b);
    forall k | 0 <= k < |a| ensures atoms[k] == Literal(a[k]) {
      assert atoms[k] == front[k];
    }
    forall k | |a| < k < |atoms| ensures atoms[k] == Literal(b[k - |a| - 1]) {
      assert atoms[k] == back[k - |a| - 1];
    }
  }

  /** The parser reads a plain prefix, then the `.` as a wildcard, then the rest. */
  lemma DotNameSplits(a: string, b: string)
    requires Plain(a)
    ensures Atoms(a + "." + b) == Atoms(a) + ([AnyChar] + Atoms(b))
  {
    var tail := "." + b;
    assert a + "." + b == a + tail;
    AtomsAppendPlain(a, tail);
    assert tail[0] == '.' && tail[1..] == b;
  }

  /**
   * For a plain file name and extensions such as `.js`, `constructFilePattern`
   * tests whether the text ends with the name followed by one of the
   * extensions, exactly and with case: `MyApp.js` passes for the name `App`.
   */
  lemma ConstructFilePatternMeaning(fileName: string, extensions: seq<string>, s: string)
    requires Plain(fileName) && |extensions| > 0
    requires forall e | e in extensions :: DotExtension(e)
    ensures Test(ConstructFilePattern(fileName, extensions), s) <==>
      exists e | e in extensions :: EndsWith(s, fileName + e)
  {
    if Test(ConstructFilePattern(fileName, extensions), s) {
      var i :| 0 <= i <= |s| && MatchesFrom(ConstructFilePattern(fileName, extensions), s, i);
      assert Alternatives(extensions) == Map(extensions, EscapeFirstDot);
      var e := FilePatternMatchSplit(fileName, extensions, s, i);
      PlainFileMatchEndsWith(fileName, e, s, i);
    }
    if exists e | e in extensions :: EndsWith(s, fileName + e) {
      var e :| e in extensions && EndsWith(s, fileName + e);
      EndsWithFilePatternMatch(fileName, extensions, s, e);
    }
  }

  /** A match of the name pattern from `i` is the name followed by one escaped extension up to the end of the text. */
  lemma FilePatternMatchSplit(head: string, extensions: seq<string>, s: string, i: nat) returns (e: string)
    requires MatchesFrom(FilePattern(head, false, Some(Map(extensions, EscapeFirstDot)), false), s, i)
    ensures e in extensions && HeadAt(Atoms(head), s, i, false)
    ensures AtomsMatchAt(Atoms(EscapeFirstDot(e)), s, i + |Atoms(head)|, |s|, false)
  {
    var p := FilePattern(head, false, Some(Map(extensions, EscapeFirstDot)), false);
    var j := i + |Atoms(head)|;
    assert GroupMatchesAt(p, s, j);
    var a :| a in Map(extensions, EscapeFirstDot) && AtomsMatchAt(Atoms(a), s, j, |s|, false);
    e := EscapedAlternative(extensions, a);
    SameSourceSameMatch(a, EscapeFirstDot(e), s, j);
  }

  lemma SameSourceSameMatch(x: string, y: string, s: string, j: nat)
    requires x == y && j <= |s| && AtomsMatchAt(Atoms(x), s, j, |s|, false)
    ensures AtomsMatchAt(Atoms(y), s, j, |s|, false)
  {
  }

  /** For a plain name and a `.ext` extension, such a match is the name and the extension, literally. */
  lemma PlainFileMatchEndsWith(head: string, e: string, s: string, i: nat)
    requires Plain(head) && DotExtension(e) && HeadAt(Atoms(head), s, i, false)
    requires AtomsMatchAt(Atoms(EscapeFirstDot(e)), s, i + |Atoms(head)|, |s|, false)
    ensures EndsWith(s, head + e)
  {
    PlainMatchIsItself(head, s, i);
    EscapedExtensionMatch(e, s, i + |head|);
    SplitAt(s, i, i + |head|, head, e);
    assert |s| - |head + e| == i;
  }

  lemma SplitAt(s: string, i: nat, j: nat, x: string, y: string)
    requires i <= j <= |s| && s[i..j] == x && s[j..] == y
    ensures s[i..] == x + y
  {
    assert s[i..] == s[i..j] + s[j..];
  }

  /** Each alternative of the group is an escaped extension. */
  lemma EscapedAlternative(extensions: seq<string>, a: string) returns (e: string)
    requires a in Map(extensions, EscapeFirstDot)
    ensures e in extensions && a == EscapeFirstDot(e)
  {
    var idx :| 0 <= idx < |extensions| && Map(extensions, EscapeFirstDot)[idx] == a;
    e := extensions[idx];
  }

  /** An escaped `.ext` alternative matches only the text `.ext` itself. */
  lemma EscapedExtensionMatch(e: string, s: string, j: nat)
    requires DotExtension(e) && j <= |s| && AtomsMatchAt(Atoms(EscapeFirstDot(e)), s, j, |s|, false)
    ensures s[j..] == e
  {
    EscapedExtensionAtoms(e);
    forall k | 0 <= k < |e| ensures s[j..][k] == e[k] {
      assert AtomMatches(Atoms(EscapeFirstDot(e))[k], s[j + k], false);
    }
  }

  /** The name followed by one of the extensions at the end of the text is a match. */
  lemma EndsWithFilePatternMatch(fileName: string, extensions: seq<string>, s: string, e: string)
    requires Plain(fileName) && e in extensions && DotExtension(e) && EndsWith(s, fileName + e)
    ensures MatchesFrom(ConstructFilePattern(fileName, extensions), s, |s| - |fileName + e|)
  {
    var i := |s| - |fileName + e|;
    var j := i + |fileName|;
    assert s[i..] == fileName + e;
    assert s[i..j] == s[i..][..|fileName|] && s[j..] == s[i..][|fileName|..];
    PlainItselfMatches(fileName, s, i);
    EscapedExtensionMatches(e, s, j);
    MapHasImage(extensions, e, EscapeFirstDot);
    var p := ConstructFilePattern(fileName, extensions);
    assert GroupMatchesAt(p, s, j);
  }

  /** The text `.ext` matches the escaped `.ext` alternative. */
  lemma EscapedExtensionMatches(e: string, s: string, j: nat)
    requires DotExtension(e) && j <= |s| && s[j..] == e
    ensures AtomsMatchAt(Atoms(EscapeFirstDot(e)), s, j, |s|, false)
  {
    EscapedExtensionAtoms(e);
    forall k | 0 <= k < |e| ensures AtomMatches(Atoms(EscapeFirstDot(e))[k], s[j + k], false) {
      assert s[j + k] == s[j..][k];
    }
  }

  lemma MapHasImage<T, U>(xs: seq<T>, x: T, f: T -> U)
    requires x in xs
    ensures f(x) in Map(xs, f)
  {
    var idx :| 0 <= idx < |xs| && xs[idx] == x;
    assert Map(xs, f)[idx] == f(x);
  }


  /** With no extensions the group `()` matches the empty text: the name pattern means "ends with the name". */
  lemma ConstructFilePatternNoExtensions(fileName: string, s: string)
    ensures Test(ConstructFilePattern(fileName, []), s) <==> Test(CreateFilePattern(fileName), s)
  {
    var p := ConstructFilePattern(fileName, []);
    var q := CreateFilePattern(fileName);
    var n := |Atoms(fileName)|;
    forall j | 0 <= j <= |s| ensures TailMatchesAt(p, s, j) <==> TailMatchesAt(q, s, j) {
      assert Atoms("") == [];
      if TailMatchesAt(p, s, j) {
        var a :| a in p.group.value && AtomsMatchAt(Atoms(a), s, j, |s|, false);
        assert a == "";
      }
      if j == |s| {
        assert AtomsMatchAt(Atoms(""), s, j, |s|, false);
      }
    }
    forall i | 0 <= i <= |s| ensures MatchesFrom(p, s, i) <==> MatchesFrom(q, s, i) {
    }
  }

  /**
   * With no extensions the keyword pattern means "contains the keyword, and
   * no line terminator follows it".
   */
  lemma KeywordPatternNoExtensions(keyword: string, s: string)
    ensures Test(ConstructKeywordFilePattern(keyword, []), s) <==>
      exists i | 0 <= i <= |s| :: HeadAt(Atoms(keyword), s, i, true) && NoLineTerminatorIn(s, i + |Atoms(keyword)|, |s|)
  {
    var p := ConstructKeywordFilePattern(keyword, []);
    assert Atoms("") == [];
    forall j | 0 <= j <= |s| ensures TailMatchesAt(p, s, j) <==> NoLineTerminatorIn(s, j, |s|) {
      if TailMatchesAt(p, s, j) {
        var k :| j <= k <= |s| && NoLineTerminatorIn(s, j, k) && GroupMatchesAt(p, s, k);
        var a :| a in p.group.value && AtomsMatchAt(Atoms(a), s, k, |s|, true);
        assert a == "" && k == |s|;
      }
      if NoLineTerminatorIn(s, j, |s|) {
        assert AtomsMatchAt(Atoms(""), s, |s|, |s|, true);
        assert GroupMatchesAt(p, s, |s|);
      }
    }
    forall i | 0 <= i <= |s|
      ensures MatchesFrom(p, s, i) <==> HeadAt(Atoms(keyword), s, i, true) && NoLineTerminatorIn(s, i + |Atoms(keyword)|, |s|)
    {
    }
  }

  /** ASCII upper-casing of a whole text. */
  function UpperAll(s: string): (r: string)
    ensures |r| == |s|
    ensures forall k | 0 <= k < |s| :: r[k] == ToUpper(s[k])
  {
    if |s| == 0 then "" else [ToUpper(s[0])] + UpperAll(s[1..])
  }

  lemma ToUpperKeepsLineTerminators(c: char)
    ensures IsLineTerminator(ToUpper(c)) <==> IsLineTerminator(c)
  {
  }

  /** Under the `i` flag an atom matches a character exactly when it matches its upper-case form. */
  lemma AtomMatchesUpper(a: Atom, c: char)
    ensures AtomMatches(a, c, true) <==> AtomMatches(a, ToUpper(c), true)
  {
  }

  lemma AtomsMatchUpper(atoms: seq<Atom>, s: string, i: nat, j: nat)
    requires i <= j <= |s|
    ensures AtomsMatchAt(atoms, s, i, j, true) <==> AtomsMatchAt(atoms, UpperAll(s), i, j, true)
  {
    var u := UpperAll(s);
    if j - i == |atoms| {
      forall k | 0 <= k < |atoms|
        ensures AtomMatches(atoms[k], s[i + k], true) <==> AtomMatches(atoms[k], u[i + k], true)
      {
        assert u[i + k] == ToUpper(s[i + k]);
        AtomMatchesUpper(atoms[k], s[i + k]);
      }
    }
  }

  /** The keyword pattern carries the `i` flag: upper-casing the text never changes the answer. */
  lemma KeywordPatternIgnoresCase(keyword: string, extensions: seq<string>, s: string)
    ensures Test(ConstructKeywordFilePattern(keyword, extensions), s) <==>
      Test(ConstructKeywordFilePattern(keyword, extensions), UpperAll(s))
  {
    var p := ConstructKeywordFilePattern(keyword, extensions);
    var u := UpperAll(s);
    forall k | 0 <= k <= |s| ensures GroupMatchesAt(p, s, k) <==> GroupMatchesAt(p, u, k) {
      forall a | a in p.group.value
        ensures AtomsMatchAt(Atoms(a), s, k, |s|, true) <==> AtomsMatchAt(Atoms(a), u, k, |s|, true)
      {
        AtomsMatchUpper(Atoms(a), s, k, |s|);
      }
    }
    forall j, k | 0 <= j <= k <= |s| ensures NoLineTerminatorIn(s, j, k) <==> NoLineTerminatorIn(u, j, k) {
      forall l | j <= l < k ensures IsLineTerminator(s[l]) <==> IsLineTerminator(u[l]) {
        ToUpperKeepsLineTerminators(s[l]);
      }
    }
    forall j | 0 <= j <= |s| ensures TailMatchesAt(p, s, j) <==> TailMatchesAt(p, u, j) {
      if TailMatchesAt(p, s, j) {
        var k :| j <= k <= |s| && NoLineTerminatorIn(s, j, k) && GroupMatchesAt(p, s, k);
        assert NoLineTerminatorIn(u, j, k) && GroupMatchesAt(p, u, k);
      }
      if TailMatchesAt(p, u, j) {
        var k :| j <= k <= |s| && NoLineTerminatorIn(u, j, k) && GroupMatchesAt(p, u, k);
        assert NoLineTerminatorIn(s, j, k) && GroupMatchesAt(p, s, k);
      }
    }
    forall i | 0 <= i <= |s| ensures HeadAt(Atoms(keyword), s, i, true) <==> HeadAt(Atoms(keyword), u, i, true) {
      if i + |Atoms(keyword)| <= |s| {
        AtomsMatchUpper(Atoms(keyword), s, i, i + |Atoms(keyword)|);
      }
    }
    forall i | 0 <= i <= |s| ensures MatchesFrom(p, s, i) <==> MatchesFrom(p, u, i) {
    }
  }
}
