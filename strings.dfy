/**
 * String helpers of src/utils/string.ts (`trimQuotes`, `trimEqualOperator`)
 * and the JavaScript string primitives they and the rest of the tool rely on
 * (`trim`, `includes`, `startsWith`, `endsWith`, `join`).
 */
module Strings {
  import opened Wrappers

  /** ECMAScript WhiteSpace and LineTerminator code points: what `trim` removes and `\s` matches. */
  predicate IsWhitespace(c: char) {
    || '\t' <= c <= '\r'
    || c == ' ' || c == '\U{00A0}' || c == '\U{1680}'
    || '\U{2000}' <= c <= '\U{200A}'
    || c == '\U{2028}' || c == '\U{2029}' || c == '\U{202F}' || c == '\U{205F}'
    || c == '\U{3000}' || c == '\U{FEFF}'
  }

  /** The code points a regular-expression `.` does not match. */
  predicate IsLineTerminator(c: char) {
    c in {'\n', '\r', '\U{2028}', '\U{2029}'}
  }

  predicate IsQuote(c: char) {
    c == '\'' || c == '"'
  }

  /** No leading and no trailing whitespace. */
  predicate NoEdgeWhitespace(s: string) {
    |s| > 0 ==> !IsWhitespace(s[0]) && !IsWhitespace(s[|s| - 1])
  }

  predicate NoQuotes(s: string) {
    forall i | 0 <= i < |s| :: !IsQuote(s[i])
  }

  /** `String.prototype.trimStart`: the longest suffix that does not start with whitespace. */
  function TrimStart(s: string): string {
    if |s| > 0 && IsWhitespace(s[0]) then TrimStart(s[1..]) else s
  }

  /** `String.prototype.trimEnd`: the longest prefix that does not end with whitespace. */
  function TrimEnd(s: string): string {
    if |s| > 0 && IsWhitespace(s[|s| - 1]) then TrimEnd(s[..|s| - 1]) else s
  }

  /** `String.prototype.trim`. */
  function Trim(s: string): string {
    TrimEnd(TrimStart(s))
  }

  /** `input.replace(/['"]/g, '')`: every single and double quote removed. */
  function RemoveQuotes(s: string): string {
    if |s| == 0 then []
    else if IsQuote(s[0]) then RemoveQuotes(s[1..])
    else [s[0]] + RemoveQuotes(s[1..])
  }

  /** `trimQuotes` (src/utils/string.ts:6-8); `cleanString` in run-diagnostics.ts is the same expression. */
  function TrimQuotes(input: string): string {
    Trim(RemoveQuotes(input))
  }

  /** `trimEqualOperator` (src/utils/string.ts:10-12): at most one leading `=` is removed, then the rest is trimmed. */
  function TrimEqualOperator(input: string): string {
    Trim(if |input| > 0 && input[0] == '=' then input[1..] else input)
  }

  // ---------------------------------------------------------------------------
  // What trimming leaves

  /** `trimStart` removes a whitespace prefix and nothing else, and leaves no leading whitespace. */
  lemma {:induction false} TrimStartShape(s: string)
    ensures |TrimStart(s)| <= |s| && TrimStart(s) == s[|s| - |TrimStart(s)|..]
    ensures forall k | 0 <= k < |s| - |TrimStart(s)| :: IsWhitespace(s[k])
    ensures |TrimStart(s)| > 0 ==> !IsWhitespace(TrimStart(s)[0])
  {
    if |s| > 0 && IsWhitespace(s[0]) {
      TrimStartShape(s[1..]);
      forall k | 1 <= k < |s| - |TrimStart(s)| ensures IsWhitespace(s[k]) {
        assert s[k] == s[1..][k - 1];
      }
    }
  }

  /** `trimEnd` removes a whitespace suffix and nothing else, and leaves no trailing whitespace. */
  lemma {:induction false} TrimEndShape(s: string)
    ensures |TrimEnd(s)| <= |s| && TrimEnd(s) == s[..|TrimEnd(s)|]
    ensures forall k | |TrimEnd(s)| <= k < |s| :: IsWhitespace(s[k])
    ensures |TrimEnd(s)| > 0 ==> !IsWhitespace(TrimEnd(s)[|TrimEnd(s)| - 1])
  {
    if |s| > 0 && IsWhitespace(s[|s| - 1]) {
      TrimEndShape(s[..|s| - 1]);
    }
  }

  /** `trim` leaves no whitespace at either edge. */
  lemma TrimShape(s: string)
    ensures NoEdgeWhitespace(Trim(s))
  {
    var t := TrimStart(s);
    TrimStartShape(s);
    TrimEndShape(t);
    var r := TrimEnd(t);
    assert |r| > 0 ==> r[0] == t[0];
  }

  /** Removing quotes leaves no quote, never lengthens, and keeps only characters of the input. */
  lemma {:induction false} RemoveQuotesShape(s: string)
    ensures NoQuotes(RemoveQuotes(s))
    ensures |RemoveQuotes(s)| <= |s|
    ensures forall c :: c in RemoveQuotes(s) ==> c in s
  {
    if |s| > 0 {
      RemoveQuotesShape(s[1..]);
      assert forall c :: c in s[1..] ==> c in s;
    }
  }

  /** `trimQuotes` leaves neither quotes nor edge whitespace. */
  lemma TrimQuotesShape(input: string)
    ensures NoQuotes(TrimQuotes(input))
    ensures NoEdgeWhitespace(TrimQuotes(input))
  {
    var q := RemoveQuotes(input);
    RemoveQuotesShape(input);
    TrimShape(q);
    TrimStartShape(q);
    var t := TrimStart(q);
    TrimEndShape(t);
    var r := TrimEnd(t);
    assert forall k | 0 <= k < |r| :: r[k] == q[|q| - |t| + k];
  }

  /** `trimEqualOperator` leaves no edge whitespace and shortens a string that starts with `=`. */
  lemma TrimEqualOperatorShape(input: string)
    ensures NoEdgeWhitespace(TrimEqualOperator(input))
    ensures |input| > 0 && input[0] == '=' ==> |TrimEqualOperator(input)| < |input|
  {
    var rest := if |input| > 0 && input[0] == '=' then input[1..] else input;
    TrimShape(rest);
    TrimStartShape(rest);
    TrimEndShape(TrimStart(rest));
  }

  // ---------------------------------------------------------------------------
  // Properties of Trim and TrimQuotes

  lemma {:induction false} TrimStartIdentity(s: string)
    requires |s| == 0 || !IsWhitespace(s[0])
    ensures TrimStart(s) == s
  {
  }

  lemma {:induction false} TrimEndIdentity(s: string)
    requires |s| == 0 || !IsWhitespace(s[|s| - 1])
    ensures TrimEnd(s) == s
  {
  }

  /** A string without edge whitespace is its own trim. */
  lemma TrimIdentity(s: string)
    requires NoEdgeWhitespace(s)
    ensures Trim(s) == s
  {
    TrimStartIdentity(s);
    TrimEndIdentity(s);
  }

  /** Removing quotes from a quote-free string changes nothing. */
  lemma {:induction false} RemoveQuotesIdentity(s: string)
    requires NoQuotes(s)
    ensures RemoveQuotes(s) == s
  {
    if |s| > 0 {
      RemoveQuotesIdentity(s[1..]);
    }
  }

  /** `trimQuotes` leaves a string with no quotes and no edge whitespace unchanged. */
  lemma TrimQuotesIdentity(s: string)
    requires NoQuotes(s) && NoEdgeWhitespace(s)
    ensures TrimQuotes(s) == s
  {
    RemoveQuotesIdentity(s);
    TrimIdentity(s);
  }

  /** `trimQuotes` is idempotent. */
  lemma TrimQuotesIdempotent(s: string)
    ensures TrimQuotes(TrimQuotes(s)) == TrimQuotes(s)
  {
    TrimQuotesShape(s);
    TrimQuotesIdentity(TrimQuotes(s));
  }

  /** The product type literal compared against every target passes through `trimQuotes` unchanged. */
  lemma TrimQuotesAppExtensionLiteral()
    ensures TrimQuotes("com.apple.product-type.app-extension") == "com.apple.product-type.app-extension"
  {
    var s := "com.apple.product-type.app-extension";
    assert NoQuotes(s);
    TrimQuotesIdentity(s);
  }

  /** Quotes around a value, as the pbxproj parser leaves them on `productType`, do not change the result. */
  lemma TrimQuotesIgnoresQuoting(s: string)
    ensures TrimQuotes("\"" + s + "\"") == TrimQuotes(s)
  {
    var dq := "\"";
    RemoveQuotesAppend(dq + s, dq);
    RemoveQuotesAppend(dq, s);
    assert RemoveQuotes(dq) == RemoveQuotes(dq[1..]) == [];
    assert RemoveQuotes(dq + s + dq) == RemoveQuotes(s);
    TrimQuotesUnfold(dq + s + dq);
    TrimQuotesUnfold(s);
  }

  lemma TrimUnfold(s: string)
    ensures Trim(s) == TrimEnd(TrimStart(s))
  {
  }

  lemma TrimStartSpace(s: string)
    ensures TrimStart(" " + s) == TrimStart(s)
  {
    assert (" " + s)[1..] == s;
  }

  lemma TrimQuotesUnfold(s: string)
    ensures TrimQuotes(s) == Trim(RemoveQuotes(s))
  {
  }

  lemma {:induction false} RemoveQuotesAppend(a: string, b: string)
    ensures RemoveQuotes(a + b) == RemoveQuotes(a) + RemoveQuotes(b)
  {
    if |a| > 0 {
      assert (a + b)[1..] == a[1..] + b;
      RemoveQuotesAppend(a[1..], b);
    } else {
      assert a + b == b;
    }
  }

  // ---------------------------------------------------------------------------
  // Properties of TrimEqualOperator

  /** Exactly one `=` is removed: `=` followed by a trimmed string yields that string. */
  lemma TrimEqualOperatorDropsOne(t: string)
    requires NoEdgeWhitespace(t)
    ensures TrimEqualOperator("=" + t) == t
  {
    assert ("=" + t)[1..] == t;
    TrimIdentity(t);
  }

  /** A string that does not start with `=` is only trimmed. */
  lemma TrimEqualOperatorNoOperator(s: string)
    requires |s| == 0 || s[0] != '='
    ensures TrimEqualOperator(s) == Trim(s)
  {
  }

  /** A trimmed string that does not start with `=` is left as it is. */
  lemma TrimEqualOperatorIdentity(s: string)
    requires NoEdgeWhitespace(s) && (|s| == 0 || s[0] != '=')
    ensures TrimEqualOperator(s) == s
  {
    TrimEqualOperatorNoOperator(s);
    TrimIdentity(s);
  }

  /** `==1.0` keeps its second `=`. */
  lemma TrimEqualOperatorDouble()
    ensures TrimEqualOperator("==1.0") == "=1.0"
  {
    TrimEqualOperatorDropsOne("=1.0");
  }

  /** The `=` must be the very first character: whitespace before it keeps it in place. */
  lemma TrimEqualOperatorLeadingSpace(t: string)
    requires NoEdgeWhitespace(t)
    ensures TrimEqualOperator(" " + t) == t
  {
    var s := " " + t;
    assert s[0] == ' ';
    TrimEqualOperatorNoOperator(s);
    TrimStartSpace(t);
    TrimIdentity(t);
    TrimUnfold(s);
    TrimUnfold(t);
  }

  /** ` =1.0` only loses its space. */
  lemma TrimEqualOperatorLeadingSpaceExample()
    ensures TrimEqualOperator(" =1.0") == "=1.0"
  {
    var t := "=1.0";
    assert t[0] == '=' && t[3] == '0';
    TrimEqualOperatorLeadingSpace(t);
    assert " " + t == " =1.0";
  }

  // ---------------------------------------------------------------------------
  // JavaScript string primitives used by the checks

  /** `s.startsWith(prefix)`. */
  predicate StartsWith(s: string, prefix: string) {
    |prefix| <= |s| && s[..|prefix|] == prefix
  }

  /** `s.endsWith(suffix)`. */
  predicate EndsWith(s: string, suffix: string) {
    |suffix| <= |s| && s[|s| - |suffix|..] == suffix
  }

  /** `needle` occurs in `s` at position `i`. */
  predicate OccursAt(s: string, needle: string, i: int) {
    0 <= i && i + |needle| <= |s| && s[i..i + |needle|] == needle
  }

  /** `s.includes(needle)`, written as the left-to-right scan an implementation performs. */
  function Contains(s: string, needle: string): (b: bool)
    ensures b <==> exists i :: OccursAt(s, needle, i)
  {
    ContainsFrom(s, needle, 0)
  }

  function ContainsFrom(s: string, needle: string, from: nat): (b: bool)
    ensures b <==> exists i :: from <= i && OccursAt(s, needle, i)
    decreases |s| - from
  {
    if from + |needle| > |s| then
      assert forall i :: from <= i ==> !OccursAt(s, needle, i);
      false
    else if s[from..from + |needle|] == needle then
      assert OccursAt(s, needle, from);
      true
    else
      var b := ContainsFrom(s, needle, from + 1);
      assert (exists i :: from <= i && OccursAt(s, needle, i)) ==> (exists i :: from + 1 <= i && OccursAt(s, needle, i));
      b
  }

  /** The text a value becomes where JavaScript converts it to a string: `undefined` becomes `"undefined"`. */
  function TextOf(value: Option<string>): (r: string)
    ensures value.Some? ==> r == value.value
    ensures value.None? ==> r == "undefined"
  {
    if value.Some? then value.value else "undefined"
  }

  /** A text without some character of the needle cannot contain the needle. */
  lemma MissingCharacterExcludes(s: string, needle: string, c: char)
    requires c in needle && c !in s
    ensures !Contains(s, needle)
  {
  }

  /** `s.indexOf(needle, from)`: the first position at or after `from` where `needle` occurs. */
  function IndexOf(s: string, needle: string, from: nat): (r: Option<nat>)
    ensures r.Some? ==> from <= r.value && OccursAt(s, needle, r.value)
    ensures r.Some? ==> forall j | from <= j < r.value :: !OccursAt(s, needle, j)
    ensures r.None? <==> forall j | from <= j :: !OccursAt(s, needle, j)
    decreases |s| - from
  {
    if from + |needle| > |s| then None
    else if s[from..from + |needle|] == needle then Some(from)
    else
      assert !OccursAt(s, needle, from);
      IndexOf(s, needle, from + 1)
  }

  /** `s.replace(needle, "")` with a string pattern: only the first occurrence is removed. */
  function RemoveFirst(s: string, needle: string): (r: string)
    ensures (forall j :: !OccursAt(s, needle, j)) ==> r == s
    ensures (exists j :: OccursAt(s, needle, j)) ==> |r| == |s| - |needle|
    ensures (exists j :: OccursAt(s, needle, j)) ==> exists i ::
      && OccursAt(s, needle, i)
      && (forall j | 0 <= j < i :: !OccursAt(s, needle, j))
      && r == s[..i] + s[i + |needle|..]
  {
    match IndexOf(s, needle, 0)
    case None => s
    case Some(i) =>
      var r := s[..i] + s[i + |needle|..];
      assert OccursAt(s, needle, i) && (forall j | 0 <= j < i :: !OccursAt(s, needle, j)) && r == s[..i] + s[i + |needle|..];
      r
  }

  /** `parts.join(sep)`. */
  function Join(parts: seq<string>, sep: string): (r: string)
    ensures |parts| == 0 ==> r == ""
    ensures |parts| == 1 ==> r == parts[0]
  {
    if |parts| == 0 then ""
    else if |parts| == 1 then parts[0]
    else parts[0] + sep + Join(parts[1..], sep)
  }

  /** Joining one more part appends the separator and that part. */
  lemma {:induction false} JoinAppend(parts: seq<string>, p: string, sep: string)
    requires |parts| > 0
    ensures Join(parts + [p], sep) == Join(parts, sep) + sep + p
  {
    if |parts| > 1 {
      assert (parts + [p])[1..] == parts[1..] + [p];
      JoinAppend(parts[1..], p, sep);
    }
  }

  /** ASCII case folding: the part of the `i` flag's canonicalisation the model covers. */
  function ToUpper(c: char): (u: char)
    ensures 'a' <= c <= 'z' ==> u != c
    ensures !('a' <= c <= 'z') ==> u == c
  {
    if 'a' <= c <= 'z' then (c as int - 32) as char else c
  }

  predicate SameIgnoringCase(a: char, b: char) {
    ToUpper(a) == ToUpper(b)
  }

  /** `new RegExp(needle, 'i').test(s)` for a needle without metacharacters. */
  function ContainsIgnoringCase(s: string, needle: string): (b: bool)
    ensures b <==> exists i :: 0 <= i && i + |needle| <= |s| && MatchesIgnoringCaseAt(s, needle, i)
  {
    ContainsIgnoringCaseFrom(s, needle, 0)
  }

  predicate MatchesIgnoringCaseAt(s: string, needle: string, i: nat)
    requires i + |needle| <= |s|
  {
    forall k | 0 <= k < |needle| :: SameIgnoringCase(s[i + k], needle[k])
  }

  function ContainsIgnoringCaseFrom(s: string, needle: string, from: nat): (b: bool)
    ensures b <==> exists i :: from <= i && i + |needle| <= |s| && MatchesIgnoringCaseAt(s, needle, i)
    decreases |s| - from
  {
    if from + |needle| > |s| then false
    else if MatchesIgnoringCaseAt(s, needle, from) then true
    else
      var b := ContainsIgnoringCaseFrom(s, needle, from + 1);
      assert (exists i :: from <= i && i + |needle| <= |s| && MatchesIgnoringCaseAt(s, needle, i)) ==>
             (exists i :: from + 1 <= i && i + |needle| <= |s| && MatchesIgnoringCaseAt(s, needle, i));
      b
  }
}
