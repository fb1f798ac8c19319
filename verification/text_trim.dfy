/**
 * `String.prototype.trim` as the card-creation form uses it: strip white space
 * from both ends. White space is the fixed set ECMAScript counts as WhiteSpace
 * or LineTerminator (no Unicode database lookups).
 */
module TextTrim {

  /** Tab, line feed, vertical tab, form feed, carriage return, space, the
      no-break spaces, the Unicode space separators, the line and paragraph
      separators and the byte-order mark. */
  predicate IsWhitespace(c: char) {
    c == ' ' || ('\t' <= c <= '\r')
    || c == '\U{A0}' || c == '\U{1680}'
    || ('\U{2000}' <= c <= '\U{200A}')
    || c == '\U{2028}' || c == '\U{2029}'
    || c == '\U{202F}' || c == '\U{205F}' || c == '\U{3000}'
    || c == '\U{FEFF}'
  }

  predicate AllWhitespace(s: string) {
    forall k | 0 <= k < |s| :: IsWhitespace(s[k])
  }

  /** Where the kept text starts: the first index at or after `i` that is not
      white space, or the end of the string. */
  function TrimStart(s: string, i: nat): (start: nat)
    requires i <= |s|
    ensures i <= start <= |s|
    ensures forall k | i <= k < start :: IsWhitespace(s[k])
    ensures start < |s| ==> !IsWhitespace(s[start])
    decreases |s| - i
  {
    if i < |s| && IsWhitespace(s[i]) then TrimStart(s, i + 1) else i
  }

  /** Where the kept text ends: scanning back from `j` towards `lo`, the end of
      the last character that is not white space, or `lo`. */
  function TrimEnd(s: string, lo: nat, j: nat): (end: nat)
    requires lo <= j <= |s|
    ensures lo <= end <= j
    ensures forall k | end <= k < j :: IsWhitespace(s[k])
    ensures end > lo ==> !IsWhitespace(s[end - 1])
    decreases j
  {
    if j > lo && IsWhitespace(s[j - 1]) then TrimEnd(s, lo, j - 1) else j
  }

  /** `s.trim()`: the input without its leading and trailing white space. */
  function Trim(s: string): (r: string)
    ensures |r| <= |s|
    ensures r == [] || (!IsWhitespace(r[0]) && !IsWhitespace(r[|r| - 1]))
  {
    var start := TrimStart(s, 0);
    s[start..TrimEnd(s, start, |s|)]
  }

  /** The trimmed text is the one piece of the input between an
      all-white-space prefix and an all-white-space suffix whose first and last
      characters are not white space. */
  lemma TrimUnique(s: string, a: nat, b: nat)
    requires a < b <= |s|
    requires AllWhitespace(s[..a]) && AllWhitespace(s[b..])
    requires !IsWhitespace(s[a]) && !IsWhitespace(s[b - 1])
    ensures Trim(s) == s[a..b]
  {
    var start := TrimStart(s, 0);
    assert start == a;
    var end := TrimEnd(s, start, |s|);
    assert end == b;
  }

  /** A trimmed string is empty exactly when the input is nothing but white space. */
  lemma TrimEmptyIff(s: string)
    ensures Trim(s) == [] <==> AllWhitespace(s)
  {
    var start := TrimStart(s, 0);
    var end := TrimEnd(s, start, |s|);
    if start < |s| {
      assert !IsWhitespace(s[start]);
      assert end > start;
    }
  }

  /** Trimming leaves a string with no white space at either end unchanged. */
  lemma TrimKeepsClean(s: string)
    requires s == [] || (!IsWhitespace(s[0]) && !IsWhitespace(s[|s| - 1]))
    ensures Trim(s) == s
  {
  }
}
