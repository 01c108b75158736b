/** The one string test the journal makes: `!s.trim()`, true exactly when
    `s` consists of white space only. `String.prototype.trim` strips the
    characters that ECMAScript classes as WhiteSpace or LineTerminator. */
module Text {

  /** ECMAScript WhiteSpace (tab, vertical tab, form feed, space, no-break
      space, byte order mark and the Unicode space separators) and
      LineTerminator (line feed, carriage return, line and paragraph
      separator). */
  predicate IsJsWhiteSpace(c: char) {
    || c == '\t' || c == '\n' || c == '\U{000B}' || c == '\U{000C}' || c == '\r'
    || c == ' ' || c == '\U{00A0}' || c == '\U{1680}'
    || ('\U{2000}' <= c <= '\U{200A}')
    || c == '\U{2028}' || c == '\U{2029}' || c == '\U{202F}' || c == '\U{205F}'
    || c == '\U{3000}' || c == '\U{FEFF}'
  }

  /** `s.trim()` with only the leading white space removed. */
  function TrimStart(s: string): (r: string)
    ensures |r| <= |s| && r == s[|s| - |r|..]
    ensures |r| > 0 ==> !IsJsWhiteSpace(r[0])
    ensures forall k :: 0 <= k < |s| - |r| ==> IsJsWhiteSpace(s[k])
    decreases |s|
  {
    if |s| > 0 && IsJsWhiteSpace(s[0]) then TrimStart(s[1..]) else s
  }

  /** `!s.trim()`: trimming leaves the empty string. Trimming both ends is
      empty exactly when trimming the front is, so the front suffices. */
  predicate IsBlank(s: string) {
    TrimStart(s) == ""
  }

  /** A string is blank exactly when every character is white space. */
  lemma BlankIffAllWhiteSpace(s: string)
    ensures IsBlank(s) <==> forall k :: 0 <= k < |s| ==> IsJsWhiteSpace(s[k])
  {
    var r := TrimStart(s);
    if r != "" {
      assert s[|s| - |r|] == r[0];
    }
  }
}
