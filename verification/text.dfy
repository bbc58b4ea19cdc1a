/**
 * The text normalisation applied to every new entry: `String.prototype.trim`,
 * which strips ECMAScript white space and line terminators from both ends.
 */
module Text {

  /** ECMAScript WhiteSpace (tab, vertical tab, form feed, space, no-break space,
      byte order mark and every space separator) and LineTerminator characters. */
  predicate IsJsWhitespace(c: char) {
    c == '\t' || c == '\n' || c == '\U{B}' || c == '\U{C}' || c == '\r' || c == ' '
    || c == '\U{A0}' || c == '\U{1680}' || ('\U{2000}' <= c <= '\U{200A}')
    || c == '\U{2028}' || c == '\U{2029}' || c == '\U{202F}' || c == '\U{205F}'
    || c == '\U{3000}' || c == '\U{FEFF}'
  }

  predicate AllWhitespace(s: string) {
    forall k :: 0 <= k < |s| ==> IsJsWhitespace(s[k])
  }

  /** Skips white space forwards from `i`: the first position at or after `i` that
      holds no white space, or `|s|`. */
  function SkipLeading(s: string, i: nat): (j: nat)
    requires i <= |s|
    ensures i <= j <= |s|
    ensures forall k :: i <= k < j ==> IsJsWhitespace(s[k])
    ensures j < |s| ==> !IsJsWhitespace(s[j])
    decreases |s| - i
  {
    if i < |s| && IsJsWhitespace(s[i]) then SkipLeading(s, i + 1) else i
  }

  /** Skips white space backwards from `hi`, not going below `lo`: the end of the
      last character in `s[lo..hi]` that is not white space, or `lo`. */
  function SkipTrailing(s: string, lo: nat, hi: nat): (j: nat)
    requires lo <= hi <= |s|
    ensures lo <= j <= hi
    ensures forall k :: j <= k < hi ==> IsJsWhitespace(s[k])
    ensures lo < j ==> !IsJsWhitespace(s[j - 1])
    decreases hi
  {
    if lo < hi && IsJsWhitespace(s[hi - 1]) then SkipTrailing(s, lo, hi - 1) else hi
  }

  /** `text.trim()`: `s` without its leading and trailing white space. The result is
      empty exactly when `s` is white space only, and otherwise starts and ends with
      a character that is not white space. */
  function Trim(s: string): (r: string)
    ensures |r| <= |s|
    ensures r == [] <==> AllWhitespace(s)
    ensures r != [] ==> !IsJsWhitespace(r[0]) && !IsJsWhitespace(r[|r| - 1])
  {
    var a := SkipLeading(s, 0);
    var b := SkipTrailing(s, a, |s|);
    s[a..b]
  }

  /** What is kept is exactly the characters of `s` between the stripped ends, and
      everything stripped is white space. */
  lemma TrimIsInfix(s: string)
    ensures var a, r := SkipLeading(s, 0), Trim(s);
      && a + |r| <= |s| && r == s[a..a + |r|]
      && (forall k :: 0 <= k < a ==> IsJsWhitespace(s[k]))
      && (forall k :: a + |r| <= k < |s| ==> IsJsWhitespace(s[k]))
  {
  }

  /** Trimming twice changes nothing more. */
  lemma TrimIdempotent(s: string)
    ensures Trim(Trim(s)) == Trim(s)
  {
    var r := Trim(s);
    if r != [] {
      assert SkipLeading(r, 0) == 0;
      assert SkipTrailing(r, 0, |r|) == |r|;
      assert r[0..|r|] == r;
    }
  }

  /** Surrounding blanks go, inner ones stay; a blank-only text trims to nothing. */
  lemma TrimExamples()
    ensures Trim("  Buy milk ") == "Buy milk"
    ensures Trim(" \t ") == ""
  {
    var s := "  Buy milk ";
    assert !IsJsWhitespace(s[2]) && !IsJsWhitespace(s[9]);
    assert SkipLeading(s, 0) == 2;
    assert SkipTrailing(s, 2, 11) == 10;
    assert s[2..10] == "Buy milk";
    assert AllWhitespace(" \t ");
  }
}
