/** String helpers the storefront script takes from the JavaScript runtime:
    `String.prototype.trim`, `toLowerCase` (ASCII letters only here) and
    `includes`. JavaScript strings are sequences of UTF-16 code units; here a
    string is a sequence of Dafny `char`s, which are Unicode scalar values, so
    a character outside the Basic Multilingual Plane is one element here and
    two code units in the script. */
module Text {

  /** ECMAScript WhiteSpace and LineTerminator code points, the set `trim` strips. */
  predicate IsWhiteSpace(c: char) {
    || c == '\t' || c == '\n' || c == '\U{B}' || c == '\U{C}' || c == '\r'
    || c == ' ' || c == '\U{A0}' || c == '\U{1680}'
    || ('\U{2000}' <= c <= '\U{200A}')
    || c == '\U{2028}' || c == '\U{2029}' || c == '\U{202F}' || c == '\U{205F}'
    || c == '\U{3000}' || c == '\U{FEFF}'
  }

  /** Drops leading white space: the result is a suffix of `s`, everything cut
      off is white space, and the result does not start with white space. */
  function TrimStart(s: string): (r: string)
    ensures |r| <= |s| && r == s[|s| - |r|..]
    ensures forall i :: 0 <= i < |s| - |r| ==> IsWhiteSpace(s[i])
    ensures r != [] ==> !IsWhiteSpace(r[0])
  {
    if s != [] && IsWhiteSpace(s[0]) then TrimStart(s[1..]) else s
  }

  /** Drops trailing white space: the result is a prefix of `s`, everything cut
      off is white space, and the result does not end with white space. */
  function TrimEnd(s: string): (r: string)
    ensures |r| <= |s| && r == s[..|r|]
    ensures forall i :: |r| <= i < |s| ==> IsWhiteSpace(s[i])
    ensures r != [] ==> !IsWhiteSpace(r[|r| - 1])
  {
    if s != [] && IsWhiteSpace(s[|s| - 1]) then TrimEnd(s[..|s| - 1]) else s
  }

  /** `r` is the slice of `s` starting at `k`, and all of `s` outside it is white space. */
  ghost predicate SliceWithinBlanks(s: string, r: string, k: int) {
    && 0 <= k <= |s| - |r| && r == s[k..k + |r|]
    && (forall i :: 0 <= i < k ==> IsWhiteSpace(s[i]))
    && (forall i :: k + |r| <= i < |s| ==> IsWhiteSpace(s[i]))
  }

  /** `String.prototype.trim`: the slice of `s` that neither starts nor ends
      with white space, once only white space is cut from both ends. */
  function Trim(s: string): (r: string)
    ensures exists k :: SliceWithinBlanks(s, r, k)
    ensures r != [] ==> !IsWhiteSpace(r[0]) && !IsWhiteSpace(r[|r| - 1])
  {
    var left := TrimStart(s);
    var r := TrimEnd(left);
    var k := |s| - |left|;
    assert SliceWithinBlanks(s, r, k);
    r
  }

  /** A string that is trimmed already is left alone by `Trim`. */
  lemma {:induction false} TrimFixesTrimmed(s: string)
    requires s != [] ==> !IsWhiteSpace(s[0]) && !IsWhiteSpace(s[|s| - 1])
    ensures Trim(s) == s
  {
  }

  /** Trimming twice is trimming once. */
  lemma TrimIdempotent(s: string)
    ensures Trim(Trim(s)) == Trim(s)
  {
    TrimFixesTrimmed(Trim(s));
  }

  /** A string of white space only trims to the empty string, and only such a string does. */
  lemma {:induction false} TrimEmptyIffBlank(s: string)
    ensures Trim(s) == [] <==> forall i :: 0 <= i < |s| ==> IsWhiteSpace(s[i])
  {
    if Trim(s) != [] {
      var k :| SliceWithinBlanks(s, Trim(s), k);
      assert s[k] == Trim(s)[0];
    }
  }

  function LowerChar(c: char): (d: char)
    ensures 'A' <= c <= 'Z' ==> d as int == c as int + 32
    ensures !('A' <= c <= 'Z') ==> d == c
  {
    if 'A' <= c <= 'Z' then (c as int + 32) as char else c
  }

  /** `toLowerCase` restricted to the ASCII letters A-Z. */
  function ToLower(s: string): (r: string)
    ensures |r| == |s|
    ensures forall i :: 0 <= i < |s| ==> r[i] == LowerChar(s[i])
  {
    if s == [] then [] else [LowerChar(s[0])] + ToLower(s[1..])
  }

  /** `needle` occurs in `haystack` starting at position `i`. */
  predicate OccursAt(haystack: string, needle: string, i: int) {
    0 <= i <= |haystack| - |needle| && haystack[i..i + |needle|] == needle
  }

  /** `haystack.includes(needle)`: `needle` occurs in `haystack` at some position. */
  function Includes(haystack: string, needle: string): (b: bool)
    ensures b <==> exists i :: OccursAt(haystack, needle, i)
  {
    if OccursAt(haystack, needle, 0) then true
    else if haystack == [] then false
    else
      var b := Includes(haystack[1..], needle);
      assert b ==> exists i :: OccursAt(haystack, needle, i) by {
        if b {
          var j :| OccursAt(haystack[1..], needle, j);
          assert haystack[1..][j..j + |needle|] == haystack[j + 1..j + 1 + |needle|];
          assert OccursAt(haystack, needle, j + 1);
        }
      }
      assert (exists i :: OccursAt(haystack, needle, i)) ==> b by {
        if exists i :: OccursAt(haystack, needle, i) {
          var i :| OccursAt(haystack, needle, i);
          assert i != 0;
          assert haystack[1..][i - 1..i - 1 + |needle|] == haystack[i..i + |needle|];
          assert OccursAt(haystack[1..], needle, i - 1);
        }
      }
      b
  }
}
