/** `escapeHtml`: the five characters that matter in HTML text and attribute
    values are replaced by their entities, everything else is kept. */
module Html {

  /** The characters the script escapes. */
  predicate IsSpecial(c: char) {
    c == '&' || c == '<' || c == '>' || c == '"' || c == '\''
  }

  /** The replacement of one character. */
  function EscapeChar(c: char): (r: string)
    ensures !IsSpecial(c) ==> r == [c]
    ensures IsSpecial(c) ==> |r| >= 4 && r[0] == '&' && r[|r| - 1] == ';'
  {
    match c
    case '&' => "&amp;"
    case '<' => "&lt;"
    case '>' => "&gt;"
    case '"' => "&quot;"
    case '\'' => "&#39;"
    case _ => [c]
  }

  /** Markup characters that escaped text never contains. */
  predicate IsMarkup(c: char) {
    c == '<' || c == '>' || c == '"' || c == '\''
  }

  /** `escapeHtml(text)`: the output holds none of < > " ', and text without
      any of the five special characters comes back unchanged. */
  function EscapeHtml(s: string): (r: string)
    ensures forall i :: 0 <= i < |r| ==> !IsMarkup(r[i])
    ensures (forall i :: 0 <= i < |s| ==> !IsSpecial(s[i])) ==> r == s
    ensures |r| >= |s|
  {
    if s == [] then [] else EscapeChar(s[0]) + EscapeHtml(s[1..])
  }

  /** Reads the five entities back; any other text, including a lone `&`, is
      taken as it stands. */
  function UnescapeHtml(s: string): string
  {
    if s == [] then []
    else if StartsWith(s, "&amp;") then ['&'] + UnescapeHtml(s[5..])
    else if StartsWith(s, "&lt;") then ['<'] + UnescapeHtml(s[4..])
    else if StartsWith(s, "&gt;") then ['>'] + UnescapeHtml(s[4..])
    else if StartsWith(s, "&quot;") then ['"'] + UnescapeHtml(s[6..])
    else if StartsWith(s, "&#39;") then ['\''] + UnescapeHtml(s[5..])
    else [s[0]] + UnescapeHtml(s[1..])
  }

  /** `s` begins with `prefix`. */
  predicate StartsWith(s: string, prefix: string) {
    |prefix| <= |s| && s[..|prefix|] == prefix
  }

  lemma PrefixOfConcat(prefix: string, rest: string)
    ensures StartsWith(prefix + rest, prefix) && (prefix + rest)[|prefix|..] == rest
  {
    assert (prefix + rest)[..|prefix|] == prefix;
  }

  /** A mismatch at position `i` rules a prefix out. */
  lemma MismatchAt(s: string, prefix: string, i: nat)
    requires i < |s| && i < |prefix| && s[i] != prefix[i]
    ensures !StartsWith(s, prefix)
  {
  }

  /** Reading back one escaped character in front of any text. */
  lemma UnescapeEscapedChar(c: char, rest: string)
    ensures UnescapeHtml(EscapeChar(c) + rest) == [c] + UnescapeHtml(rest)
  {
    var e := EscapeChar(c);
    var s := e + rest;
    PrefixOfConcat(e, rest);
    if !IsSpecial(c) {
      assert s[0] == c;
      MismatchAt(s, "&amp;", 0);
      MismatchAt(s, "&lt;", 0);
      MismatchAt(s, "&gt;", 0);
      MismatchAt(s, "&quot;", 0);
      MismatchAt(s, "&#39;", 0);
    } else if c == '<' {
      assert s[1] == 'l';
      MismatchAt(s, "&amp;", 1);
    } else if c == '>' {
      assert s[1] == 'g';
      MismatchAt(s, "&amp;", 1);
      MismatchAt(s, "&lt;", 1);
    } else if c == '"' {
      assert s[1] == 'q';
      MismatchAt(s, "&amp;", 1);
      MismatchAt(s, "&lt;", 1);
      MismatchAt(s, "&gt;", 1);
    } else if c == '\'' {
      assert s[1] == '#';
      MismatchAt(s, "&amp;", 1);
      MismatchAt(s, "&lt;", 1);
      MismatchAt(s, "&gt;", 1);
      MismatchAt(s, "&quot;", 1);
    }
  }

  /** Escaping loses nothing: the entities read back to the original text. */
  lemma {:induction false} EscapeRoundTrip(s: string)
    ensures UnescapeHtml(EscapeHtml(s)) == s
  {
    if s != [] {
      UnescapeEscapedChar(s[0], EscapeHtml(s[1..]));
      EscapeRoundTrip(s[1..]);
    }
  }
}
