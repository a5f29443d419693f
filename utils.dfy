/** The pure helpers of utils.js: `clamp` and `escapeHTML`. */
module Utils {

  /** `clamp(v, a, b) = Math.max(a, Math.min(b, v))` (utils.js:8; runner.js:12 has the same definition). */
  function Clamp(v: int, a: int, b: int): (r: int)
    ensures a <= b ==> a <= r <= b
    ensures a <= v <= b ==> r == v
    ensures v < a ==> r == a
    ensures a <= b < v ==> r == b
    ensures b < a ==> r == a
  {
    var low := if b < v then b else v;
    if a > low then a else low
  }

  /** The five characters `escapeHTML` rewrites. */
  predicate IsSpecial(c: char) {
    c == '&' || c == '<' || c == '>' || c == '"' || c == '\''
  }

  /** The lookup table of utils.js:29-35. */
  function EscapeChar(c: char): (r: string)
    ensures !IsSpecial(c) ==> r == [c]
  {
    match c
    case '&' => "&amp;"
    case '<' => "&lt;"
    case '>' => "&gt;"
    case '"' => "&quot;"
    case '\'' => "&#39;"
    case _ => [c]
  }

  /** No character that could open a tag or close an attribute value. */
  predicate Inert(r: string) {
    forall i :: 0 <= i < |r| ==> r[i] != '<' && r[i] != '>' && r[i] != '"' && r[i] != '\''
  }

  /** `escapeHTML(s)`: a global replacement, so every character is mapped through the table. */
  function EscapeHTML(s: string): (r: string)
    ensures Inert(r)
    ensures |r| >= |s|
    decreases |s|
  {
    if |s| == 0 then "" else EscapeChar(s[0]) + EscapeHTML(s[1..])
  }

  /** The decoding a browser applies to the five entities; every other character stands for itself. */
  function UnescapeHTML(r: string): string
    decreases |r|
  {
    if |r| == 0 then ""
    else if |r| >= 5 && r[..5] == "&amp;" then "&" + UnescapeHTML(r[5..])
    else if |r| >= 4 && r[..4] == "&lt;" then "<" + UnescapeHTML(r[4..])
    else if |r| >= 4 && r[..4] == "&gt;" then ">" + UnescapeHTML(r[4..])
    else if |r| >= 6 && r[..6] == "&quot;" then "\"" + UnescapeHTML(r[6..])
    else if |r| >= 5 && r[..5] == "&#39;" then "'" + UnescapeHTML(r[5..])
    else [r[0]] + UnescapeHTML(r[1..])
  }

  /** Decoding one escaped character in front of any text. */
  lemma UnescapeCons(c: char, rest: string)
    ensures UnescapeHTML(EscapeChar(c) + rest) == [c] + UnescapeHTML(rest)
  {
    var r := EscapeChar(c) + rest;
    if c == '&' {
      UnescapeAmp(rest);
    } else if c == '<' {
      UnescapeLt(rest);
    } else if c == '>' {
      UnescapeGt(rest);
    } else if c == '"' {
      UnescapeQuot(rest);
    } else if c == '\'' {
      UnescapeApos(rest);
    } else {
      UnescapePlain(c, rest);
    }
  }

  lemma UnescapeAmp(rest: string)
    ensures UnescapeHTML("&amp;" + rest) == "&" + UnescapeHTML(rest)
  {
    var r := "&amp;" + rest;
    assert r[..5] == "&amp;" && r[5..] == rest;
  }

  lemma UnescapePlain(c: char, rest: string)
    requires c != '&'
    ensures UnescapeHTML([c] + rest) == [c] + UnescapeHTML(rest)
  {
    var r := [c] + rest;
    assert |r| >= 4 ==> r[..4][0] == c;
    assert |r| >= 5 ==> r[..5][0] == c;
    assert |r| >= 6 ==> r[..6][0] == c;
    assert r[0] == c && r[1..] == rest;
  }

  lemma UnescapeLt(rest: string)
    ensures UnescapeHTML("&lt;" + rest) == "<" + UnescapeHTML(rest)
  {
    var r := "&lt;" + rest;
    assert r[1] == 'l';
    assert r[..4] == "&lt;" && r[4..] == rest;
  }

  lemma UnescapeGt(rest: string)
    ensures UnescapeHTML("&gt;" + rest) == ">" + UnescapeHTML(rest)
  {
    var r := "&gt;" + rest;
    assert r[1] == 'g';
    assert r[..4] == "&gt;" && r[4..] == rest;
  }

  lemma UnescapeQuot(rest: string)
    ensures UnescapeHTML("&quot;" + rest) == "\"" + UnescapeHTML(rest)
  {
    var r := "&quot;" + rest;
    assert r[1] == 'q';
    assert r[..6] == "&quot;" && r[6..] == rest;
  }

  lemma UnescapeApos(rest: string)
    ensures UnescapeHTML("&#39;" + rest) == "'" + UnescapeHTML(rest)
  {
    var r := "&#39;" + rest;
    assert r[1] == '#';
    assert r[..5] == "&#39;" && r[5..] == rest;
  }

  /** Escaping loses nothing: decoding the escaped text gives the original back. */
  lemma {:induction false} UnescapeEscape(s: string)
    ensures UnescapeHTML(EscapeHTML(s)) == s
    decreases |s|
  {
    if |s| > 0 {
      UnescapeCons(s[0], EscapeHTML(s[1..]));
      UnescapeEscape(s[1..]);
      assert s == [s[0]] + s[1..];
    }
  }

  /** Replacement is per character, so escaping distributes over concatenation. */
  lemma {:induction false} EscapeConcat(s: string, t: string)
    ensures EscapeHTML(s + t) == EscapeHTML(s) + EscapeHTML(t)
    decreases |s|
  {
    if |s| > 0 {
      assert (s + t)[0] == s[0];
      assert (s + t)[1..] == s[1..] + t;
      EscapeConcat(s[1..], t);
    } else {
      assert s + t == t;
    }
  }

  /** Text without any of the five special characters is returned unchanged. */
  lemma {:induction false} EscapeIdentity(s: string)
    requires forall i :: 0 <= i < |s| ==> !IsSpecial(s[i])
    ensures EscapeHTML(s) == s
    decreases |s|
  {
    if |s| > 0 {
      EscapeIdentity(s[1..]);
      assert s == [s[0]] + s[1..];
    }
  }
}
