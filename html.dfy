/** `escapeHtml`, defined identically in docs/js/reportsV0.js and
    docs/js/reports.js: `String(s ?? "")` followed by five `replaceAll`
    calls, the ampersand first. */
module Html {
  import opened Js

  /** `s.replaceAll(c, rep)` for a one-character pattern. */
  function ReplaceAll(s: string, c: char, rep: string): string
  {
    if s == [] then "" else (if s[0] == c then rep else [s[0]]) + ReplaceAll(s[1..], c, rep)
  }

  /** The chain of replacements exactly as written. */
  function EscapeChain(s: string): string {
    ReplaceAll(ReplaceAll(ReplaceAll(ReplaceAll(ReplaceAll(s, '&', "&amp;"), '<', "&lt;"), '>', "&gt;"), '"', "&quot;"), '\'', "&#039;")
  }

  /** `escapeHtml(s)` */
  function EscapeHtml(v: Value): (r: string)
    ensures '<' !in r && '>' !in r && '"' !in r && '\'' !in r
    ensures Nullish(v) ==> r == ""
  {
    var s := ToString(Coalesce(v, Str("")));
    EscapeChainPerChar(s);
    EscapeChain(s)
  }

  predicate IsSpecial(c: char) {
    c == '&' || c == '<' || c == '>' || c == '"' || c == '\''
  }

  /** The entity that stands for one character. */
  function EscapeChar(c: char): string {
    if c == '&' then "&amp;"
    else if c == '<' then "&lt;"
    else if c == '>' then "&gt;"
    else if c == '"' then "&quot;"
    else if c == '\'' then "&#039;"
    else [c]
  }

  /** Escaping character by character. */
  function EscapeText(s: string): (r: string)
    ensures '<' !in r && '>' !in r && '"' !in r && '\'' !in r
  {
    if s == [] then ""
    else
      EscapeCharSafe(s[0]);
      EscapeChar(s[0]) + EscapeText(s[1..])
  }

  /** No entity, and no character other than the five, is one of the four markup characters. */
  lemma EscapeCharSafe(c: char)
    ensures '<' !in EscapeChar(c) && '>' !in EscapeChar(c) && '"' !in EscapeChar(c) && '\'' !in EscapeChar(c)
  {
    if IsSpecial(c) {
      EntitiesFree();
      assert '<' !in "&lt;" && '<' !in "&gt;" && '<' !in "&quot;" && '<' !in "&#039;";
      assert '>' !in "&amp;" && '>' !in "&gt;" && '>' !in "&quot;" && '>' !in "&#039;";
      assert '"' !in "&amp;" && '"' !in "&quot;" && '"' !in "&#039;";
      assert '\'' !in "&amp;" && '\'' !in "&#039;";
    }
  }

  lemma {:induction false} ReplaceAllAppend(a: string, b: string, c: char, rep: string)
    ensures ReplaceAll(a + b, c, rep) == ReplaceAll(a, c, rep) + ReplaceAll(b, c, rep)
  {
    if a != [] {
      assert (a + b)[1..] == a[1..] + b;
      ReplaceAllAppend(a[1..], b, c, rep);
    } else {
      assert a + b == b;
    }
  }

  lemma ReplaceAllAbsent(s: string, c: char, rep: string)
    requires c !in s
    ensures ReplaceAll(s, c, rep) == s
  {
  }

  /** Since every entity the chain inserts is free of the later patterns,
      the five passes amount to one character-by-character escape. */
  lemma {:induction false} EscapeChainPerChar(s: string)
    ensures EscapeChain(s) == EscapeText(s)
  {
    if s != [] {
      var head := [s[0]];
      var tail := s[1..];
      assert s == head + tail;
      ReplaceAllAppend(head, tail, '&', "&amp;");
      var h1 := ReplaceAll(head, '&', "&amp;");
      var t1 := ReplaceAll(tail, '&', "&amp;");
      ReplaceAllAppend(h1, t1, '<', "&lt;");
      var h2 := ReplaceAll(h1, '<', "&lt;");
      var t2 := ReplaceAll(t1, '<', "&lt;");
      ReplaceAllAppend(h2, t2, '>', "&gt;");
      var h3 := ReplaceAll(h2, '>', "&gt;");
      var t3 := ReplaceAll(t2, '>', "&gt;");
      ReplaceAllAppend(h3, t3, '"', "&quot;");
      var h4 := ReplaceAll(h3, '"', "&quot;");
      var t4 := ReplaceAll(t3, '"', "&quot;");
      ReplaceAllAppend(h4, t4, '\'', "&#039;");
      assert EscapeChain(s) == EscapeChain(head) + EscapeChain(tail);
      EscapeHeadChar(s[0]);
      EscapeChainPerChar(tail);
    }
  }

  lemma ReplaceAllSingle(c: char, x: char, rep: string)
    ensures ReplaceAll([c], x, rep) == if c == x then rep else [c]
  {
    assert [c][1..] == [];
  }

  lemma EscapeHeadChar(c: char)
    ensures EscapeChain([c]) == EscapeChar(c)
  {
    if IsSpecial(c) {
      EscapeSpecial(c);
    } else {
      ReplaceAllSingle(c, '&', "&amp;");
      ReplaceAllSingle(c, '<', "&lt;");
      ReplaceAllSingle(c, '>', "&gt;");
      ReplaceAllSingle(c, '"', "&quot;");
      ReplaceAllSingle(c, '\'', "&#039;");
    }
  }

  lemma EscapeSpecial(c: char)
    requires IsSpecial(c)
    ensures EscapeChain([c]) == EscapeChar(c)
  {
    if c == '&' { EscapeOneAmp(); }
    else if c == '<' { EscapeOneLt(); }
    else if c == '>' { EscapeOneGt(); }
    else if c == '"' { EscapeOneQuot(); }
    else { EscapeOneApos(); }
  }

  /** Which of the later patterns each entity is free of. */
  lemma EntitiesFree()
    ensures '<' !in "&amp;" && '>' !in "&amp;" && '"' !in "&amp;" && '\'' !in "&amp;"
    ensures '>' !in "&lt;" && '"' !in "&lt;" && '\'' !in "&lt;"
    ensures '"' !in "&gt;" && '\'' !in "&gt;"
    ensures '\'' !in "&quot;"
  {
  }

  lemma EscapeOneAmp()
    ensures EscapeChain(['&']) == "&amp;"
  {
    EntitiesFree();
    var s0 := ['&'];
    var s1 := ReplaceAll(s0, '&', "&amp;");
    ReplaceAllSingle('&', '&', "&amp;");
    assert s1 == "&amp;";
    var s2 := ReplaceAll(s1, '<', "&lt;");
    ReplaceAllAbsent("&amp;", '<', "&lt;");
    assert s2 == "&amp;";
    var s3 := ReplaceAll(s2, '>', "&gt;");
    ReplaceAllAbsent("&amp;", '>', "&gt;");
    assert s3 == "&amp;";
    var s4 := ReplaceAll(s3, '"', "&quot;");
    ReplaceAllAbsent("&amp;", '"', "&quot;");
    assert s4 == "&amp;";
    var s5 := ReplaceAll(s4, '\'', "&#039;");
    ReplaceAllAbsent("&amp;", '\'', "&#039;");
    assert s5 == "&amp;";
  }

  lemma EscapeOneLt()
    ensures EscapeChain(['<']) == "&lt;"
  {
    EntitiesFree();
    var s0 := ['<'];
    var s1 := ReplaceAll(s0, '&', "&amp;");
    ReplaceAllSingle('<', '&', "&amp;");
    assert s1 == ['<'];
    var s2 := ReplaceAll(s1, '<', "&lt;");
    ReplaceAllSingle('<', '<', "&lt;");
    assert s2 == "&lt;";
    var s3 := ReplaceAll(s2, '>', "&gt;");
    ReplaceAllAbsent("&lt;", '>', "&gt;");
    assert s3 == "&lt;";
    var s4 := ReplaceAll(s3, '"', "&quot;");
    ReplaceAllAbsent("&lt;", '"', "&quot;");
    assert s4 == "&lt;";
    var s5 := ReplaceAll(s4, '\'', "&#039;");
    ReplaceAllAbsent("&lt;", '\'', "&#039;");
    assert s5 == "&lt;";
  }

  lemma EscapeOneGt()
    ensures EscapeChain(['>']) == "&gt;"
  {
    EntitiesFree();
    var s0 := ['>'];
    var s1 := ReplaceAll(s0, '&', "&amp;");
    ReplaceAllSingle('>', '&', "&amp;");
    assert s1 == ['>'];
    var s2 := ReplaceAll(s1, '<', "&lt;");
    ReplaceAllSingle('>', '<', "&lt;");
    assert s2 == ['>'];
    var s3 := ReplaceAll(s2, '>', "&gt;");
    ReplaceAllSingle('>', '>', "&gt;");
    assert s3 == "&gt;";
    var s4 := ReplaceAll(s3, '"', "&quot;");
    ReplaceAllAbsent("&gt;", '"', "&quot;");
    assert s4 == "&gt;";
    var s5 := ReplaceAll(s4, '\'', "&#039;");
    ReplaceAllAbsent("&gt;", '\'', "&#039;");
    assert s5 == "&gt;";
  }

  lemma EscapeOneQuot()
    ensures EscapeChain(['"']) == "&quot;"
  {
    EntitiesFree();
    var s0 := ['"'];
    var s1 := ReplaceAll(s0, '&', "&amp;");
    ReplaceAllSingle('"', '&', "&amp;");
    assert s1 == ['"'];
    var s2 := ReplaceAll(s1, '<', "&lt;");
    ReplaceAllSingle('"', '<', "&lt;");
    assert s2 == ['"'];
    var s3 := ReplaceAll(s2, '>', "&gt;");
    ReplaceAllSingle('"', '>', "&gt;");
    assert s3 == ['"'];
    var s4 := ReplaceAll(s3, '"', "&quot;");
    ReplaceAllSingle('"', '"', "&quot;");
    assert s4 == "&quot;";
    var s5 := ReplaceAll(s4, '\'', "&#039;");
    ReplaceAllAbsent("&quot;", '\'', "&#039;");
    assert s5 == "&quot;";
  }

  lemma EscapeOneApos()
    ensures EscapeChain(['\'']) == "&#039;"
  {
    var s0 := ['\''];
    var s1 := ReplaceAll(s0, '&', "&amp;");
    ReplaceAllSingle('\'', '&', "&amp;");
    assert s1 == ['\''];
    var s2 := ReplaceAll(s1, '<', "&lt;");
    ReplaceAllSingle('\'', '<', "&lt;");
    assert s2 == ['\''];
    var s3 := ReplaceAll(s2, '>', "&gt;");
    ReplaceAllSingle('\'', '>', "&gt;");
    assert s3 == ['\''];
    var s4 := ReplaceAll(s3, '"', "&quot;");
    ReplaceAllSingle('\'', '"', "&quot;");
    assert s4 == ['\''];
    var s5 := ReplaceAll(s4, '\'', "&#039;");
    ReplaceAllSingle('\'', '\'', "&#039;");
    assert s5 == "&#039;";
  }

  /** Decoding of the five entities, the reference the escaping is checked against. */
  function Unescape(s: string): string
    decreases |s|
  {
    if s == [] then ""
    else if |s| >= 5 && s[..5] == "&amp;" then "&" + Unescape(s[5..])
    else if |s| >= 4 && s[..4] == "&lt;" then "<" + Unescape(s[4..])
    else if |s| >= 4 && s[..4] == "&gt;" then ">" + Unescape(s[4..])
    else if |s| >= 6 && s[..6] == "&quot;" then "\"" + Unescape(s[6..])
    else if |s| >= 6 && s[..6] == "&#039;" then "'" + Unescape(s[6..])
    else [s[0]] + Unescape(s[1..])
  }

  lemma UnescapeEntity(e: string, rest: string, c: char)
    requires e == EscapeChar(c)
    ensures Unescape(e + rest) == [c] + Unescape(rest)
  {
    if c == '&' {
      UnescapeAmp(rest);
    } else if c == '<' || c == '>' {
      UnescapeAngle(c, rest);
    } else if c == '"' || c == '\'' {
      UnescapeQuote(c, rest);
    } else {
      UnescapePlain(c, rest);
    }
  }

  lemma UnescapeAmp(rest: string)
    ensures Unescape("&amp;" + rest) == "&" + Unescape(rest)
  {
    var s := "&amp;" + rest;
    assert s[..5] == "&amp;" && s[5..] == rest;
  }

  /** The two four-character entities decode to their character. */
  lemma UnescapeAngle(c: char, rest: string)
    requires c == '<' || c == '>'
    ensures Unescape(EscapeChar(c) + rest) == [c] + Unescape(rest)
  {
    var s := EscapeChar(c) + rest;
    if c == '<' {
      assert s[1] == 'l';
      assert s[..4] == "&lt;" && s[4..] == rest;
    } else {
      assert s[1] == 'g';
      assert s[..4] == "&gt;" && s[4..] == rest;
    }
  }

  /** The two six-character entities decode to their quote. */
  lemma UnescapeQuote(c: char, rest: string)
    requires c == '"' || c == '\''
    ensures Unescape(EscapeChar(c) + rest) == [c] + Unescape(rest)
  {
    var s := EscapeChar(c) + rest;
    assert s[..4][1] == s[1] && s[..5][1] == s[1];
    if c == '"' {
      assert s[1] == 'q';
      assert s[..6] == "&quot;" && s[6..] == rest;
    } else {
      assert s[1] == '#';
      assert s[..6] == "&#039;" && s[6..] == rest;
    }
  }

  lemma UnescapePlain(c: char, rest: string)
    requires c != '&'
    ensures Unescape([c] + rest) == [c] + Unescape(rest)
  {
    var s := [c] + rest;
    assert s[0] == c && s[1..] == rest;
    if |s| >= 4 { assert s[..4][0] == c; }
    if |s| >= 5 { assert s[..5][0] == c; }
    if |s| >= 6 { assert s[..6][0] == c; }
  }

  /** Decoding the escaped text gives the original back: no information is lost. */
  lemma {:induction false} EscapeRoundTrip(s: string)
    ensures Unescape(EscapeText(s)) == s
  {
    if s != [] {
      EscapeRoundTrip(s[1..]);
      UnescapeEntity(EscapeChar(s[0]), EscapeText(s[1..]), s[0]);
      assert s == [s[0]] + s[1..];
    }
  }

  /** `escapeHtml` of a string can be decoded back to that string. */
  lemma EscapeHtmlRoundTrip(s: string)
    ensures Unescape(EscapeHtml(Str(s))) == s
  {
    EscapeChainPerChar(s);
    EscapeRoundTrip(s);
  }

  /** Text without the five special characters is left as it is. */
  lemma {:induction false} EscapePlain(s: string)
    requires forall i :: 0 <= i < |s| ==> !IsSpecial(s[i])
    ensures EscapeText(s) == s
  {
    if s != [] {
      EscapePlain(s[1..]);
      assert s == [s[0]] + s[1..];
    }
  }
}
