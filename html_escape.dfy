/** `escape_html` of the PDF generator: five chained `str.replace` calls,
    '&' first, then '<', '>', '"' and '\''. The chain is proved equal to a
    character-by-character escape, and the properties of the output are
    proved about that. */
module HtmlEscape {

  /** Python `s.replace(c, rep)` for a one-character pattern: every occurrence
      of `c` is replaced, and nothing else changes. */
  function ReplaceChar(s: string, c: char, rep: string): (r: string)
  {
    if s == [] then [] else (if s[0] == c then rep else [s[0]]) + ReplaceChar(s[1..], c, rep)
  }

  /** The function as the script writes it. */
  function EscapeHtml(text: string): (r: string)
  {
    ReplaceChar(ReplaceChar(ReplaceChar(ReplaceChar(ReplaceChar(
      text, '&', "&amp;"), '<', "&lt;"), '>', "&gt;"), '"', "&quot;"), '\'', "&#x27;")
  }

  predicate IsSpecial(c: char) {
    c == '&' || c == '<' || c == '>' || c == '"' || c == '\''
  }

  /** The entity each character becomes, or the character itself. */
  function EscapeChar(c: char): (r: string)
    ensures |r| >= 1
  {
    match c
    case '&' => "&amp;"
    case '<' => "&lt;"
    case '>' => "&gt;"
    case '"' => "&quot;"
    case '\'' => "&#x27;"
    case _ => [c]
  }

  /** Reference definition: each character escaped on its own. */
  function EscapeEach(s: string): (r: string)
  {
    if s == [] then [] else EscapeChar(s[0]) + EscapeEach(s[1..])
  }

  lemma {:induction false} ReplaceCharAppend(a: string, b: string, c: char, rep: string)
    ensures ReplaceChar(a + b, c, rep) == ReplaceChar(a, c, rep) + ReplaceChar(b, c, rep)
  {
    if a == [] {
      assert a + b == b;
    } else {
      assert (a + b)[1..] == a[1..] + b;
      ReplaceCharAppend(a[1..], b, c, rep);
    }
  }

  lemma {:induction false} ReplaceCharAbsent(s: string, c: char, rep: string)
    requires forall i :: 0 <= i < |s| ==> s[i] != c
    ensures ReplaceChar(s, c, rep) == s
  {
    if s != [] {
      assert s == [s[0]] + s[1..];
      ReplaceCharAbsent(s[1..], c, rep);
    }
  }

  lemma ReplaceCharSingle(x: char, c: char, rep: string)
    ensures ReplaceChar([x], c, rep) == if x == c then rep else [x]
  {
    assert [x][1..] == [];
  }

  /** The stages after the one that wrote entity `e` leave it alone. */
  lemma {:induction false} LaterStagesKeep(e: string)
    requires forall i :: 0 <= i < |e| ==> e[i] != '<' && e[i] != '>' && e[i] != '"' && e[i] != '\''
    ensures ReplaceChar(ReplaceChar(ReplaceChar(ReplaceChar(
      e, '<', "&lt;"), '>', "&gt;"), '"', "&quot;"), '\'', "&#x27;") == e
  {
    ReplaceCharAbsent(e, '<', "&lt;");
    ReplaceCharAbsent(e, '>', "&gt;");
    ReplaceCharAbsent(e, '"', "&quot;");
    ReplaceCharAbsent(e, '\'', "&#x27;");
  }

  lemma EscapeLt()
    ensures EscapeHtml("<") == "&lt;"
  {
    ReplaceCharSingle('<', '&', "&amp;");
    ReplaceCharSingle('<', '<', "&lt;");
    ReplaceCharAbsent("&lt;", '>', "&gt;");
    ReplaceCharAbsent("&lt;", '"', "&quot;");
    ReplaceCharAbsent("&lt;", '\'', "&#x27;");
  }

  lemma EscapeGt()
    ensures EscapeHtml(">") == "&gt;"
  {
    ReplaceCharSingle('>', '&', "&amp;");
    ReplaceCharSingle('>', '<', "&lt;");
    ReplaceCharSingle('>', '>', "&gt;");
    ReplaceCharAbsent("&gt;", '"', "&quot;");
    ReplaceCharAbsent("&gt;", '\'', "&#x27;");
  }

  lemma EscapeQuot()
    ensures EscapeHtml("\"") == "&quot;"
  {
    ReplaceCharSingle('"', '&', "&amp;");
    ReplaceCharSingle('"', '<', "&lt;");
    ReplaceCharSingle('"', '>', "&gt;");
    ReplaceCharSingle('"', '"', "&quot;");
    ReplaceCharAbsent("&quot;", '\'', "&#x27;");
  }

  lemma EscapeOther(c: char)
    requires !IsSpecial(c)
    ensures EscapeHtml([c]) == [c]
  {
    ReplaceCharSingle(c, '&', "&amp;");
    ReplaceCharSingle(c, '<', "&lt;");
    ReplaceCharSingle(c, '>', "&gt;");
    ReplaceCharSingle(c, '"', "&quot;");
    ReplaceCharSingle(c, '\'', "&#x27;");
  }

  /** The chain applied to a single character. */
  lemma EscapeHtmlChar(c: char)
    ensures EscapeHtml([c]) == EscapeChar(c)
  {
    if c == '&' {
      ReplaceCharSingle(c, '&', "&amp;");
      LaterStagesKeep("&amp;");
    } else if c == '<' {
      EscapeLt();
    } else if c == '>' {
      EscapeGt();
    } else if c == '"' {
      EscapeQuot();
    } else if c == '\'' {
      ReplaceCharSingle(c, '&', "&amp;");
      ReplaceCharSingle(c, '<', "&lt;");
      ReplaceCharSingle(c, '>', "&gt;");
      ReplaceCharSingle(c, '"', "&quot;");
      ReplaceCharSingle(c, '\'', "&#x27;");
    } else {
      EscapeOther(c);
    }
  }

  /** The whole chain distributes over concatenation. */
  lemma EscapeHtmlAppend(a: string, b: string)
    ensures EscapeHtml(a + b) == EscapeHtml(a) + EscapeHtml(b)
  {
    var t := a + b;
    ReplaceCharAppend(a, b, '&', "&amp;");
    var a1, b1 := ReplaceChar(a, '&', "&amp;"), ReplaceChar(b, '&', "&amp;");
    ReplaceCharAppend(a1, b1, '<', "&lt;");
    var a2, b2 := ReplaceChar(a1, '<', "&lt;"), ReplaceChar(b1, '<', "&lt;");
    ReplaceCharAppend(a2, b2, '>', "&gt;");
    var a3, b3 := ReplaceChar(a2, '>', "&gt;"), ReplaceChar(b2, '>', "&gt;");
    ReplaceCharAppend(a3, b3, '"', "&quot;");
    var a4, b4 := ReplaceChar(a3, '"', "&quot;"), ReplaceChar(b3, '"', "&quot;");
    ReplaceCharAppend(a4, b4, '\'', "&#x27;");
  }

  /** Because '&' is replaced first and no later replacement text holds a
      character replaced after it, the chain is a character-by-character escape. */
  lemma {:induction false} EscapeHtmlIsPerChar(s: string)
    ensures EscapeHtml(s) == EscapeEach(s)
  {
    if s == [] {
    } else {
      assert s == [s[0]] + s[1..];
      EscapeHtmlAppend([s[0]], s[1..]);
      EscapeHtmlChar(s[0]);
      EscapeHtmlIsPerChar(s[1..]);
    }
  }

  /** No character of the output is one of `<`, `>`, `"`, `'`. */
  predicate NoMarkup(r: string) {
    forall i :: 0 <= i < |r| ==> r[i] != '<' && r[i] != '>' && r[i] != '"' && r[i] != '\''
  }

  lemma {:induction false} EscapeEachNoMarkup(s: string)
    ensures NoMarkup(EscapeEach(s))
  {
    if s != [] {
      EscapeEachNoMarkup(s[1..]);
      var e := EscapeChar(s[0]);
      assert NoMarkup(e);
      assert EscapeEach(s) == e + EscapeEach(s[1..]);
    }
  }

  /** The output contains none of the characters `<`, `>`, `"`, `'`. */
  lemma EscapeHtmlNoMarkup(text: string)
    ensures NoMarkup(EscapeHtml(text))
  {
    EscapeHtmlIsPerChar(text);
    EscapeEachNoMarkup(text);
  }

  /** Text starting at an '&' that is one of the five entities the script writes. */
  predicate StartsEntity(t: string) {
    "&amp;" <= t || "&lt;" <= t || "&gt;" <= t || "&quot;" <= t || "&#x27;" <= t
  }

  /** Every '&' of the output begins an entity. */
  predicate AmpersandsAreEntities(r: string) {
    forall i :: 0 <= i < |r| && r[i] == '&' ==> StartsEntity(r[i..])
  }

  lemma {:induction false} EscapeEachEntities(s: string)
    ensures AmpersandsAreEntities(EscapeEach(s))
  {
    if s != [] {
      EscapeEachEntities(s[1..]);
      var e := EscapeChar(s[0]);
      var rest := EscapeEach(s[1..]);
      var r := e + rest;
      assert EscapeEach(s) == r;
      forall i | 0 <= i < |r| && r[i] == '&' ensures StartsEntity(r[i..]) {
        if i < |e| {
          assert e[i] == '&';
          assert i == 0;
          assert r[i..] == e + rest;
        } else {
          assert r[i..] == rest[i - |e|..];
          assert rest[i - |e|] == '&';
        }
      }
    }
  }

  lemma EscapeHtmlEntities(text: string)
    ensures AmpersandsAreEntities(EscapeHtml(text))
  {
    EscapeHtmlIsPerChar(text);
    EscapeEachEntities(text);
  }

  /** Text with none of the five special characters comes back unchanged. */
  lemma {:induction false} EscapeHtmlPlain(text: string)
    requires forall i :: 0 <= i < |text| ==> !IsSpecial(text[i])
    ensures EscapeHtml(text) == text
  {
    EscapeHtmlIsPerChar(text);
    EscapeEachPlain(text);
  }

  lemma {:induction false} EscapeEachPlain(s: string)
    requires forall i :: 0 <= i < |s| ==> !IsSpecial(s[i])
    ensures EscapeEach(s) == s
  {
    if s != [] {
      EscapeEachPlain(s[1..]);
      assert s == [s[0]] + s[1..];
    }
  }

  /** Number of occurrences of `c` in `s`. */
  function Count(s: string, c: char): (n: nat)
    ensures n <= |s|
  {
    if s == [] then 0 else (if s[0] == c then 1 else 0) + Count(s[1..], c)
  }

  /** How much each character grows. */
  function Growth(c: char): nat {
    match c
    case '&' => 4
    case '<' => 3
    case '>' => 3
    case '"' => 5
    case '\'' => 5
    case _ => 0
  }

  /** Output length: each '&' grows by 4, '<' and '>' by 3, '"' and '\'' by 5. */
  lemma {:induction false} EscapeEachLength(s: string)
    ensures |EscapeEach(s)| == |s| + 4 * Count(s, '&') + 3 * Count(s, '<') + 3 * Count(s, '>')
                                  + 5 * Count(s, '"') + 5 * Count(s, '\'')
  {
    if s != [] {
      EscapeEachLength(s[1..]);
      assert |EscapeChar(s[0])| == 1 + Growth(s[0]);
    }
  }

  lemma EscapeHtmlLength(text: string)
    ensures |EscapeHtml(text)| == |text| + 4 * Count(text, '&') + 3 * Count(text, '<')
                                 + 3 * Count(text, '>') + 5 * Count(text, '"') + 5 * Count(text, '\'')
  {
    EscapeHtmlIsPerChar(text);
    EscapeEachLength(text);
  }
}
