/** The client's `escapeHtml`: five global single-character replacements
    chained with `&` first. */
module HtmlEscape {

  /** `s.replace(/c/g, rep)` for a one-character pattern. */
  function ReplaceAll(s: string, c: char, rep: string): string {
    if s == [] then [] else (if s[0] == c then rep else [s[0]]) + ReplaceAll(s[1..], c, rep)
  }

  /** `escapeHtml(unsafe)`, replacement by replacement. */
  function EscapeHtml(s: string): string {
    ReplaceAll(ReplaceAll(ReplaceAll(ReplaceAll(ReplaceAll(s,
      '&', "&amp;"), '<', "&lt;"), '>', "&gt;"), '"', "&quot;"), '\'', "&#039;")
  }

  /** The five characters the escaper rewrites. */
  predicate IsSpecial(c: char) {
    c == '&' || c == '<' || c == '>' || c == '"' || c == '\''
  }

  /** The escape of a single character. */
  function EscapeChar(c: char): string {
    match c
    case '&' => "&amp;"
    case '<' => "&lt;"
    case '>' => "&gt;"
    case '"' => "&quot;"
    case '\'' => "&#039;"
    case _ => [c]
  }

  /** A one-pass escaper: every character replaced by its escape. */
  function EscapeEach(s: string): string {
    if s == [] then [] else EscapeChar(s[0]) + EscapeEach(s[1..])
  }

  lemma {:induction false} ReplaceAllConcat(a: string, b: string, c: char, rep: string)
    ensures ReplaceAll(a + b, c, rep) == ReplaceAll(a, c, rep) + ReplaceAll(b, c, rep)
  {
    if a != [] {
      assert (a + b)[0] == a[0] && (a + b)[1..] == a[1..] + b;
      ReplaceAllConcat(a[1..], b, c, rep);
    } else {
      assert a + b == b;
    }
  }

  lemma {:induction false} ReplaceAllAbsent(s: string, c: char, rep: string)
    requires c !in s
    ensures ReplaceAll(s, c, rep) == s
  {
    if s != [] {
      ReplaceAllAbsent(s[1..], c, rep);
    }
  }

  lemma EscapeHtmlConcat(a: string, b: string)
    ensures EscapeHtml(a + b) == EscapeHtml(a) + EscapeHtml(b)
  {
    var a1, b1 := ReplaceAll(a, '&', "&amp;"), ReplaceAll(b, '&', "&amp;");
    ReplaceAllConcat(a, b, '&', "&amp;");
    var a2, b2 := ReplaceAll(a1, '<', "&lt;"), ReplaceAll(b1, '<', "&lt;");
    ReplaceAllConcat(a1, b1, '<', "&lt;");
    var a3, b3 := ReplaceAll(a2, '>', "&gt;"), ReplaceAll(b2, '>', "&gt;");
    ReplaceAllConcat(a2, b2, '>', "&gt;");
    var a4, b4 := ReplaceAll(a3, '"', "&quot;"), ReplaceAll(b3, '"', "&quot;");
    ReplaceAllConcat(a3, b3, '"', "&quot;");
    ReplaceAllConcat(a4, b4, '\'', "&#039;");
  }

  /** Applies the four replacements after the first to a text that none of
      them touches. */
  lemma LaterStepsKeep(t: string)
    requires '<' !in t && '>' !in t && '"' !in t && '\'' !in t
    ensures ReplaceAll(ReplaceAll(ReplaceAll(ReplaceAll(t, '<', "&lt;"), '>', "&gt;"), '"', "&quot;"), '\'', "&#039;") == t
  {
    ReplaceAllAbsent(t, '<', "&lt;");
    ReplaceAllAbsent(t, '>', "&gt;");
    ReplaceAllAbsent(t, '"', "&quot;");
    ReplaceAllAbsent(t, '\'', "&#039;");
  }

  lemma ReplaceAllSingle(c: char, x: char, rep: string)
    ensures ReplaceAll([c], x, rep) == if c == x then rep else [c]
  {
    assert [c][1..] == [];
  }

  /** The four replacements after the first leave `t` alone once its only
      pattern character, if any, has been rewritten into `rep`. */
  lemma EscapeHtmlChar(c: char)
    ensures EscapeHtml([c]) == EscapeChar(c)
  {
    ReplaceAllSingle(c, '&', "&amp;");
    if c == '&' {
      LaterStepsKeep("&amp;");
    } else {
      EscapeMarkupChar(c);
    }
  }

  lemma EscapeMarkupChar(c: char)
    requires c != '&'
    ensures ReplaceAll(ReplaceAll(ReplaceAll(ReplaceAll([c], '<', "&lt;"), '>', "&gt;"), '"', "&quot;"), '\'', "&#039;") == EscapeChar(c)
  {
    var s2 := ReplaceAll([c], '<', "&lt;");
    ReplaceAllSingle(c, '<', "&lt;");
    if c == '<' {
      LaterQuoteStepsKeep("&lt;");
      return;
    }
    var s3 := ReplaceAll(s2, '>', "&gt;");
    ReplaceAllSingle(c, '>', "&gt;");
    if c == '>' {
      ReplaceAllAbsent("&gt;", '"', "&quot;");
      ReplaceAllAbsent("&gt;", '\'', "&#039;");
      return;
    }
    ReplaceAllSingle(c, '"', "&quot;");
    ReplaceAllSingle(c, '\'', "&#039;");
    if c == '"' {
      ReplaceAllAbsent("&quot;", '\'', "&#039;");
    }
  }

  lemma LaterQuoteStepsKeep(t: string)
    requires '>' !in t && '"' !in t && '\'' !in t
    ensures ReplaceAll(ReplaceAll(ReplaceAll(t, '>', "&gt;"), '"', "&quot;"), '\'', "&#039;") == t
  {
    ReplaceAllAbsent(t, '>', "&gt;");
    ReplaceAllAbsent(t, '"', "&quot;");
    ReplaceAllAbsent(t, '\'', "&#039;");
  }

  /** Because `&` is replaced first and no later replacement text holds one
      of the later patterns, the chain equals escaping each character on its
      own. */
  lemma {:induction false} EscapeHtmlIsPerChar(s: string)
    ensures EscapeHtml(s) == EscapeEach(s)
  {
    if s != [] {
      assert s == [s[0]] + s[1..];
      EscapeHtmlConcat([s[0]], s[1..]);
      EscapeHtmlChar(s[0]);
      EscapeHtmlIsPerChar(s[1..]);
    } else {
      assert EscapeHtml(s) == [];
    }
  }

  /** One of the five entities starts at the front of `s`. */
  predicate StartsWithEntity(s: string) {
    || (|s| >= 5 && s[..5] == "&amp;")
    || (|s| >= 4 && s[..4] == "&lt;")
    || (|s| >= 4 && s[..4] == "&gt;")
    || (|s| >= 6 && s[..6] == "&quot;")
    || (|s| >= 6 && s[..6] == "&#039;")
  }

  /** No `<`, `>`, `"` or `'`, and every `&` opens one of the five entities:
      text that the browser reads back as plain characters. */
  predicate IsEscapedForm(r: string) {
    && (forall i :: 0 <= i < |r| ==> r[i] != '<' && r[i] != '>' && r[i] != '"' && r[i] != '\'')
    && (forall i :: 0 <= i < |r| && r[i] == '&' ==> StartsWithEntity(r[i..]))
  }

  /** An escaped character holds no `<>"'`, and its only `&` opens it. */
  lemma EscapeCharSafe(c: char)
    ensures var e := EscapeChar(c);
      && (forall k :: 0 <= k < |e| ==> e[k] != '<' && e[k] != '>' && e[k] != '"' && e[k] != '\'')
      && (forall k :: 0 <= k < |e| && e[k] == '&' ==> k == 0 && StartsWithEntity(e))
  {
  }

  lemma {:induction false} EscapeEachSafe(s: string)
    ensures IsEscapedForm(EscapeEach(s))
  {
    if s != [] {
      EscapeEachSafe(s[1..]);
      var e, t := EscapeChar(s[0]), EscapeEach(s[1..]);
      var r := e + t;
      assert r == EscapeEach(s);
      EscapeCharSafe(s[0]);
      forall i | 0 <= i < |r|
        ensures r[i] != '<' && r[i] != '>' && r[i] != '"' && r[i] != '\''
        ensures r[i] == '&' ==> StartsWithEntity(r[i..])
      {
        if i < |e| {
          assert r[i] == e[i];
          assert e[i] != '<' && e[i] != '>' && e[i] != '"' && e[i] != '\'';
          if r[i] == '&' {
            assert i == 0;
            assert r[i..][..|e|] == e;
            assert StartsWithEntity(e);
            assert |e| >= 4;
            assert r[..|e|] == e;
            assert r[..4] == e[..4];
            assert |e| >= 5 ==> r[..5] == e[..5];
            assert |e| >= 6 ==> r[..6] == e[..6];
          }
        } else {
          var k := i - |e|;
          assert r[i] == t[k];
          assert t[k] != '<' && t[k] != '>' && t[k] != '"' && t[k] != '\'';
          assert r[i..] == t[k..];
          assert t[k] == '&' ==> StartsWithEntity(t[k..]);
        }
      }
    }
  }

  /** The output of `escapeHtml` holds no `<`, `>`, `"` or `'`, and each of
      its `&` starts one of the five entities. */
  lemma EscapeHtmlSafe(s: string)
    ensures IsEscapedForm(EscapeHtml(s))
  {
    EscapeHtmlIsPerChar(s);
    EscapeEachSafe(s);
  }

  lemma {:induction false} EscapeEachClean(s: string)
    requires forall i :: 0 <= i < |s| ==> !IsSpecial(s[i])
    ensures EscapeEach(s) == s
  {
    if s != [] {
      EscapeEachClean(s[1..]);
      assert EscapeChar(s[0]) == [s[0]];
    }
  }

  /** Text without any of `&<>"'` passes through `escapeHtml` unchanged. */
  lemma EscapeHtmlIdentityOnPlain(s: string)
    requires forall i :: 0 <= i < |s| ==> !IsSpecial(s[i])
    ensures EscapeHtml(s) == s
  {
    EscapeHtmlIsPerChar(s);
    EscapeEachClean(s);
  }

  /** A left-to-right decoder of the five entities: an entity at the front
      is turned back into its character, anything else is kept. */
  function Unescape(s: string): string
    decreases |s|
  {
    if s == [] then []
    else if |s| >= 5 && s[..5] == "&amp;" then "&" + Unescape(s[5..])
    else if |s| >= 4 && s[..4] == "&lt;" then "<" + Unescape(s[4..])
    else if |s| >= 4 && s[..4] == "&gt;" then ">" + Unescape(s[4..])
    else if |s| >= 6 && s[..6] == "&quot;" then "\"" + Unescape(s[6..])
    else if |s| >= 6 && s[..6] == "&#039;" then "'" + Unescape(s[6..])
    else [s[0]] + Unescape(s[1..])
  }

  lemma UnescapeChar(c: char, t: string)
    ensures Unescape(EscapeChar(c) + t) == [c] + Unescape(t)
  {
    var s := EscapeChar(c) + t;
    var n := |EscapeChar(c)|;
    assert s[..n] == EscapeChar(c) && s[n..] == t;
    assert s[0] == EscapeChar(c)[0];
    assert |s| >= 5 ==> s[..5][0] == s[0] && s[..5][1] == s[1];
    assert |s| >= 4 ==> s[..4][0] == s[0] && s[..4][1] == s[1];
    assert |s| >= 6 ==> s[..6][0] == s[0] && s[..6][1] == s[1];
    if !IsSpecial(c) {
      assert s[0] == c && s[0] != '&';
      assert s[1..] == t;
    }
  }

  /** Decoding undoes `escapeHtml`. */
  lemma {:induction false} UnescapeEscapeHtml(s: string)
    ensures Unescape(EscapeHtml(s)) == s
  {
    EscapeHtmlIsPerChar(s);
    UnescapeEscapeEach(s);
  }

  lemma {:induction false} UnescapeEscapeEach(s: string)
    ensures Unescape(EscapeEach(s)) == s
  {
    if s != [] {
      UnescapeChar(s[0], EscapeEach(s[1..]));
      UnescapeEscapeEach(s[1..]);
    }
  }

  /** Distinct inputs escape to distinct outputs. */
  lemma EscapeHtmlInjective(a: string, b: string)
    requires EscapeHtml(a) == EscapeHtml(b)
    ensures a == b
  {
    UnescapeEscapeHtml(a);
    UnescapeEscapeHtml(b);
  }
}
