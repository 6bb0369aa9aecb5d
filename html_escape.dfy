/** escapeHtml (app.js): the winner's secret is inserted into the page only after '&', '<'
    and '>' have been replaced by their character entities, in that order. */
module HtmlEscape {

  /** String.prototype.replaceAll with a one-character pattern. */
  function ReplaceAll(s: string, ch: char, rep: string): (r: string)
    ensures forall x :: x in r ==> (x in s && x != ch) || x in rep
  {
    if s == [] then []
    else (if s[0] == ch then rep else [s[0]]) + ReplaceAll(s[1..], ch, rep)
  }

  /** The chain of three replacements of escapeHtml, in the order written. */
  function Chain(s: string): string
  {
    ReplaceAll(ReplaceAll(ReplaceAll(s, '&', "&amp;"), '<', "&lt;"), '>', "&gt;")
  }

  /** An empty (falsy) input gives the empty string; otherwise '&' is escaped first, so the
      entities introduced afterwards are not escaped again. The result never holds '<' or '>'. */
  function EscapeHtml(s: string): (r: string)
    ensures s == "" ==> r == ""
    ensures '<' !in r && '>' !in r
  {
    if s == "" then ""
    else Chain(s)
  }

  /** The escape of one character. */
  function EscapeChar(x: char): string
  {
    if x == '&' then "&amp;" else if x == '<' then "&lt;" else if x == '>' then "&gt;" else [x]
  }

  /** Character-by-character escaping: the reference definition. */
  function EscapeEach(s: string): string
  {
    if s == [] then [] else EscapeChar(s[0]) + EscapeEach(s[1..])
  }

  /** Reverses EscapeEach: each entity becomes its character again, everything else is kept. */
  function Unescape(s: string): string
  {
    if s == [] then []
    else if |s| >= 5 && s[..5] == "&amp;" then "&" + Unescape(s[5..])
    else if |s| >= 4 && s[..4] == "&lt;" then "<" + Unescape(s[4..])
    else if |s| >= 4 && s[..4] == "&gt;" then ">" + Unescape(s[4..])
    else [s[0]] + Unescape(s[1..])
  }

  lemma {:induction false} ReplaceAllAbsent(s: string, ch: char, rep: string)
    requires ch !in s
    ensures ReplaceAll(s, ch, rep) == s
  {
    if s != [] {
      ReplaceAllAbsent(s[1..], ch, rep);
    }
  }

  lemma {:induction false} ReplaceAllAppend(a: string, b: string, ch: char, rep: string)
    ensures ReplaceAll(a + b, ch, rep) == ReplaceAll(a, ch, rep) + ReplaceAll(b, ch, rep)
  {
    if a != [] {
      assert (a + b)[1..] == a[1..] + b;
      ReplaceAllAppend(a[1..], b, ch, rep);
    } else {
      assert a + b == b;
    }
  }

  lemma ChainOneCharacter(x: char)
    ensures Chain([x]) == EscapeChar(x)
  {
    var a0 := ReplaceAll([x], '&', "&amp;");
    assert [x][0] == x && [x][1..] == [];
    assert a0 == (if x == '&' then "&amp;" else [x]) + ReplaceAll([], '&', "&amp;");
    var b0 := ReplaceAll(a0, '<', "&lt;");
    if x == '&' {
      ReplaceAllAbsent(a0, '<', "&lt;");
      ReplaceAllAbsent(b0, '>', "&gt;");
    } else if x == '<' {
      assert b0 == "&lt;" + ReplaceAll([], '<', "&lt;");
      ReplaceAllAbsent(b0, '>', "&gt;");
    } else {
      ReplaceAllAbsent(a0, '<', "&lt;");
      assert ReplaceAll(b0, '>', "&gt;") == (if x == '>' then "&gt;" else [x]) + ReplaceAll([], '>', "&gt;");
    }
  }

  /** The three chained replacements escape each character independently: because '&' goes
      first, no '&' of an entity added for '<' or '>' is turned into "&amp;". */
  lemma {:induction false} EscapeChainIsPerCharacter(s: string)
    ensures Chain(s) == EscapeEach(s)
  {
    if s != [] {
      var x, rest := s[0], s[1..];
      assert s == [x] + rest;
      ReplaceAllAppend([x], rest, '&', "&amp;");
      var a0, a1 := ReplaceAll([x], '&', "&amp;"), ReplaceAll(rest, '&', "&amp;");
      ReplaceAllAppend(a0, a1, '<', "&lt;");
      var b0, b1 := ReplaceAll(a0, '<', "&lt;"), ReplaceAll(a1, '<', "&lt;");
      ReplaceAllAppend(b0, b1, '>', "&gt;");
      ChainOneCharacter(x);
      EscapeChainIsPerCharacter(rest);
    }
  }

  lemma UnescapeAmp(tail: string)
    ensures Unescape("&amp;" + tail) == "&" + Unescape(tail)
  {
    var e := "&amp;" + tail;
    assert e[..5] == "&amp;" && e[5..] == tail;
  }

  lemma UnescapeLt(tail: string)
    ensures Unescape("&lt;" + tail) == "<" + Unescape(tail)
  {
    var e := "&lt;" + tail;
    assert e[1] == 'l' && e[..4] == "&lt;" && e[4..] == tail;
  }

  lemma UnescapeGt(tail: string)
    ensures Unescape("&gt;" + tail) == ">" + Unescape(tail)
  {
    var e := "&gt;" + tail;
    assert e[1] == 'g' && e[..4] == "&gt;" && e[4..] == tail;
  }

  lemma UnescapePlain(x: char, tail: string)
    requires x != '&'
    ensures Unescape([x] + tail) == [x] + Unescape(tail)
  {
    var e := [x] + tail;
    assert e[0] == x && e[1..] == tail;
  }

  lemma UnescapeOneCharacter(x: char, tail: string)
    ensures Unescape(EscapeChar(x) + tail) == [x] + Unescape(tail)
  {
    if x == '&' {
      UnescapeAmp(tail);
    } else if x == '<' {
      UnescapeLt(tail);
    } else if x == '>' {
      UnescapeGt(tail);
    } else {
      UnescapePlain(x, tail);
    }
  }

  lemma {:induction false} UnescapeEscapeEach(s: string)
    ensures Unescape(EscapeEach(s)) == s
  {
    if s != [] {
      UnescapeEscapeEach(s[1..]);
      UnescapeOneCharacter(s[0], EscapeEach(s[1..]));
      assert s == [s[0]] + s[1..];
    }
  }

  /** Escaping loses nothing: unescaping the result gives the input back. */
  lemma EscapeHtmlRoundTrip(s: string)
    ensures Unescape(EscapeHtml(s)) == s
  {
    if s != "" {
      EscapeChainIsPerCharacter(s);
      UnescapeEscapeEach(s);
    }
  }
}
