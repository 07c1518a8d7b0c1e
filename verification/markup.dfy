/**
 * The pieces of HTML text the code printer emits: the document head and
 * body tag, the numbered line spans that slack text is split into, and the
 * styled span around each token; with readers that recover what was put in.
 */
module Markup {
  import opened Wrappers
  import opened Decimal

  /** One channel of an RGB colour, as returned by getRed/getGreen/getBlue. */
  type Channel = c: int | 0 <= c < 256

  datatype Color = Color(red: Channel, green: Channel, blue: Channel)

  /** The default document background of the printer. */
  const WHITE := Color(255, 255, 255)

  /** The style annotation of one token: background, foreground, extra CSS. */
  datatype ColoredToken = ColoredToken(bgColor: Color, fontColor: Color, extraStyle: string)

  // ---------------------------------------------------------------------
  // Colours as text
  // ---------------------------------------------------------------------

  /** "R,G,B", each channel in decimal. */
  function RgbText(c: Color): string {
    NatToString(c.red) + "," + NatToString(c.green) + "," + NatToString(c.blue)
  }

  /** Reads a decimal number and the comma after it off the front of s. */
  function ReadChannelComma(s: string): Option<(nat, string)> {
    match ReadNat(s)
    case None => None
    case Some((n, s1)) => if s1 != [] && s1[0] == ',' then Some((n, s1[1..])) else None
  }

  lemma ReadChannelCommaOf(n: nat, rest: string)
    ensures ReadChannelComma(NatToString(n) + ("," + rest)) == Some((n, rest))
  {
    ReadNatToString(n, "," + rest);
    assert ("," + rest)[1..] == rest;
  }

  /** Reads "R,G,B" off the front of s; each channel must be below 256. */
  function ReadRgb(s: string): Option<(Color, string)> {
    match ReadChannelComma(s)
    case None => None
    case Some((r, s1)) =>
      match ReadChannelComma(s1)
      case None => None
      case Some((g, s2)) =>
        match ReadNat(s2)
        case None => None
        case Some((b, s3)) =>
          if r < 256 && g < 256 && b < 256 then Some((Color(r, g, b), s3)) else None
  }

  /** Reading back a rendered colour gives the colour and what follows it. */
  lemma ReadRgbText(c: Color, rest: string)
    requires rest == [] || !IsDigit(rest[0])
    ensures ReadRgb(RgbText(c) + rest) == Some((c, rest))
  {
    var r, g, b := NatToString(c.red), NatToString(c.green), NatToString(c.blue);
    var t2 := b + rest;
    var t1 := g + ("," + t2);
    assert RgbText(c) + rest == r + ("," + t1);
    ReadChannelCommaOf(c.red, t1);
    ReadChannelCommaOf(c.green, t2);
    ReadNatToString(c.blue, rest);
  }

  // ---------------------------------------------------------------------
  // Document head, body tag and end
  // ---------------------------------------------------------------------

  /** The html and head opening with the web-font link. */
  const LINK_HEAD := "<html>\n<head>\n<link href='http://fonts.googleapis.com/css?family=Source+Code+Pro:300,400,500,600,700,800,900' rel='stylesheet' type='text/css'>\n"

  /** The fixed stylesheet defining the line and code classes. */
  const CSS_STYLE := "<style>\n.line {font-family:monospace; "
    + "font: 14px/1.3 \"Source Code Pro\", \"Fira Mono OT\", monospace;white-space:pre;line-height:0px;display:inline;}\n"
    + ".line:hover {font-family:monospace; "
    + "font: 14px/1.3 \"Source Code Pro\", \"Fira Mono OT\", monospace;white-space:pre;line-height:0px;display:inline; background-color:rgb(240,240,240);}\n"
    + ".code { display: block;white-space: pre;}\n" + "</style>"

  const BODY_OPEN := "</head>\n<body style='background-color:rgb("
  const CODE_OPEN := ")'><span class='code'>"

  /** Closes the head, opens the body with the given background and opens the code span. */
  function BodyOpen(bg: Color): string {
    BODY_OPEN + RgbText(bg) + CODE_OPEN
  }

  /** Closes one span (the line span still open), then the body and the document. */
  const DOCUMENT_END := "</span></body></html>"

  // ---------------------------------------------------------------------
  // Line spans and slack
  // ---------------------------------------------------------------------

  const LINE_OPEN := "<span class='line' id='C"
  const LINE_CLOSE := "</span>\n"
  /** Where the newline of LINE_CLOSE sits: the last character of the close tag. */
  const CLOSE_NEWLINE_AT: nat := |LINE_CLOSE| - 1

  /** The opening tag of the line span with id C<n>. */
  function LineOpen(n: nat): string {
    LINE_OPEN + NatToString(n) + "'>"
  }

  /** What a newline in slack becomes: close the current line, open line n. */
  function LineBreak(n: nat): string {
    LINE_CLOSE + LineOpen(n)
  }

  /** Line ids identify their line: two line spans open alike only for the same number. */
  lemma LineOpenInjective(m: nat, n: nat)
    requires LineOpen(m) == LineOpen(n)
    ensures m == n
  {
    var p := |LINE_OPEN|;
    assert |NatToString(m)| == |NatToString(n)|;
    assert LineOpen(m)[p..p + |NatToString(m)|] == NatToString(m);
    assert LineOpen(n)[p..p + |NatToString(n)|] == NatToString(n);
    NatToStringInjective(m, n);
  }

  /** The number of newline characters in s. */
  function Newlines(s: string): nat {
    if s == [] then 0 else (if s[0] == '\n' then 1 else 0) + Newlines(s[1..])
  }

  /**
   * Text split into lines when the current line is `line`: every character
   * but a newline is copied verbatim, and the k-th newline (from 0) becomes
   * lineBreak(line + k).
   */
  function SplitLines(s: string, line: nat, lineBreak: nat -> string): string {
    if s == [] then []
    else if s[0] == '\n' then lineBreak(line) + SplitLines(s[1..], line + 1, lineBreak)
    else [s[0]] + SplitLines(s[1..], line, lineBreak)
  }

  lemma {:induction false} SplitLinesAppend(a: string, b: string, line: nat, lineBreak: nat -> string)
    ensures SplitLines(a + b, line, lineBreak)
         == SplitLines(a, line, lineBreak) + SplitLines(b, line + Newlines(a), lineBreak)
    ensures Newlines(a + b) == Newlines(a) + Newlines(b)
  {
    if a == [] {
      assert a + b == b;
    } else {
      assert (a + b)[1..] == a[1..] + b;
      SplitLinesAppend(a[1..], b, if a[0] == '\n' then line + 1 else line, lineBreak);
    }
  }

  /** Slack as the printer emits it: each newline closes the line span and opens the next one. */
  function SlackMarkup(s: string, line: nat): string {
    SplitLines(s, line, LineBreak)
  }

  /** Slack may be emitted piecewise: the second part continues with the line numbers the first left. */
  lemma SlackMarkupAppend(a: string, b: string, line: nat)
    ensures SlackMarkup(a + b, line) == SlackMarkup(a, line) + SlackMarkup(b, line + Newlines(a))
    ensures Newlines(a + b) == Newlines(a) + Newlines(b)
  {
    SplitLinesAppend(a, b, line, LineBreak);
  }

  /** Slack grows one character at a time: a newline opens the next line, any other character is copied. */
  lemma SlackMarkupSnoc(s: string, c: char, line: nat)
    ensures SlackMarkup(s + [c], line)
         == SlackMarkup(s, line) + (if c == '\n' then LineBreak(line + Newlines(s)) else [c])
    ensures Newlines(s + [c]) == Newlines(s) + (if c == '\n' then 1 else 0)
  {
    SplitLinesAppend(s, [c], line, LineBreak);
    assert [c][1..] == [];
  }

  /** The newline at position p of slack closes its line and opens line `line` plus the newlines before it. */
  lemma NewlineOpensLine(s: string, p: nat, line: nat)
    requires p < |s| && s[p] == '\n'
    ensures SlackMarkup(s, line) ==
      SlackMarkup(s[..p], line) + LineBreak(line + Newlines(s[..p]))
      + SlackMarkup(s[p + 1..], line + Newlines(s[..p]) + 1)
  {
    assert s == s[..p] + s[p..];
    SplitLinesAppend(s[..p], s[p..], line, LineBreak);
    assert s[p..][1..] == s[p + 1..];
  }

  lemma {:induction false} SlackMarkupStartsWithoutNewline(t: string, line: nat, p: nat)
    requires p < CLOSE_NEWLINE_AT && p < |SlackMarkup(t, line)|
    ensures SlackMarkup(t, line)[p] != '\n'
  {
    if t[0] == '\n' {
      assert SlackMarkup(t, line)[p] == LINE_CLOSE[p];
    } else if p > 0 {
      SlackMarkupStartsWithoutNewline(t[1..], line, p - 1);
    }
  }

  /**
   * Removes the line markup from emitted slack: a line break for the
   * expected next line becomes a newline again, and every other character is
   * kept.
   */
  function Unslack(m: string, line: nat): string
    decreases |m|
  {
    if m == [] then []
    else if LineBreak(line) <= m then ['\n'] + Unslack(m[|LineBreak(line)|..], line + 1)
    else [m[0]] + Unslack(m[1..], line)
  }

  /** Deleting the inserted line markup from emitted slack gives back the slack. */
  lemma {:induction false} UnslackSlackMarkup(s: string, line: nat)
    ensures Unslack(SlackMarkup(s, line), line) == s
  {
    if s != [] {
      var next := if s[0] == '\n' then line + 1 else line;
      var rest := SlackMarkup(s[1..], next);
      UnslackSlackMarkup(s[1..], next);
      if s[0] == '\n' {
        var m := LineBreak(line) + rest;
        assert LineBreak(line) <= m;
        assert m[|LineBreak(line)|..] == rest;
      } else {
        var m := [s[0]] + rest;
        if CLOSE_NEWLINE_AT < |m| {
          SlackMarkupStartsWithoutNewline(s[1..], line, CLOSE_NEWLINE_AT - 1);
          assert m[CLOSE_NEWLINE_AT] != LineBreak(line)[CLOSE_NEWLINE_AT];
        }
        assert !(LineBreak(line) <= m);
        assert m[1..] == rest;
      }
    }
  }

  // ---------------------------------------------------------------------
  // Token spans
  // ---------------------------------------------------------------------

  const SPAN_OPEN := "<span style='background-color:rgba("
  const SPAN_COLOR := "); color:rgb("
  const SPAN_CLOSE := "</span>"

  /**
   * The styled span of one token: background with alpha 0 when token
   * backgrounds are ignored and 1 otherwise, foreground, the extra style and
   * the token text, both verbatim.
   */
  function TokenSpan(tok: ColoredToken, ignoreTokBG: bool, text: string): string {
    // grouped from the right so that each part is one concatenation away
    SPAN_OPEN + (RgbText(tok.bgColor) + (("," + (if ignoreTokBG then "0" else "1"))
    + (SPAN_COLOR + (RgbText(tok.fontColor) + ("); " + tok.extraStyle + "'>" + text + SPAN_CLOSE)))))
  }

  /** A token span opens with the style prefix and ends with the token text, verbatim, and its closing tag. */
  lemma TokenSpanText(tok: ColoredToken, ignoreTokBG: bool, text: string)
    ensures var span := TokenSpan(tok, ignoreTokBG, text);
      && SPAN_OPEN <= span
      && |span| >= |text| + |SPAN_CLOSE|
      && span[|span| - |SPAN_CLOSE| - |text|..|span| - |SPAN_CLOSE|] == text
      && span[|span| - |SPAN_CLOSE|..] == SPAN_CLOSE
  {
    var alpha := "," + (if ignoreTokBG then "0" else "1");
    var style := "); " + tok.extraStyle + "'>";
    RegroupSpan(SPAN_OPEN, RgbText(tok.bgColor), alpha, SPAN_COLOR, RgbText(tok.fontColor), style, text, SPAN_CLOSE);
  }

  lemma RegroupSpan(a: string, b: string, c: string, d: string, e: string, f: string, text: string, close: string)
    ensures var x := a + (b + (c + (d + (e + (f + text + close)))));
      && a <= x
      && |x| >= |text| + |close|
      && x[|x| - |close| - |text|..|x| - |close|] == text
      && x[|x| - |close|..] == close
  {
    var front := a + (b + (c + (d + (e + f))));
    var x := a + (b + (c + (d + (e + (f + text + close)))));
    assert x == front + text + close;
    assert x[..|a|] == a;
  }

  /** Reads background colour, alpha character and foreground colour from a token span. */
  function ReadSpanStyle(s: string): Option<(Color, char, Color)> {
    if !(SPAN_OPEN <= s) then None else
    match ReadRgb(s[|SPAN_OPEN|..])
    case None => None
    case Some((bg, s1)) =>
      if |s1| < 2 || s1[0] != ',' then None else
      var s2 := s1[2..];
      if !(SPAN_COLOR <= s2) then None else
      match ReadRgb(s2[|SPAN_COLOR|..])
      case None => None
      case Some((fg, _)) => Some((bg, s1[1], fg))
  }

  /** A token span carries the annotation's two colours and the alpha the flag selects. */
  lemma TokenSpanStyle(tok: ColoredToken, ignoreTokBG: bool, text: string)
    ensures ReadSpanStyle(TokenSpan(tok, ignoreTokBG, text))
         == Some((tok.bgColor, if ignoreTokBG then '0' else '1', tok.fontColor))
  {
    var alpha := if ignoreTokBG then '0' else '1';
    assert "," + (if ignoreTokBG then "0" else "1") == [',', alpha];
    ReadSpanStyleOf(tok.bgColor, alpha, tok.fontColor, "); " + tok.extraStyle + "'>" + text + SPAN_CLOSE);
  }

  lemma ReadSpanStyleOf(bg: Color, alpha: char, fg: Color, tail: string)
    requires tail == [] || !IsDigit(tail[0])
    ensures ReadSpanStyle(SPAN_OPEN + (RgbText(bg) + ([',', alpha] + (SPAN_COLOR + (RgbText(fg) + tail)))))
         == Some((bg, alpha, fg))
  {
    var rest := [',', alpha] + (SPAN_COLOR + (RgbText(fg) + tail));
    var span := SPAN_OPEN + (RgbText(bg) + rest);
    assert span[|SPAN_OPEN|..] == RgbText(bg) + rest;
    ReadRgbText(bg, rest);
    ReadForeground(alpha, fg, tail);
  }

  lemma ReadForeground(alpha: char, fg: Color, tail: string)
    requires tail == [] || !IsDigit(tail[0])
    ensures var s1 := [',', alpha] + (SPAN_COLOR + (RgbText(fg) + tail));
      && s1[1] == alpha
      && SPAN_COLOR <= s1[2..]
      && ReadRgb(s1[2..][|SPAN_COLOR|..]) == Some((fg, tail))
  {
    var s1 := [',', alpha] + (SPAN_COLOR + (RgbText(fg) + tail));
    assert s1[2..] == SPAN_COLOR + (RgbText(fg) + tail);
    assert s1[2..][|SPAN_COLOR|..] == RgbText(fg) + tail;
    ReadRgbText(fg, tail);
  }
}
