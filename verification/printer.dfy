/**
 * The code printer as an object: a document background, the flag that makes
 * token backgrounds transparent, and the line counter that its methods
 * advance while they append to a string buffer. Each method is proved
 * against the functions of Markup and RenderLoop.
 */
module CodePrinter {
  import opened Wrappers
  import opened Markup
  import opened RenderLoop

  lemma AppendAssociates(a: string, b: string, c: string)
    ensures a + b + c == a + (b + c)
  {
  }

  lemma EmptyPrefix(a: string, b: string, c: string, d: string)
    ensures [] + a + b + c + d == a + b + c + d
  {
  }

  /** A growable character buffer that the printer appends to. */
  class StringBuffer {
    var contents: string

    constructor()
      ensures contents == []
    {
      contents := [];
    }

    method Append(s: string)
      modifies this
      ensures contents == old(contents) + s
    {
      contents := contents + s;
    }
  }

  class JavaCodePrinter {
    const documentBackgroundColor: Color
    /** Whether token backgrounds are drawn with alpha 0. */
    const ignoreTokBG: bool
    /** The number of the next line span to open. */
    var lineNumber: nat

    /** A printer on a white document. */
    constructor Default(ignoreTokenBackground: bool)
      ensures documentBackgroundColor == WHITE
      ensures ignoreTokBG == ignoreTokenBackground
      ensures lineNumber == 1
    {
      documentBackgroundColor := WHITE;
      ignoreTokBG := ignoreTokenBackground;
      lineNumber := 1;
    }

    /** A printer on a document of the given background colour. */
    constructor WithBackground(background: Color, ignoreTokenBackground: bool)
      ensures documentBackgroundColor == background
      ensures ignoreTokBG == ignoreTokenBackground
      ensures lineNumber == 1
    {
      documentBackgroundColor := background;
      ignoreTokBG := ignoreTokenBackground;
      lineNumber := 1;
    }

    /** Opens the line span numbered lineNumber, closing the open one first if asked, and advances the counter. */
    method AppendLineDiv(buf: StringBuffer, closePrevious: bool)
      modifies this, buf
      ensures buf.contents == old(buf.contents) + (if closePrevious then LineBreak(old(lineNumber)) else LineOpen(old(lineNumber)))
      ensures lineNumber == old(lineNumber) + 1
    {
      if closePrevious {
        buf.Append(LINE_CLOSE);
      }
      buf.Append(LineOpen(lineNumber));
      lineNumber := lineNumber + 1;
      if closePrevious {
        assert buf.contents == old(buf.contents) + LineBreak(old(lineNumber));
      }
    }

    /** Copies slack text, turning each newline into the end of one line span and the start of the next. */
    method AddSlack(substring: string, buf: StringBuffer)
      modifies this, buf
      ensures buf.contents == old(buf.contents) + SlackMarkup(substring, old(lineNumber))
      ensures lineNumber == old(lineNumber) + Newlines(substring)
    {
      for k := 0 to |substring|
        invariant buf.contents == old(buf.contents) + SlackMarkup(substring[..k], old(lineNumber))
        invariant lineNumber == old(lineNumber) + Newlines(substring[..k])
      {
        var c := substring[k];
        ghost var done := buf.contents;
        ghost var piece := if c == '\n' then LineBreak(lineNumber) else [c];
        if c == '\n' {
          AppendLineDiv(buf, true);
        } else {
          buf.Append([c]);
        }
        assert buf.contents == done + piece;
        assert substring[..k + 1] == substring[..k] + [c];
        SlackMarkupSnoc(substring[..k], c, old(lineNumber));
        AppendAssociates(old(buf.contents), SlackMarkup(substring[..k], old(lineNumber)), piece);
      }
      assert substring[..|substring|] == substring;
    }

    /**
     * Renders the source text as an HTML document. The tokenizer's output is
     * the parameter toks, in its map's iteration order; the outcome is the
     * one RunLoop describes, and the document holds the markup of the
     * pieces whenever every entry is renderable.
     */
    method WriteHTMLwithColors(coloredTokens: seq<ColoredToken>, code: string, toks: seq<Entry>)
      returns (r: Result<StringBuffer, RenderError>)
      modifies this
      ensures var ri := RenderInput(code, coloredTokens, toks, ignoreTokBG);
        match RunLoop(ri, |toks|)
        case Running(p) =>
          && r.Success? && fresh(r.value)
          && r.value.contents == Document(documentBackgroundColor, p.body)
          && lineNumber == p.lineNumber
        case Thrown(err, line) =>
          r == Failure(err) && lineNumber == line
      ensures var ri := RenderInput(code, coloredTokens, toks, ignoreTokBG);
        r.Success? <==> Renderable(ri, |toks|)
      ensures var ri := RenderInput(code, coloredTokens, toks, ignoreTokBG);
        Renderable(ri, |toks|) ==>
          && r.Success?
          && r.value.contents == Document(documentBackgroundColor, RenderPieces(Pieces(ri, |toks|), 2))
          && lineNumber == 2 + PieceNewlines(Pieces(ri, |toks|))
    {
      lineNumber := 1;
      var buf := new StringBuffer();
      AppendPreamble(buf);
      var thrown := RenderEntries(coloredTokens, code, toks, buf);
      ghost var ri := RenderInput(code, coloredTokens, toks, ignoreTokBG);
      RunLoopCompletesIffRenderable(ri, |toks|);
      if Renderable(ri, |toks|) {
        RunLoopRendersPieces(ri, |toks|);
      }
      if thrown.Some? {
        return Failure(thrown.value);
      }
      buf.Append(DOCUMENT_END);
      r := Success(buf);
    }

    /** The document up to the loop: head, style sheet, body tag and line span 1, after which the next line is 2. */
    method AppendPreamble(buf: StringBuffer)
      requires buf.contents == [] && lineNumber == 1
      modifies this, buf
      ensures buf.contents == Preamble(documentBackgroundColor)
      ensures lineNumber == START.lineNumber
    {
      buf.Append(LINK_HEAD);
      buf.Append(CSS_STYLE);
      buf.Append(BodyOpen(documentBackgroundColor));
      AppendLineDiv(buf, false);
      EmptyPrefix(LINK_HEAD, CSS_STYLE, BodyOpen(documentBackgroundColor), LineOpen(1));
    }

    /**
     * The loop of WriteHTMLwithColors over the tokenizer's entries: appends
     * the slack and span of each rendered entry, or stops at the first
     * exception.
     */
    method RenderEntries(coloredTokens: seq<ColoredToken>, code: string, toks: seq<Entry>, buf: StringBuffer)
      returns (thrown: Option<RenderError>)
      requires lineNumber == START.lineNumber
      modifies this, buf
      ensures match RunLoop(RenderInput(code, coloredTokens, toks, ignoreTokBG), |toks|)
        case Running(p) =>
          thrown == None && buf.contents == old(buf.contents) + p.body && lineNumber == p.lineNumber
        case Thrown(err, line) =>
          thrown == Some(err) && lineNumber == line
    {
      ghost var ri := RenderInput(code, coloredTokens, toks, ignoreTokBG);
      var i := 0;
      var prevPos := 0;
      while i < |toks|
        invariant 0 <= i <= |toks|
        invariant RunLoop(ri, i).Running?
        invariant buf.contents == old(buf.contents) + RunLoop(ri, i).progress.body
        invariant prevPos == RunLoop(ri, i).progress.prevPos
        invariant lineNumber == RunLoop(ri, i).progress.lineNumber
      {
        var entry := toks[i];
        if i == 0 || entry.key == INT_MAX {
          RunLoopSkips(ri, i);
          i := i + 1;
          continue;
        }
        if !(0 <= prevPos <= entry.key <= |code|) {
          RunLoopThrowsOnSlack(ri, i);
          return Some(SubstringOutOfRange(prevPos, entry.key, |code|));
        }
        ghost var p := RunLoop(ri, i).progress;
        ghost var slack := SlackMarkup(code[prevPos..entry.key], p.lineNumber);
        AddSlack(code[prevPos..entry.key], buf);
        if i >= |coloredTokens| {
          RunLoopThrowsOnColor(ri, i);
          return Some(ColorIndexOutOfRange(i, |coloredTokens|));
        }
        var tok := coloredTokens[i];
        var span := TokenSpan(tok, ignoreTokBG, entry.token);
        buf.Append(span);
        AppendAssociates(old(buf.contents), p.body, slack);
        AppendAssociates(old(buf.contents), p.body + slack, span);
        RunLoopRenders(ri, i);
        i := i + 1;
        prevPos := entry.key + |entry.token|;
      }
      return None;
    }
  }
}
