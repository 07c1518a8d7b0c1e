/**
 * The rendering loop of the code printer as a function of its inputs: the
 * source text, the tokenizer's offset-to-token map, the colour annotations
 * and the background flag. RunLoop follows the loop entry by entry; Pieces
 * describes the same output declaratively, one piece per rendered entry, and
 * the lemmas connect the two and state what the output contains.
 */
module RenderLoop {
  import opened Wrappers
  import opened Markup

  const INT_MIN: int := -0x8000_0000
  const INT_MAX: int := 0x7fff_ffff

  /** One entry of the tokenizer's position map: start offset and token text. */
  datatype Entry = Entry(key: int, token: string)

  /** Keys are Java ints in strictly increasing order, as a sorted map iterates them. */
  predicate IsTokenMap(toks: seq<Entry>) {
    && (forall k :: 0 <= k < |toks| ==> INT_MIN <= toks[k].key <= INT_MAX)
    && (forall a, b :: 0 <= a < b < |toks| ==> toks[a].key < toks[b].key)
  }

  /** Everything one render call reads besides the document background. */
  datatype RenderInput = RenderInput(
    code: string,
    coloredTokens: seq<ColoredToken>,
    toks: seq<Entry>,
    ignoreTokBG: bool)

  /** The two exceptions the loop can throw. */
  datatype RenderError =
    | SubstringOutOfRange(begin: int, end: int, length: int)
    | ColorIndexOutOfRange(index: int, size: int)

  /** The loop's variables: what it appended after the first line span, prevPos and lineNumber. */
  datatype Progress = Progress(body: string, prevPos: int, lineNumber: nat)

  datatype LoopState = Running(progress: Progress) | Thrown(error: RenderError, lineNumber: nat)

  /** Before the first entry: nothing appended yet, line C1 open, so the next line is 2. */
  const START := Progress([], 0, 2)

  /** The first entry and the end sentinel produce no token span. */
  predicate Skipped(toks: seq<Entry>, i: nat)
    requires i < |toks|
  {
    i == 0 || toks[i].key == INT_MAX
  }

  /** One pass of the loop body for entry i. */
  function Step(ri: RenderInput, i: nat, p: Progress): LoopState
    requires i < |ri.toks|
  {
    var e := ri.toks[i];
    if Skipped(ri.toks, i) then Running(p)
    else if !(0 <= p.prevPos <= e.key <= |ri.code|) then
      Thrown(SubstringOutOfRange(p.prevPos, e.key, |ri.code|), p.lineNumber)
    else
      var slack := ri.code[p.prevPos..e.key];
      var line := p.lineNumber + Newlines(slack);
      if i >= |ri.coloredTokens| then Thrown(ColorIndexOutOfRange(i, |ri.coloredTokens|), line)
      else
        var span := TokenSpan(ri.coloredTokens[i], ri.ignoreTokBG, e.token);
        Running(Progress(p.body + SlackMarkup(slack, p.lineNumber) + span, e.key + |e.token|, line))
  }

  /** The loop after its first n entries; an exception ends it. */
  function RunLoop(ri: RenderInput, n: nat): LoopState
    requires n <= |ri.toks|
  {
    if n == 0 then Running(START)
    else match RunLoop(ri, n - 1)
      case Thrown(err, line) => Thrown(err, line)
      case Running(p) => Step(ri, n - 1, p)
  }

  /** A skipped entry leaves the loop's variables as they were. */
  lemma RunLoopSkips(ri: RenderInput, i: nat)
    requires i < |ri.toks| && RunLoop(ri, i).Running? && Skipped(ri.toks, i)
    ensures RunLoop(ri, i + 1) == RunLoop(ri, i)
  {
  }

  /** A rendered entry appends its slack, split into lines, and its span, and moves prevPos past its token. */
  lemma RunLoopRenders(ri: RenderInput, i: nat)
    requires i < |ri.toks| && RunLoop(ri, i).Running? && !Skipped(ri.toks, i)
    requires var p, e := RunLoop(ri, i).progress, ri.toks[i];
      0 <= p.prevPos <= e.key <= |ri.code| && i < |ri.coloredTokens|
    ensures var p, e := RunLoop(ri, i).progress, ri.toks[i];
      var slack := ri.code[p.prevPos..e.key];
      RunLoop(ri, i + 1) == Running(Progress(
        p.body + SlackMarkup(slack, p.lineNumber) + TokenSpan(ri.coloredTokens[i], ri.ignoreTokBG, e.token),
        e.key + |e.token|,
        p.lineNumber + Newlines(slack)))
  {
  }

  /** The slack bounds are checked first: out of range, the loop throws with lineNumber unchanged. */
  lemma RunLoopThrowsOnSlack(ri: RenderInput, i: nat)
    requires i < |ri.toks| && RunLoop(ri, i).Running? && !Skipped(ri.toks, i)
    requires var p, e := RunLoop(ri, i).progress, ri.toks[i];
      !(0 <= p.prevPos <= e.key <= |ri.code|)
    ensures var p, e := RunLoop(ri, i).progress, ri.toks[i];
      RunLoop(ri, |ri.toks|) == Thrown(SubstringOutOfRange(p.prevPos, e.key, |ri.code|), p.lineNumber)
  {
    ThrownPersists(ri, i + 1, |ri.toks|);
  }

  /** Then the colour index: out of range, the loop throws after the slack's newlines were counted. */
  lemma RunLoopThrowsOnColor(ri: RenderInput, i: nat)
    requires i < |ri.toks| && RunLoop(ri, i).Running? && !Skipped(ri.toks, i)
    requires var p, e := RunLoop(ri, i).progress, ri.toks[i];
      0 <= p.prevPos <= e.key <= |ri.code| && |ri.coloredTokens| <= i
    ensures var p, e := RunLoop(ri, i).progress, ri.toks[i];
      RunLoop(ri, |ri.toks|)
      == Thrown(ColorIndexOutOfRange(i, |ri.coloredTokens|), p.lineNumber + Newlines(ri.code[p.prevPos..e.key]))
  {
    var p := RunLoop(ri, i).progress;
    StepThrowsOnColor(ri, i, p);
    ThrowsAt(ri, i, Step(ri, i, p));
  }

  /** An entry whose step throws decides the loop's outcome. */
  lemma ThrowsAt(ri: RenderInput, i: nat, t: LoopState)
    requires i < |ri.toks| && RunLoop(ri, i).Running?
    requires t.Thrown? && Step(ri, i, RunLoop(ri, i).progress) == t
    ensures RunLoop(ri, |ri.toks|) == t
  {
    ThrownPersists(ri, i + 1, |ri.toks|);
  }

  lemma StepThrowsOnColor(ri: RenderInput, i: nat, p: Progress)
    requires i < |ri.toks| && !Skipped(ri.toks, i)
    requires 0 <= p.prevPos <= ri.toks[i].key <= |ri.code| && |ri.coloredTokens| <= i
    ensures Step(ri, i, p)
         == Thrown(ColorIndexOutOfRange(i, |ri.coloredTokens|), p.lineNumber + Newlines(ri.code[p.prevPos..ri.toks[i].key]))
  {
  }

  /** The loop never reads the colour annotation at index 0: the first entry is always skipped. */
  lemma {:induction false} FirstColorUnused(ri: RenderInput, c: ColoredToken, n: nat)
    requires n <= |ri.toks| && |ri.coloredTokens| > 0
    ensures RunLoop(ri, n) == RunLoop(ri.(coloredTokens := ri.coloredTokens[0 := c]), n)
  {
    if n > 0 {
      FirstColorUnused(ri, c, n - 1);
      if RunLoop(ri, n - 1).Running? {
        StepIgnoresFirstColor(ri, c, n - 1, RunLoop(ri, n - 1).progress);
      }
    }
  }

  lemma StepIgnoresFirstColor(ri: RenderInput, c: ColoredToken, i: nat, p: Progress)
    requires i < |ri.toks| && |ri.coloredTokens| > 0
    ensures Step(ri, i, p) == Step(ri.(coloredTokens := ri.coloredTokens[0 := c]), i, p)
  {
    if !Skipped(ri.toks, i) && i < |ri.coloredTokens| {
      assert ri.coloredTokens[0 := c][i] == ri.coloredTokens[i];
    }
  }

  /** Once thrown, the exception is the loop's outcome. */
  lemma {:induction false} ThrownPersists(ri: RenderInput, m: nat, n: nat)
    requires m <= n <= |ri.toks|
    requires RunLoop(ri, m).Thrown?
    ensures RunLoop(ri, n) == RunLoop(ri, m)
  {
    if m < n {
      ThrownPersists(ri, m, n - 1);
    }
  }

  /** The whole document around the loop's output. */
  function Document(bg: Color, body: string): string {
    Preamble(bg) + body + DOCUMENT_END
  }

  /** Everything before the loop's output: head, style sheet, body tag and the span of line 1. */
  function Preamble(bg: Color): string {
    LINK_HEAD + CSS_STYLE + BodyOpen(bg) + LineOpen(1)
  }

  /** Reads the background colour off the body tag of a document. */
  function ReadBodyBackground(doc: string): Option<Color> {
    var head := LINK_HEAD + CSS_STYLE + BODY_OPEN;
    if !(head <= doc) then None else
    match ReadRgb(doc[|head|..])
    case None => None
    case Some((c, _)) => Some(c)
  }

  lemma RegroupDocument(a: string, b: string, c: string, d: string, e: string, f: string, g: string, h: string)
    ensures a + b + (c + d + e) + f + g + h == (a + b + c) + (d + (e + f + g + h))
  {
  }

  /** The loop's output sits between the preamble and the fixed tail, so it can be cut back out. */
  lemma DocumentBody(bg: Color, body: string)
    ensures var doc := Document(bg, body);
      && |doc| == |Preamble(bg)| + |body| + |DOCUMENT_END|
      && doc[..|Preamble(bg)|] == Preamble(bg)
      && doc[|Preamble(bg)|..|doc| - |DOCUMENT_END|] == body
      && doc[|doc| - |DOCUMENT_END|..] == DOCUMENT_END
  {
    var doc := Document(bg, body);
    var pre, n := Preamble(bg), |Preamble(bg)|;
    assert doc == pre + body + DOCUMENT_END;
    assert doc[..n] == pre;
    assert doc[n..|doc| - |DOCUMENT_END|] == body;
  }

  /** The body tag carries the document background colour. */
  lemma DocumentBackground(bg: Color, body: string)
    ensures ReadBodyBackground(Document(bg, body)) == Some(bg)
  {
    var head := LINK_HEAD + CSS_STYLE + BODY_OPEN;
    var rest := CODE_OPEN + LineOpen(1) + body + DOCUMENT_END;
    RegroupDocument(LINK_HEAD, CSS_STYLE, BODY_OPEN, RgbText(bg), CODE_OPEN, LineOpen(1), body, DOCUMENT_END);
    assert Document(bg, body) == head + (RgbText(bg) + rest);
    assert Document(bg, body)[|head|..] == RgbText(bg) + rest;
    ReadRgbText(bg, rest);
  }

  // ---------------------------------------------------------------------
  // Which entries are rendered, and where each starts copying slack
  // ---------------------------------------------------------------------

  /** The indices, below n, of the entries that produce a token span, in order. */
  function RenderedIndices(toks: seq<Entry>, n: nat): (r: seq<nat>)
    requires n <= |toks|
    ensures forall k :: 0 <= k < |r| ==> 0 < r[k] < n
  {
    if n == 0 then []
    else RenderedIndices(toks, n - 1) + (if Skipped(toks, n - 1) then [] else [n - 1])
  }

  /** Exactly the entries other than the first and the sentinel are rendered, in enumeration order. */
  lemma {:induction false} RenderedIndicesSpec(toks: seq<Entry>, n: nat)
    requires n <= |toks|
    ensures forall j :: j in RenderedIndices(toks, n) <==> 0 < j < n && toks[j].key != INT_MAX
    ensures forall a, b :: 0 <= a < b < |RenderedIndices(toks, n)| ==>
              RenderedIndices(toks, n)[a] < RenderedIndices(toks, n)[b]
  {
    if n > 0 {
      RenderedIndicesSpec(toks, n - 1);
    }
  }

  /** Rendered tokens appear in increasing key order. */
  lemma RenderedKeysIncrease(toks: seq<Entry>, n: nat)
    requires n <= |toks| && IsTokenMap(toks)
    ensures forall a, b :: 0 <= a < b < |RenderedIndices(toks, n)| ==>
              toks[RenderedIndices(toks, n)[a]].key < toks[RenderedIndices(toks, n)[b]].key
  {
    RenderedIndicesSpec(toks, n);
    var r := RenderedIndices(toks, n);
    forall a, b | 0 <= a < b < |r| ensures toks[r[a]].key < toks[r[b]].key {
      assert r[a] in r && r[b] in r;
    }
  }

  /** Where the slack before entry n starts: the end of the last rendered token, or 0. */
  function LastEnd(toks: seq<Entry>, n: nat): int
    requires n <= |toks|
  {
    if n == 0 then 0
    else if Skipped(toks, n - 1) then LastEnd(toks, n - 1)
    else toks[n - 1].key + |toks[n - 1].token|
  }

  /** LastEnd is the end of the last rendered entry, or 0 when none was rendered. */
  lemma {:induction false} LastEndIsLastRendered(toks: seq<Entry>, n: nat)
    requires n <= |toks|
    ensures var r := RenderedIndices(toks, n);
      LastEnd(toks, n) == if r == [] then 0 else toks[r[|r| - 1]].key + |toks[r[|r| - 1]].token|
  {
    if n > 0 {
      LastEndIsLastRendered(toks, n - 1);
    }
  }

  /** Entry j renders without an exception, given that the entries before it did. */
  predicate EntryRenderable(ri: RenderInput, j: nat)
    requires j < |ri.toks|
  {
    Skipped(ri.toks, j)
    || (0 <= LastEnd(ri.toks, j) <= ri.toks[j].key <= |ri.code| && j < |ri.coloredTokens|)
  }

  /** The first n entries render without an exception. */
  predicate Renderable(ri: RenderInput, n: nat)
    requires n <= |ri.toks|
  {
    n == 0 || (Renderable(ri, n - 1) && EntryRenderable(ri, n - 1))
  }

  /** Renderable means that every one of the first n entries is renderable. */
  lemma {:induction false} RenderableEvery(ri: RenderInput, n: nat)
    requires n <= |ri.toks|
    ensures Renderable(ri, n) <==> forall j :: 0 <= j < n ==> EntryRenderable(ri, j)
  {
    if n > 0 {
      RenderableEvery(ri, n - 1);
    }
  }

  // ---------------------------------------------------------------------
  // The output, one piece per rendered entry
  // ---------------------------------------------------------------------

  /** A rendered entry: the slack copied before it, its token text and its token span. */
  datatype Piece = Piece(slack: string, token: string, span: string)

  /** Entry j rendered: the source from LastEnd up to its key, and its span in colour j. */
  function PieceOf(ri: RenderInput, j: nat): Piece
    requires j < |ri.toks| && !Skipped(ri.toks, j) && EntryRenderable(ri, j)
  {
    var e := ri.toks[j];
    Piece(ri.code[LastEnd(ri.toks, j)..e.key], e.token, TokenSpan(ri.coloredTokens[j], ri.ignoreTokBG, e.token))
  }

  function Pieces(ri: RenderInput, n: nat): seq<Piece>
    requires n <= |ri.toks| && Renderable(ri, n)
  {
    if n == 0 then []
    else Pieces(ri, n - 1) + (if Skipped(ri.toks, n - 1) then [] else [PieceOf(ri, n - 1)])
  }

  /** The number of newlines in the slack of all pieces. */
  function PieceNewlines(ps: seq<Piece>): nat {
    if ps == [] then 0 else PieceNewlines(ps[..|ps| - 1]) + Newlines(ps[|ps| - 1].slack)
  }

  /** The markup of the pieces when the next line to open is `line`: each piece's slack split into lines, then its span. */
  function RenderPieces(ps: seq<Piece>, line: nat): string {
    if ps == [] then []
    else
      var init, last := ps[..|ps| - 1], ps[|ps| - 1];
      RenderPieces(init, line) + SlackMarkup(last.slack, line + PieceNewlines(init)) + last.span
  }

  /** The text of the pieces with all markup removed. */
  function PlainText(ps: seq<Piece>): string {
    if ps == [] then [] else PlainText(ps[..|ps| - 1]) + ps[|ps| - 1].slack + ps[|ps| - 1].token
  }

  /** Unfolds the functions over pieces at an appended piece. */
  lemma PiecesSnoc(ps: seq<Piece>, pc: Piece)
    ensures PieceNewlines(ps + [pc]) == PieceNewlines(ps) + Newlines(pc.slack)
    ensures PlainText(ps + [pc]) == PlainText(ps) + pc.slack + pc.token
  {
    assert (ps + [pc])[..|ps|] == ps;
  }

  lemma RenderPiecesSnoc(ps: seq<Piece>, pc: Piece, line: nat)
    ensures RenderPieces(ps + [pc], line)
         == RenderPieces(ps, line) + SlackMarkup(pc.slack, line + PieceNewlines(ps)) + pc.span
  {
    var qs := ps + [pc];
    assert qs[..|qs| - 1] == ps;
    assert qs[|qs| - 1] == pc;
  }

  /** Unfolds Pieces at its last entry. */
  lemma PiecesLast(ri: RenderInput, n: nat)
    requires 0 < n <= |ri.toks| && Renderable(ri, n)
    ensures Skipped(ri.toks, n - 1) ==> Pieces(ri, n) == Pieces(ri, n - 1)
    ensures !Skipped(ri.toks, n - 1) ==> Pieces(ri, n) == Pieces(ri, n - 1) + [PieceOf(ri, n - 1)]
  {
    assert Pieces(ri, n - 1) + [] == Pieces(ri, n - 1);
  }

  /** Piece k is the rendered entry RenderedIndices[k], coloured with coloredTokens at that index. */
  lemma {:induction false} PiecesAreRenderedEntries(ri: RenderInput, n: nat)
    requires n <= |ri.toks| && Renderable(ri, n)
    ensures |Pieces(ri, n)| == |RenderedIndices(ri.toks, n)|
    ensures forall k :: 0 <= k < |RenderedIndices(ri.toks, n)| ==>
              var j := RenderedIndices(ri.toks, n)[k];
              j < n && !Skipped(ri.toks, j) && EntryRenderable(ri, j)
    ensures forall k :: 0 <= k < |Pieces(ri, n)| ==>
              Pieces(ri, n)[k] == PieceOf(ri, RenderedIndices(ri.toks, n)[k])
  {
    if n > 0 {
      PiecesAreRenderedEntries(ri, n - 1);
    }
  }

  /**
   * While every entry is renderable the loop's output is the markup of the
   * pieces, prevPos is the end of the last rendered token and lineNumber is 2
   * plus the newlines in all slack.
   */
  lemma {:induction false} RunLoopRendersPieces(ri: RenderInput, n: nat)
    requires n <= |ri.toks| && Renderable(ri, n)
    ensures RunLoop(ri, n) == Running(Rendered(ri, n))
  {
    if n > 0 {
      RunLoopRendersPieces(ri, n - 1);
      RenderedStep(ri, n);
    }
  }

  /** The loop completes exactly when every entry is renderable. */
  lemma {:induction false} RunLoopCompletesIffRenderable(ri: RenderInput, n: nat)
    requires n <= |ri.toks|
    ensures RunLoop(ri, n).Running? <==> Renderable(ri, n)
  {
    if n > 0 {
      RunLoopCompletesIffRenderable(ri, n - 1);
      if Renderable(ri, n) {
        RunLoopRendersPieces(ri, n);
      } else if Renderable(ri, n - 1) {
        RunLoopRendersPieces(ri, n - 1);
        StepThrows(ri, n - 1, Rendered(ri, n - 1));
      }
    }
  }

  /** The loop's variables after the first n entries, described by the pieces. */
  function Rendered(ri: RenderInput, n: nat): Progress
    requires n <= |ri.toks| && Renderable(ri, n)
  {
    Progress(RenderPieces(Pieces(ri, n), 2), LastEnd(ri.toks, n), 2 + PieceNewlines(Pieces(ri, n)))
  }

  /** Entry n - 1 takes the loop from the pieces before it to the pieces including it. */
  lemma RenderedStep(ri: RenderInput, n: nat)
    requires 0 < n <= |ri.toks| && Renderable(ri, n)
    ensures Step(ri, n - 1, Rendered(ri, n - 1)) == Running(Rendered(ri, n))
  {
    if Skipped(ri.toks, n - 1) {
      SkippedStep(ri, n);
    } else {
      RenderingStep(ri, n);
    }
  }

  lemma SkippedStep(ri: RenderInput, n: nat)
    requires 0 < n <= |ri.toks| && Renderable(ri, n) && Skipped(ri.toks, n - 1)
    ensures Step(ri, n - 1, Rendered(ri, n - 1)) == Running(Rendered(ri, n))
  {
    PiecesLast(ri, n);
  }

  lemma RenderingStep(ri: RenderInput, n: nat)
    requires 0 < n <= |ri.toks| && Renderable(ri, n) && !Skipped(ri.toks, n - 1)
    ensures Step(ri, n - 1, Rendered(ri, n - 1)) == Running(Rendered(ri, n))
  {
    PiecesLast(ri, n);
    StepRendersPiece(ri, n - 1, Pieces(ri, n - 1));
  }

  /** A non-renderable entry throws, whatever the loop has appended so far. */
  lemma StepThrows(ri: RenderInput, i: nat, p: Progress)
    requires i < |ri.toks| && !EntryRenderable(ri, i) && p.prevPos == LastEnd(ri.toks, i)
    ensures Step(ri, i, p).Thrown?
  {
  }

  /** A rendered entry appends the markup of its piece. */
  lemma StepRendersPiece(ri: RenderInput, i: nat, ps: seq<Piece>)
    requires i < |ri.toks| && !Skipped(ri.toks, i) && EntryRenderable(ri, i)
    ensures var p := Progress(RenderPieces(ps, 2), LastEnd(ri.toks, i), 2 + PieceNewlines(ps));
      var qs := ps + [PieceOf(ri, i)];
      Step(ri, i, p) == Running(Progress(RenderPieces(qs, 2), LastEnd(ri.toks, i + 1), 2 + PieceNewlines(qs)))
  {
    PiecesSnoc(ps, PieceOf(ri, i));
    RenderPiecesSnoc(ps, PieceOf(ri, i), 2);
  }

  /** The exception a non-renderable entry j throws, with lineNumber at that moment. */
  function FailureAt(ri: RenderInput, j: nat): LoopState
    requires j < |ri.toks| && Renderable(ri, j) && !EntryRenderable(ri, j)
  {
    var line := 2 + PieceNewlines(Pieces(ri, j));
    var begin, end := LastEnd(ri.toks, j), ri.toks[j].key;
    if !(0 <= begin <= end <= |ri.code|) then Thrown(SubstringOutOfRange(begin, end, |ri.code|), line)
    else Thrown(ColorIndexOutOfRange(j, |ri.coloredTokens|), line + Newlines(ri.code[begin..end]))
  }

  /** The first entry that cannot be rendered decides the exception: the slack bounds are checked before the colour index. */
  lemma {:induction false} FirstBadEntryThrows(ri: RenderInput, j: nat, n: nat)
    requires j < n <= |ri.toks|
    requires Renderable(ri, j) && !EntryRenderable(ri, j)
    ensures RunLoop(ri, n) == FailureAt(ri, j)
  {
    if n == j + 1 {
      RunLoopRendersPieces(ri, j);
    } else {
      FirstBadEntryThrows(ri, j, n - 1);
    }
  }

  // ---------------------------------------------------------------------
  // Text coverage and line count
  // ---------------------------------------------------------------------

  /** Entry j, when rendered, is the source text at its offset. */
  predicate TokenMatchesCode(ri: RenderInput, j: nat)
    requires j < |ri.toks|
  {
    var e := ri.toks[j];
    Skipped(ri.toks, j)
    || (0 <= e.key && e.key + |e.token| <= |ri.code| && ri.code[e.key..e.key + |e.token|] == e.token)
  }

  /** Every rendered token among the first n entries is the source text at its offset. */
  predicate TokensMatchCode(ri: RenderInput, n: nat)
    requires n <= |ri.toks|
  {
    n == 0 || (TokensMatchCode(ri, n - 1) && TokenMatchesCode(ri, n - 1))
  }

  lemma SlicesJoin(s: string, a: nat, k: nat, e: nat)
    requires a <= k <= e <= |s|
    ensures s[..a] + s[a..k] + s[k..e] == s[..e]
  {
  }

  /**
   * When the tokens are the source text at their offsets, the output without
   * its markup is the source up to the end of the last rendered token: the
   * first entry's text is copied as slack and text after the last rendered
   * token is not emitted.
   */
  lemma {:induction false} PlainTextIsCodePrefix(ri: RenderInput, n: nat)
    requires n <= |ri.toks| && Renderable(ri, n) && TokensMatchCode(ri, n)
    ensures 0 <= LastEnd(ri.toks, n) <= |ri.code|
    ensures PlainText(Pieces(ri, n)) == ri.code[..LastEnd(ri.toks, n)]
  {
    if n > 0 {
      PiecesLast(ri, n);
      PlainTextIsCodePrefix(ri, n - 1);
      if !Skipped(ri.toks, n - 1) {
        var e := ri.toks[n - 1];
        assert ri.code[e.key..e.key + |e.token|] == e.token;
        PlainTextSnoc(Pieces(ri, n - 1), PieceOf(ri, n - 1), ri.code, LastEnd(ri.toks, n - 1), e.key, e.key + |e.token|);
      }
    }
  }

  /** Appending a piece whose slack and token continue the source extends the plain text as a prefix of it. */
  lemma PlainTextSnoc(ps: seq<Piece>, pc: Piece, s: string, a: nat, k: nat, e: nat)
    requires a <= k <= e <= |s|
    requires PlainText(ps) == s[..a] && pc.slack == s[a..k] && pc.token == s[k..e]
    ensures PlainText(ps + [pc]) == s[..e]
  {
    PiecesSnoc(ps, pc);
    SlicesJoin(s, a, k, e);
  }

  /** Slack newlines are all the newlines of the plain text when no token holds one. */
  lemma {:induction false} PieceNewlinesOfPlainText(ps: seq<Piece>)
    requires forall k :: 0 <= k < |ps| ==> Newlines(ps[k].token) == 0
    ensures PieceNewlines(ps) == Newlines(PlainText(ps))
  {
    if ps != [] {
      var init, last := ps[..|ps| - 1], ps[|ps| - 1];
      PieceNewlinesOfPlainText(init);
      SlackMarkupAppend(PlainText(init), last.slack, 0);
      SlackMarkupAppend(PlainText(init) + last.slack, last.token, 0);
    }
  }

  /**
   * When the tokens are the source text and contain no newline, the loop
   * ends with lineNumber 2 plus the newlines of the source up to the end of
   * the last rendered token: one line span per source line.
   */
  lemma LineNumberCountsSourceLines(ri: RenderInput, n: nat)
    requires n <= |ri.toks| && Renderable(ri, n) && TokensMatchCode(ri, n)
    requires forall j :: 0 <= j < n && !Skipped(ri.toks, j) ==> Newlines(ri.toks[j].token) == 0
    ensures RunLoop(ri, n).Running?
    ensures 0 <= LastEnd(ri.toks, n) <= |ri.code|
    ensures RunLoop(ri, n).progress.lineNumber == 2 + Newlines(ri.code[..LastEnd(ri.toks, n)])
  {
    RunLoopRendersPieces(ri, n);
    PiecesAreRenderedEntries(ri, n);
    PlainTextIsCodePrefix(ri, n);
    PieceNewlinesOfPlainText(Pieces(ri, n));
  }
}
