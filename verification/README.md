# JavaCodePrinter, modelled in Dafny

`JavaCodePrinter` renders a Java source file as an HTML page in which every
token is wrapped in a styled `<span>` with its own background and foreground
colour, and the source is split into numbered line spans
`<span class='line' id='Cn'>`. This project models its rendering core:

- `writeHTMLwithColors`: writes the fixed head, the style sheet and the body tag.
  It then walks the tokenizer's offset-to-token map in key order and copies the
  source between tokens ("slack"). Each token goes in a span coloured by the
  annotation at the same enumeration index. The page ends with a fixed tail.
- `addSlack`: copies slack character by character. Each newline closes the
  current line span and opens the next one.
- `appendLineDiv`: emits a line span with the current line number and
  advances the counter.
- The constructors, which only fix the document background.

The model has four modules besides `Wrappers` (`Option`, `Result`):

- `Decimal`: the decimal text Java produces when a non-negative int is
  concatenated to a string, and a reader that parses it back. Every number the
  printer writes (`lineNumber` and the colour channels) is non-negative.
- `Markup`: colours, the fixed document texts, line spans, slack markup
  (`SlackMarkup`) with its inverse (`Unslack`), and token spans
  (`TokenSpan`) with a reader for the colours they carry.
- `RenderLoop`: the loop as a function of its inputs. `RunLoop` follows the
  Java loop entry by entry, including both exceptions. `Pieces` describes the
  same output declaratively, one piece per rendered entry. The lemmas connect
  the two views and state what the output contains.
- `CodePrinter`: the printer object. `JavaCodePrinter` is a class with the
  mutable field `lineNumber`. Its methods append to a `StringBuffer` object
  and are proved against the functions above.

The code is followed as written in these respects:

- The text of the first map entry is not dropped. `prevPos` starts at 0 and
  the first entry is skipped, so that text is emitted as slack in front of
  the second entry.
- The colour of a token is `coloredTokens[i]`, where `i` is the enumeration
  index and counts skipped entries too. `coloredTokens[0]` is never read.
- Source text after the last rendered token is not emitted.
- Only one `</span>` precedes `</body>`, so the `code` span is left open.
- Newlines inside token text do not open a new line span.

An exception (`StringIndexOutOfBoundsException` from `substring`, or
`IndexOutOfBoundsException` from `coloredTokens.get`) is modelled as a
`Failure` result. `lineNumber` keeps the value it had reached when the
exception was thrown.

## Model

| member | source | states |
|---|---|---|
| CodePrinter.JavaCodePrinter.Default | src/main/java/codemining/java/codeutils/JavaCodePrinter.java:47-50 | the printer draws on a white background and starts with lineNumber 1 |
| CodePrinter.JavaCodePrinter.WithBackground | src/main/java/codemining/java/codeutils/JavaCodePrinter.java:52-61 | the printer draws on the given background and starts with lineNumber 1 |
| CodePrinter.JavaCodePrinter.AppendLineDiv | src/main/java/codemining/java/codeutils/JavaCodePrinter.java:74-81 | appends the close tag only when asked, then the line span with the current number; the number goes up by one |
| CodePrinter.JavaCodePrinter.AddSlack | src/main/java/codemining/java/codeutils/JavaCodePrinter.java:63-70 | appends exactly SlackMarkup of the text from the current line; lineNumber goes up by the number of newlines in it |
| CodePrinter.JavaCodePrinter.AppendPreamble | src/main/java/codemining/java/codeutils/JavaCodePrinter.java:101-107 | the buffer holds the head, style sheet, body tag with the background and line span C1; the next line is 2 |
| CodePrinter.JavaCodePrinter.RenderEntries | src/main/java/codemining/java/codeutils/JavaCodePrinter.java:108-125 | the loop appends what RunLoop computes and ends with its lineNumber, or reports the exception RunLoop throws |
| CodePrinter.JavaCodePrinter.WriteHTMLwithColors | src/main/java/codemining/java/codeutils/JavaCodePrinter.java:88-129 | succeeds exactly when every entry is renderable; the result is then the document around the markup of the pieces, and lineNumber is 2 plus the newlines of all slack; otherwise the first exception is returned |
| Decimal.ParseNatToString | src/main/java/codemining/java/codeutils/JavaCodePrinter.java:79 | parsing the decimal text of a number gives the number back |
| Decimal.NatToStringNoLeadingZero | src/main/java/codemining/java/codeutils/JavaCodePrinter.java:79 | the decimal text starts with 0 only for the number 0 |
| Decimal.NatToStringInjective | src/main/java/codemining/java/codeutils/JavaCodePrinter.java:79 | distinct numbers have distinct decimal texts |
| Decimal.ReadNatToString | src/main/java/codemining/java/codeutils/JavaCodePrinter.java:104-106 | a number read off the front of its text followed by a non-digit is the number, and the rest is left |
| Markup.ReadRgbText | src/main/java/codemining/java/codeutils/JavaCodePrinter.java:104-106 | the three channels written as "r,g,b" read back as the same colour |
| Markup.LineOpenInjective | src/main/java/codemining/java/codeutils/JavaCodePrinter.java:79 | two line spans open with the same text only when they have the same number |
| Markup.SlackMarkupAppend | src/main/java/codemining/java/codeutils/JavaCodePrinter.java:63-70 | slack emitted in two parts equals slack emitted at once; the second part continues the line numbers of the first |
| Markup.SlackMarkupSnoc | src/main/java/codemining/java/codeutils/JavaCodePrinter.java:64-69 | one more character appends a line break for a newline and the character itself otherwise |
| Markup.NewlineOpensLine | src/main/java/codemining/java/codeutils/JavaCodePrinter.java:63-81 | the newline at position p closes its line and opens the line numbered by the start line plus the newlines before p |
| Markup.UnslackSlackMarkup | src/main/java/codemining/java/codeutils/JavaCodePrinter.java:63-70 | deleting the inserted line markup from emitted slack gives the slack back exactly |
| Markup.TokenSpanStyle | src/main/java/codemining/java/codeutils/JavaCodePrinter.java:116-122 | a token span carries the background colour, alpha 0 exactly when token backgrounds are ignored (1 otherwise), and the font colour |
| Markup.TokenSpanText | src/main/java/codemining/java/codeutils/JavaCodePrinter.java:116-122 | a token span opens with the style prefix and ends with the token text, unescaped, and `</span>` |
| RenderLoop.RunLoopThrowsOnSlack | src/main/java/codemining/java/codeutils/JavaCodePrinter.java:113 | when prevPos and key are not in order within the source, the call fails with that substring error |
| RenderLoop.RunLoopThrowsOnColor | src/main/java/codemining/java/codeutils/JavaCodePrinter.java:113-114 | when i is not below the number of colour annotations, the call fails with an index error, after the slack's newlines were counted |
| RenderLoop.ThrownPersists | src/main/java/codemining/java/codeutils/JavaCodePrinter.java:108-125 | an exception ends the loop: later entries change nothing |
| RenderLoop.FirstColorUnused | src/main/java/codemining/java/codeutils/JavaCodePrinter.java:109-114 | replacing coloredTokens[0] changes nothing about the outcome |
| RenderLoop.DocumentBody | src/main/java/codemining/java/codeutils/JavaCodePrinter.java:101-126 | the document is the preamble, then the loop output, then exactly `</span></body></html>`; the output can be cut back out |
| RenderLoop.DocumentBackground | src/main/java/codemining/java/codeutils/JavaCodePrinter.java:103-106 | the body tag of the document reads back as the document background colour |
| RenderLoop.RenderedIndicesSpec | src/main/java/codemining/java/codeutils/JavaCodePrinter.java:108-112 | the rendered entries are exactly those other than the first and the MAX_VALUE sentinel, in enumeration order |
| RenderLoop.RenderedKeysIncrease | src/main/java/codemining/java/codeutils/JavaCodePrinter.java:96-108 | for a sorted map, rendered tokens appear in increasing key order |
| RenderLoop.LastEndIsLastRendered | src/main/java/codemining/java/codeutils/JavaCodePrinter.java:100-124 | the slack before an entry starts at the end of the last rendered token, or at 0 when none was rendered |
| RenderLoop.RenderableEvery | src/main/java/codemining/java/codeutils/JavaCodePrinter.java:113-114 | the entries are renderable together exactly when each one is |
| RenderLoop.PiecesAreRenderedEntries | src/main/java/codemining/java/codeutils/JavaCodePrinter.java:109-124 | there is one piece per rendered entry, in order; piece k holds that entry's slack, token and span in the colour at the entry's own index |
| RenderLoop.RunLoopRendersPieces | src/main/java/codemining/java/codeutils/JavaCodePrinter.java:108-125 | when every entry is renderable, the loop emits the markup of the pieces; prevPos ends at the last token's end and lineNumber at 2 plus the slack newlines |
| RenderLoop.RunLoopCompletesIffRenderable | src/main/java/codemining/java/codeutils/JavaCodePrinter.java:108-125 | the loop finishes without an exception exactly when every entry is renderable |
| RenderLoop.FirstBadEntryThrows | src/main/java/codemining/java/codeutils/JavaCodePrinter.java:113-114 | the first entry that cannot be rendered decides the exception; the substring check comes before the colour check |
| RenderLoop.PlainTextIsCodePrefix | src/main/java/codemining/java/codeutils/JavaCodePrinter.java:100-126 | when tokens are the source text at their offsets, slack and tokens together are the source up to the end of the last rendered token |
| RenderLoop.PieceNewlinesOfPlainText | src/main/java/codemining/java/codeutils/JavaCodePrinter.java:121 | when no token holds a newline, the slack newlines are all the newlines of the emitted text |
| RenderLoop.LineNumberCountsSourceLines | src/main/java/codemining/java/codeutils/JavaCodePrinter.java:92-107 | with such tokens, the loop ends with lineNumber 2 plus the newlines of the covered source |

## Left out

- Reading the file (JavaCodePrinter.java:91) is I/O. The source text is a parameter of `WriteHTMLwithColors`.
- The tokenizer (`JavaTokenizer`, `ITokenizer.fullTokenListWithPos`, :48, :53, :57-61, :96-97) is code this model cannot see. Its output is the parameter `toks`, a sequence of (offset, token) entries in the map's iteration order. `IsTokenMap` states the sorted-map property. Only `RenderedKeysIncrease` needs it, because the loop does not depend on the order.
- The tokenizer's own exceptions, and the reflective `InstantiationException`/`IllegalAccessException`, are not modelled.
- CodePrinter.JavaCodePrinter.WithBackground also stands for the constructor that takes a tokenizer (:57-61), because the tokenizer is a parameter here.
- `SettingsLoader.getBooleanSetting` (:38-39) is a process-wide settings lookup. `ignoreTokBG` is a constructor parameter instead.
- `java.awt.Color` becomes a triple of channels in 0..255, and `Color.WHITE` becomes (255, 255, 255).
- `java.lang.StringBuffer` is modelled only by its `append`.
- CodePrinter.JavaCodePrinter.AppendPreamble and CodePrinter.JavaCodePrinter.RenderEntries are parts of `writeHTMLwithColors` (:101-107 and :108-125), written as separate methods. The Java runs them inline.
- RenderLoop.Step: `lineNumber`, `i` and `prevPos` are unbounded integers, so 32-bit wrap-around is not modelled. For `lineNumber` and `i` it would take 2^31 lines or entries. For `prevPos` it would need a key plus token length beyond Integer.MAX_VALUE. The next substring call would fail in Java too, but with a negative begin index instead of the large one reported here.
- The CSS text and the font link (:41-45, :101) are copied verbatim. Nothing is proved about their content.
- There is no decoder for the whole body, because token text and `extraStyle` are inserted unescaped and may themselves contain markup. The markup-free view of the output is `PlainText` of the pieces. `Unslack` inverts the line markup of slack.
- Characters: a Dafny `char` is a Unicode scalar value, while Java counts UTF-16 code units (`code.toCharArray()`, `substring`, `token.length()`, :64, :97, :113, :124). A Dafny character stands for one Java `char` only for text in the Basic Multilingual Plane. Map keys, slack bounds and `prevPos` count the same units as `code`. For source text with characters outside that plane the offsets differ, and a key inside a surrogate pair cannot be represented.
- Thread-safety (the class is documented as not thread-safe) has no counterpart, because the model is sequential.
