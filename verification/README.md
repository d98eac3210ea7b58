# ftml list parsing and plain-text rendering in Dafny

This project models two parts of ftml, the Wikidot-style wikitext compiler.

- **The plain-text renderer** (`ftml/src/render/text/elements.rs`). It walks
  the document tree and writes text into a context. The context holds an
  output buffer, a stack of line prefixes, a list depth and a list index.
  - `TextSpec` states what rendering does, as functions from one context
    state (`TextState`) to the next.
  - `TextRender.TextContext` is the context as a class. Its fields are
    updated in place by the mutually recursive methods `RenderElements` and
    `RenderElement` and the methods for their arms, as in the source. Every
    such method is proved to leave the context in the state the `TextSpec`
    functions describe. `GetFullUrl` only reads the context, as the source
    does.
  - `TextProperties` proves the renderer's layout rules about those
    functions: containers, list markers and indentation, line breaks,
    horizontal rules, fixed glyphs and the URL join.
- **The bullet-list and numbered-list rules**
  (`ftml/src/parsing/rule/impls/list.rs`).
  - `Parsing` holds the tokens, the parse warnings and a `Parser` class with
    a cursor. It also holds `CollectConsume`, the part of `collect_consume`
    that the list rule uses.
  - `ListRule.ParseList` is `parse_list`. It loops over the parser's cursor,
    gathers `(depth, elements)` entries and warnings, nests them, and builds
    the `List` element. It is proved equal to the function `ListOutcome`.
  - `ListOutcome` and its properties are proved in the same module.
  - `Depth` nests the flat entries into a tree (`process_depths`).
  - `BuildListElement` turns the nested entries into a `List` element whose
    sub-lists all share its list type.

Things that lie outside the model are parameters:

- the host's callbacks (module rendering, link labels, localized messages,
  the site's base URL);
- the absolute-URL test `is_url`;
- the other parse rules that turn a line's tokens into elements (the
  `InlineParser` parameter).

The list loop steps past a leading `Whitespace` token (list.rs:93) and
past the marker (list.rs:110) before it finds that a line is not an entry.
So a line that is not an entry can lose one or two tokens to the list.
`ListRule.StopConsumesHeadOnly` states which tokens those can be, and where
the cursor stops (`ListRule.StopPoint`).

## Model

| member | source | states |
|---|---|---|
| TextSpec.Render | ftml/src/render/text/elements.rs:37-202 | Rendering any element pops every prefix it pushes and restores the list depth. It only appends to the output, and the list index never goes back. |
| TextSpec.RenderAll | ftml/src/render/text/elements.rs:29-35 | Rendering a sequence of elements keeps the same scoping: prefixes and depth restored, output only extended, index monotone. |
| TextSpec.RenderItems | ftml/src/render/text/elements.rs:97-127 | Rendering the items of a list keeps the same scoping. |
| TextSpec.RenderItem | ftml/src/render/text/elements.rs:99-125 | Rendering one list item, an entry or a sub-list, keeps the same scoping. |
| TextSpec.AddNewlines | ftml/src/render/text/elements.rs:187-191 | Repeated newlines change only the output, and only by appending. |
| TextSpec.NatToString | ftml/src/render/text/elements.rs:110-111 | The index written before a numbered entry is its decimal form: a non-empty run of digits whose value (`DecimalValue`) is the index, with no leading zero except in `0` itself. |
| TextSpec.Repeat | ftml/src/render/text/elements.rs:102-105 | The indentation is exactly `n` copies of the character. |
| TextRender.TextContext.RenderElements | ftml/src/render/text/elements.rs:29-35 | Rendering the elements one by one in place leaves the context as `RenderAll` describes. |
| TextRender.TextContext.RenderElement | ftml/src/render/text/elements.rs:37-202 | Every arm of the element match, run in place, leaves the context as `Render` describes. |
| TextRender.TextContext.RenderContainer | ftml/src/render/text/elements.rs:41-71 | The Container arm, run in place, leaves the context as `Render` describes. It pushes the prefix and writes a newline, renders the children, then pops the prefix and writes a newline, for block-level containers only. |
| TextRender.TextContext.RenderAnchor | ftml/src/render/text/elements.rs:79-90 | The Anchor arm renders the children, then the full URL of `href` when there is one, leaving the context as `Render` describes. |
| TextRender.TextContext.RenderLeaf | ftml/src/render/text/elements.rs:72-185 | The arms for elements without children (module, text, raw, email, link, radio button, check box, code, html, iframe) append exactly the string `Render` describes. |
| TextRender.TextContext.RenderCollapsible | ftml/src/render/text/elements.rs:134-172 | The Collapsible arm writes the show label, the hide label when it is shown on top, the children, and the hide label when it is shown at the bottom. The labels fall back to the host's localized messages. The result is the state `Render` describes. |
| TextRender.TextContext.AddNewlines | ftml/src/render/text/elements.rs:187-191 | The loop of `amount` newlines leaves the context as `AddNewlines` describes. |
| TextRender.TextContext.RenderHorizontalRule | ftml/src/render/text/elements.rs:192-200 | The rule's in-place writes, a conditional newline and then the divider, leave the context as `Render` describes. |
| TextRender.TextContext.RenderList | ftml/src/render/text/elements.rs:97-127 | The loop over a list's items leaves the context as `RenderItems` describes. |
| TextRender.TextContext.RenderItem | ftml/src/render/text/elements.rs:99-125 | The indentation loop, the marker, and the depth increment and decrement around a sub-list leave the context as `RenderItem` describes. |
| TextRender.TextContext.AddNewline | ftml/src/render/text/elements.rs:57 | Appends a line break, then every active prefix bottom first. Nothing else changes. |
| TextRender.TextContext.PushPrefix | ftml/src/render/text/elements.rs:54 | Pushes one prefix on top of the stack. |
| TextRender.TextContext.PopPrefix | ftml/src/render/text/elements.rs:66 | Pops the top prefix; an empty stack stays empty. |
| TextRender.TextContext.NextListIndex | ftml/src/render/text/elements.rs:110 | Returns the current index and moves the counter on by one. |
| TextRender.TextContext.IncrListDepth | ftml/src/render/text/elements.rs:121 | Raises the list depth by one. |
| TextRender.TextContext.DecrListDepth | ftml/src/render/text/elements.rs:123 | Lowers the list depth by one; it is only called after the matching increment. |
| TextRender.TextContext.GetFullUrl | ftml/src/render/text/elements.rs:204-224 | An absolute URL is returned unchanged. A relative URL becomes the site's base URL and the URL joined by one slash (`JoinUrl`). |
| TextProperties.RenderAllAppend | ftml/src/render/text/elements.rs:29-35 | Rendering `a + b` is rendering `a`, then rendering `b` from the state `a` left. |
| TextProperties.RenderItemsAppend | ftml/src/render/text/elements.rs:97-98 | The same holds for a list's items. |
| TextProperties.ContainerKinds | ftml/src/render/text/elements.rs:44-49 | Exactly Div, Paragraph, Blockquote and Header are block-level. Blockquote pushes four spaces and a Header its level's prefix. No other container pushes a prefix. |
| TextProperties.BlockContainerNewlines | ftml/src/render/text/elements.rs:51-70 | A block container writes a newline under its own prefix, renders its children with that prefix on the stack, and then writes a newline under the outer prefixes only. |
| TextProperties.InlineContainerTransparent | ftml/src/render/text/elements.rs:44-71 | A container that is not block-level renders exactly as its children do. |
| TextProperties.ColorTransparent | ftml/src/render/text/elements.rs:173 | A Color element renders exactly as its children do. |
| TextProperties.EntryLayout | ftml/src/render/text/elements.rs:100-117 | An entry writes `list_depth` spaces, then `* `, the next index followed by `. `, or nothing, then its children. Only a numbered entry moves the index on. |
| TextProperties.SubListDepth | ftml/src/render/text/elements.rs:119-124 | A sub-list renders one level deeper, and the depth is restored afterwards. |
| TextProperties.NestedEntryIndented | ftml/src/render/text/elements.rs:100-124 | The first entry of a nested list is indented by one more space than the enclosing entries, and it carries its own marker. |
| TextProperties.ListKeepsDepth | ftml/src/render/text/elements.rs:97-127 | Rendering any list leaves the list depth unchanged. |
| TextProperties.LiteralElements | ftml/src/render/text/elements.rs:76-78 | Text, Raw and Email append their string unchanged. |
| TextProperties.ButtonGlyphs | ftml/src/render/text/elements.rs:128-133 | A radio button writes `(*)` or `( )`, and a check box `[X]` or `[ ]`. |
| TextProperties.FencedBlocks | ftml/src/render/text/elements.rs:174-184 | Code is fenced with its language, or with none. Html renders exactly as Code with the language `html`. |
| TextProperties.LineBreaksOutput | ftml/src/render/text/elements.rs:186-191 | `LineBreaks(n)` writes `n` newlines, each followed by the active prefixes. `LineBreak` is the same as `LineBreaks(1)`. |
| TextProperties.AddNewlinesOutput | ftml/src/render/text/elements.rs:187-191 | `n` newlines append `n` copies of a line break plus the prefixes. |
| TextProperties.HorizontalRuleOutput | ftml/src/render/text/elements.rs:192-200 | A rule leaves the earlier text untouched. It adds `\n` only when the buffer is non-empty and does not already end in one, then writes the divider. |
| TextProperties.HorizontalRuleSingleBreak | ftml/src/render/text/elements.rs:192-200 | A rule after text that lacks a final line break gives the same result as after that text with one. |
| TextProperties.JoinUrlSingleSlash | ftml/src/render/text/elements.rs:212-222 | In all four slash cases, the base and the path are joined by exactly one slash. |
| Depth.RunEnd | ftml/src/parsing/rule/impls/list.rs:142 | The run of lines after an entry that are deeper than it: every line in the run is deeper, and the line that ends it is not. |
| Depth.ProcessDepthsHead | ftml/src/parsing/rule/impls/list.rs:142 | The nesting `Depth.ProcessDepths` gives is empty only for no lines. The first line is its first entry. A sub-list follows that entry exactly when deeper lines come right after it (`RunEnd`). The rest is the nesting of the lines after that run. |
| Depth.ProcessDepthsKeepsOrder | ftml/src/parsing/rule/impls/list.rs:141-142 | Nesting drops, duplicates and reorders nothing: reading the nested list back gives every payload in order. |
| Depth.ProcessDepthsWellNested | ftml/src/parsing/rule/impls/list.rs:142 | The nesting starts with an entry. Every sub-list follows an entry and is non-empty and well nested. |
| Depth.RelativeDepthsOnly | ftml/src/parsing/rule/impls/list.rs:142 | Two line lists whose depths compare the same way nest identically. |
| Depth.OutlineExample | ftml/src/parsing/rule/impls/list.rs:142 | Depths 0, 2, 4, 0 and depths 0, 1, 2, 0 both give `a[ b[ c ] ], d`. |
| Parsing.Parser.Step | ftml/src/parsing/rule/impls/list.rs:82 | The cursor moves on by exactly one token, and never past the end of input. |
| Parsing.LineEnd | ftml/src/parsing/rule/impls/list.rs:119-129 | The first line break, paragraph break or end of input at or after a position. |
| Parsing.CollectLine | ftml/src/parsing/rule/impls/list.rs:119-129 | A paragraph break before the line ends fails with a `RuleFailed` warning at that token. Otherwise the content is the tokens up to the line end. `next` is one past the line end when that is a line break, and the line end itself when it is the end of input. |
| Parsing.CollectConsume | ftml/src/parsing/rule/impls/list.rs:119-129 | Scanning the cursor to the line end yields `CollectLine`'s result and cursor. |
| ListRule.GetListType | ftml/src/parsing/rule/impls/list.rs:53-59 | Only the bullet and numbered markers have a list type (which one each gets is stated by `ListTypeOfMarker`). |
| ListRule.ListTypeOfMarker | ftml/src/parsing/rule/impls/list.rs:53-59 | `BulletItem` gives the Bullet type under the `bullet-list` rule, and `NumberedItem` the Numbered type under the `numbered-list` rule. So a marker's list type is never Generic, and the list type determines the marker and the rule. |
| ListRule.BuildListElement | ftml/src/parsing/rule/impls/list.rs:148-158 | A list of the given type with one item per nested entry, in order. An entry becomes an `Elements` item and a nested list a `SubList`. |
| ListRule.BuildListRoundTrip | ftml/src/parsing/rule/impls/list.rs:148-157 | Reading the built element's items back gives the nested entries exactly. |
| ListRule.BuildItemRoundTrip | ftml/src/parsing/rule/impls/list.rs:149-152 | The same holds for one item. |
| ListRule.BuildListUniform | ftml/src/parsing/rule/impls/list.rs:148-157 | Every nested sub-list, at any depth, gets the outer list's type. |
| ListRule.ReadLine | ftml/src/parsing/rule/impls/list.rs:89-129 | A line is an entry exactly when it reads as optional whitespace, the marker, then whitespace. Its depth is the whitespace length, or 0. Its content and outcome are those of collecting from after the head. |
| ListRule.StopConsumesHeadOnly | ftml/src/parsing/rule/impls/list.rs:89-116 | A line that is not an entry is left after at most its leading whitespace and marker. It is left untouched when it starts with neither. The cursor stops exactly at `StopPoint`. |
| ListRule.StopPoint | ftml/src/parsing/rule/impls/list.rs:89-116 | The cursor of a line that is not an entry stops at most two tokens in, and inside the stream. |
| ListRule.ScanList | ftml/src/parsing/rule/impls/list.rs:88-134 | The loop only moves forward. Entries and warnings gathered earlier are kept as a prefix. |
| ListRule.ScanListAccumulates | ftml/src/parsing/rule/impls/list.rs:130-133 | What was gathered before does not change what is read after; it only comes first. |
| ListRule.ScanListLine | ftml/src/parsing/rule/impls/list.rs:119-133 | A fully read line adds exactly one `(depth, elements)` entry, and its warnings, in front of those of later lines. A collection failure ends the scan with its warning. |
| ListRule.FinishList | ftml/src/parsing/rule/impls/list.rs:136-145 | What follows the loop: a successful result is always a non-empty `List` element. |
| ListRule.ListOutcome | ftml/src/parsing/rule/impls/list.rs:61-146 | A successful outcome is a non-empty `List` element. |
| ListRule.ListOutcomeFailure | ftml/src/parsing/rule/impls/list.rs:119-139 | A collection failure propagates out of the rule unchanged. Otherwise the rule fails exactly when no entry was read, and then with a `RuleFailed` warning from the list rule. |
| ListRule.ListOutcomeSuccess | ftml/src/parsing/rule/impls/list.rs:141-145 | On success the element is a list of the marker's type at every level. Its entries read back as the lines' elements in source order, and the warnings are the lines' warnings in order. |
| ListRule.FirstLineNotEntry | ftml/src/parsing/rule/impls/list.rs:137-139 | When the first line is not an entry, for instance a marker without whitespace after it, the rule fails with `RuleFailed` where reading stopped. |
| ListRule.ParseOutlineExample | ftml/src/parsing/rule/impls/list.rs:84-145 | Any token stream that spells the lines `* a`, `* b`, `  * c`, `* d` gives a bullet list with entries a, b, a bullet sub-list holding c, and d, plus the four lines' warnings in order. |
| ListRule.ReadEntry | ftml/src/parsing/rule/impls/list.rs:89-133 | One turn of the loop on the parser gives `ReadLine`'s outcome and moves the cursor to where it says. |
| ListRule.ScanEntries | ftml/src/parsing/rule/impls/list.rs:84-134 | The loop on the parser computes `ScanList` from the cursor. On success the cursor ends where the scan stopped. |
| ListRule.ParseList | ftml/src/parsing/rule/impls/list.rs:61-146 | Stepping past the line start, reading entries until one fails the test, then nesting and building gives `ListOutcome`. The cursor only advances. |
| ListRule.ConsumeBulletList | ftml/src/parsing/rule/impls/list.rs:35-42 | The bullet-list rule is `parse_list` with the bullet marker. |
| ListRule.ConsumeNumberedList | ftml/src/parsing/rule/impls/list.rs:44-51 | The numbered-list rule is `parse_list` with the numbered marker. |

## Left out

- `render/text/context.rs` is not part of this model. The context helpers
  are given the meaning their calls in `elements.rs` rely on:
  - `add_newline` writes `\n` and then every prefix on the stack, bottom first;
  - `next_list_index` is one counter for the whole render: it returns the
    counter and then increments it;
  - the counter starts at 1, and the depth starts at 0.
- `tree/heading.rs` is not part of this model. A heading's prefix is
  assumed to be one `+` per level followed by a space.
- The host callbacks (`render_module`, `get_link_label`, `get_message`,
  `get_url`) and `is_url` are functions given as parameters. A module is
  modelled as appending the host's text for it. `get_link_label` is
  modelled as returning the label that is then written.
- Logging (`slog`) is left out. It has no effect on the output.
- The fields that the text renderer ignores are left out:
  - the fields of an anchor other than its elements and attributes
    (elements.rs:82);
  - link targets and attributes;
  - the extra fields of radio buttons and check boxes (elements.rs:128, 131);
  - iframe attributes;
  - the extra fields of collapsibles. The
  colour value of `Color` is kept in the tree, and the renderer does not
  write it.
- Integers are unbounded. `usize` overflow of the list index or depth is
  not modelled.
- `collect_consume` and the rule engine behind it are not part of this
  model. A line's content is what the `InlineParser` parameter makes of its
  tokens up to the line end.
- The source of `process_depths` is not part of this model.
  `Depth.ProcessDepths` is an assumption: it nests each line under the
  nearest earlier line that is less deep, so only the relative order of
  depths matters.
- A line's depth is the number of characters of its whitespace slice.
  list.rs:96 takes the byte length. The two agree because the whitespace
  is ASCII spaces only (list.rs:95).
- The `expect` panic of list.rs:67 and the `assert!` panic of list.rs:77-81
  are not modelled as panics. They become `requires` of `ListRule.ParseList`:
  the marker is a list marker, and the current token is the start of input
  or a line break.
- The end-of-input error of `parser.step()?` is not modelled. On a token
  stream that ends with its one `InputEnd`, the list rule never steps from
  `InputEnd`, which `Parsing.Parser.Step` requires.
- Some loops, loop bodies and match arms of the source are given as methods
  of their own. They are `RenderList`, `RenderItem`, `RenderContainer`,
  `RenderAnchor`, `RenderLeaf`, `RenderCollapsible`, `AddNewlines`,
  `RenderHorizontalRule`, `ReadEntry` and `ScanEntries`. The order of their
  steps is the source's.
- The HTML renderer, the tokenizer, the other parse rules, include
  expansion, the HTTP service and the deepwell server are not part of this
  model.
