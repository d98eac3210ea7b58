/**
 * The bullet-list and numbered-list rules (parsing/rule/impls/list.rs).
 *
 * A list is read line by line from a line start: optional leading
 * whitespace whose length is the line's depth, the list's marker token, one
 * whitespace token, then the line's inline content up to the line break.
 * The `(depth, elements)` pairs are nested by `Depth.ProcessDepths` and the
 * nesting is turned into a `List` element whose sub-lists all share the
 * list's type.
 *
 * `ListOutcome` and the functions under it say what the rule yields;
 * `ParseList` is the rule as it runs on a parser and is proved to yield it.
 */
module ListRule {
  import opened Wrappers
  import opened Tree
  import opened Parsing
  import Depth

  const BulletListRule := Rule("bullet-list")
  const NumberedListRule := Rule("numbered-list")

  predicate IsListMarker(t: Token)
  {
    t == BulletItem || t == NumberedItem
  }

  /** The rule and list type a marker token stands for; other tokens have none. */
  function GetListType(token: Token): (r: Option<(Rule, ListType)>)
    ensures r.Some? <==> IsListMarker(token)
  {
    match token
    case BulletItem => Some((BulletListRule, Bullet))
    case NumberedItem => Some((NumberedListRule, Numbered))
    case _ => None
  }

  /**
   * Only the two marker tokens have a list type, never `Generic`, and the
   * list type fixes both the marker and the rule: the bullet marker gives a
   * bullet list under the bullet-list rule, the numbered marker a numbered
   * list under the numbered-list rule.
   */
  lemma ListTypeOfMarker(a: Token, b: Token)
    requires GetListType(a).Some? && GetListType(b).Some?
    ensures GetListType(a).value.1 != Generic
    ensures GetListType(a).value.1 == GetListType(b).value.1 <==> a == b
    ensures GetListType(a).value.1 == GetListType(b).value.1 ==> GetListType(a).value.0 == GetListType(b).value.0
    ensures GetListType(a).value.0.name == if a == BulletItem then "bullet-list" else "numbered-list"
    ensures GetListType(BulletItem) == Some((BulletListRule, Bullet))
    ensures GetListType(NumberedItem) == Some((NumberedListRule, Numbered))
  {
  }

  // ---------------------------------------------------------------------
  // build_list_element

  /** The nested list of line contents that `process_depths` yields. */
  type DepthList = seq<Depth.DepthItem<seq<Element>>>

  /**
   * The `List` element for a nested list: one item per entry, in order; an
   * entry's elements become an `Elements` item and a nested list a `SubList`.
   */
  function BuildListElement(list: DepthList, ltype: ListType): (e: Element)
    decreases list
    ensures e.List? && e.ltype == ltype && |e.items| == |list|
    ensures forall i :: 0 <= i < |list| ==> (list[i].Item? <==> e.items[i].Elements?)
  {
    List(ltype, seq(|list|, i requires 0 <= i < |list| => BuildItem(list[i], ltype)))
  }

  function BuildItem(item: Depth.DepthItem<seq<Element>>, ltype: ListType): ListItem
    decreases item
  {
    match item
    case Item(elements) => Elements(elements)
    case List(sub) => SubList(BuildListElement(sub, ltype))
  }

  /** Reading a list's items back as a nested list of line contents. */
  function ItemsToDepths(items: seq<ListItem>): DepthList
    decreases items
  {
    seq(|items|, i requires 0 <= i < |items| => ItemToDepth(items[i]))
  }

  function ItemToDepth(item: ListItem): Depth.DepthItem<seq<Element>>
    decreases item
  {
    match item
    case Elements(elements) => Depth.Item(elements)
    case SubList(list) => Depth.List(if list.List? then ItemsToDepths(list.items) else [])
  }

  /** Building loses nothing: the nested list can be read back from the element. */
  lemma {:induction false} BuildListRoundTrip(list: DepthList, ltype: ListType)
    ensures ItemsToDepths(BuildListElement(list, ltype).items) == list
    decreases list
  {
    var e := BuildListElement(list, ltype);
    forall i | 0 <= i < |list|
      ensures ItemToDepth(e.items[i]) == list[i]
    {
      BuildItemRoundTrip(list[i], ltype);
    }
  }

  lemma {:induction false} BuildItemRoundTrip(item: Depth.DepthItem<seq<Element>>, ltype: ListType)
    ensures ItemToDepth(BuildItem(item, ltype)) == item
    decreases item
  {
    match item
    case Item(_) =>
    case List(sub) => BuildListRoundTrip(sub, ltype);
  }

  /** A list of type `ltype` whose sub-lists, at every level, are lists of type `ltype`. */
  ghost predicate Uniform(e: Element, ltype: ListType)
    decreases e
  {
    && e.List? && e.ltype == ltype
    && forall i :: 0 <= i < |e.items| && e.items[i].SubList? ==> Uniform(e.items[i].list, ltype)
  }

  /** Every nested sub-list gets the outer list's type. */
  lemma {:induction false} BuildListUniform(list: DepthList, ltype: ListType)
    ensures Uniform(BuildListElement(list, ltype), ltype)
    decreases list
  {
    var e := BuildListElement(list, ltype);
    forall i | 0 <= i < |e.items| && e.items[i].SubList?
      ensures Uniform(e.items[i].list, ltype)
    {
      assert e.items[i] == BuildItem(list[i], ltype);
      BuildListUniform(list[i].items, ltype);
    }
  }

  // ---------------------------------------------------------------------
  // Reading one line

  /**
   * The line at `pos` has a list entry's head: optional whitespace, the
   * marker, then whitespace.
   */
  predicate ItemHead(tokens: seq<ExtractedToken>, pos: nat, bullet: Token)
    requires ValidStream(tokens) && pos < |tokens| && IsListMarker(bullet)
  {
    if tokens[pos].token == Whitespace then tokens[pos + 1].token == bullet && tokens[pos + 2].token == Whitespace
    else tokens[pos].token == bullet && tokens[pos + 1].token == Whitespace
  }

  /** The depth of a line: the length of its leading whitespace, or 0 without one. */
  function HeadDepth(tokens: seq<ExtractedToken>, pos: nat): nat
    requires pos < |tokens|
  {
    if tokens[pos].token == Whitespace then |tokens[pos].slice| else 0
  }

  /** Where a line's inline content starts, after its head. */
  function ContentStart(tokens: seq<ExtractedToken>, pos: nat): nat
    requires pos < |tokens|
  {
    if tokens[pos].token == Whitespace then pos + 3 else pos + 2
  }

  /**
   * One turn of the loop: the line is not an entry and the loop stops with
   * the cursor at `at`; or it is, and its content was collected; or the
   * collection failed.
   */
  datatype LineStep =
    | Stop(at: nat)
    | Line(depth: nat, content: Collected)
    | Abort(warning: ParseWarning)

  function ReadLine(tokens: seq<ExtractedToken>, pos: nat, bullet: Token, rule: Rule, inline: InlineParser)
    : (r: LineStep)
    requires ValidStream(tokens) && pos < |tokens| && IsListMarker(bullet)
    ensures r.Stop? <==> !ItemHead(tokens, pos, bullet)
    ensures r.Stop? ==> pos <= r.at <= pos + 2 && r.at < |tokens|
    ensures r.Line? ==> r.depth == HeadDepth(tokens, pos)
    ensures r.Line? ==> CollectLine(tokens, ContentStart(tokens, pos), rule, inline) == Success(r.content)
    ensures r.Abort? ==> CollectLine(tokens, ContentStart(tokens, pos), rule, inline) == Failure(r.warning)
  {
    var t := tokens[pos];
    if t.token == Whitespace then AfterIndent(tokens, pos + 1, |t.slice|, bullet, rule, inline)
    else if t.token == bullet then AfterIndent(tokens, pos, 0, bullet, rule, inline)
    else Stop(pos)
  }

  /** The rest of a line after its indentation: marker, whitespace, content. */
  function AfterIndent(tokens: seq<ExtractedToken>, p: nat, depth: nat, bullet: Token, rule: Rule, inline: InlineParser)
    : LineStep
    requires ValidStream(tokens) && p < |tokens| && IsListMarker(bullet)
  {
    if tokens[p].token != bullet then Stop(p)
    else if tokens[p + 1].token != Whitespace then Stop(p + 1)
    else match CollectLine(tokens, p + 2, rule, inline)
      case Failure(w) => Abort(w)
      case Success(c) => Line(depth, c)
  }

  /**
   * A line that is not an entry is left after consuming at most its leading
   * whitespace and marker, and nothing when it starts with neither.  The
   * cursor stops on the first token of the head that does not fit: the
   * first token when it is neither whitespace nor the marker, the token
   * after the whitespace when it is not the marker, and the token after
   * the marker when it is not whitespace.
   */
  lemma StopConsumesHeadOnly(tokens: seq<ExtractedToken>, pos: nat, bullet: Token, rule: Rule, inline: InlineParser)
    requires ValidStream(tokens) && pos < |tokens| && IsListMarker(bullet)
    ensures var r := ReadLine(tokens, pos, bullet, rule, inline);
            && (r.Stop? ==> forall k :: pos <= k < r.at ==> tokens[k].token == Whitespace || tokens[k].token == bullet)
            && (r.Stop? && r.at == pos <==> tokens[pos].token != Whitespace && tokens[pos].token != bullet)
    ensures var r := ReadLine(tokens, pos, bullet, rule, inline);
            r.Stop? ==> r.at == StopPoint(tokens, pos, bullet)
  {
  }

  /** Where a line that is not an entry leaves the cursor: one past the head tokens that fit. */
  function StopPoint(tokens: seq<ExtractedToken>, pos: nat, bullet: Token): (at: nat)
    requires ValidStream(tokens) && pos < |tokens| && IsListMarker(bullet)
    ensures pos <= at <= pos + 2 && at < |tokens|
  {
    if tokens[pos].token == Whitespace then
      if tokens[pos + 1].token == bullet then pos + 2 else pos + 1
    else if tokens[pos].token == bullet then pos + 1
    else pos
  }

  // ---------------------------------------------------------------------
  // The loop

  /** What the loop has gathered when it stops: the entries, the warnings, and the cursor. */
  datatype ListScan = ListScan(depths: seq<(nat, seq<Element>)>, exceptions: seq<ParseWarning>, end: nat)

  /**
   * Reading lines from `pos` with `depths` and `exceptions` gathered so far,
   * until a line is not an entry or a collection fails.
   */
  function ScanList(tokens: seq<ExtractedToken>, pos: nat, bullet: Token, rule: Rule, inline: InlineParser,
                    depths: seq<(nat, seq<Element>)>, exceptions: seq<ParseWarning>)
    : (r: Result<ListScan, ParseWarning>)
    requires ValidStream(tokens) && pos < |tokens| && IsListMarker(bullet)
    ensures r.Success? ==> pos <= r.value.end < |tokens|
    ensures r.Success? ==> depths <= r.value.depths && exceptions <= r.value.exceptions
    decreases |tokens| - pos
  {
    match ReadLine(tokens, pos, bullet, rule, inline)
    case Stop(at) => Success(ListScan(depths, exceptions, at))
    case Abort(w) => Failure(w)
    case Line(depth, c) =>
      ScanList(tokens, c.next, bullet, rule, inline, depths + [(depth, c.elements)], exceptions + c.warnings)
  }

  /** How the scan goes on after one turn of the loop that yielded `step`. */
  function Resume(tokens: seq<ExtractedToken>, step: LineStep, bullet: Token, rule: Rule, inline: InlineParser,
                  depths: seq<(nat, seq<Element>)>, exceptions: seq<ParseWarning>)
    : Result<ListScan, ParseWarning>
    requires ValidStream(tokens) && IsListMarker(bullet)
    requires step.Line? ==> step.content.next < |tokens|
  {
    match step
    case Stop(at) => Success(ListScan(depths, exceptions, at))
    case Abort(w) => Failure(w)
    case Line(depth, c) =>
      ScanList(tokens, c.next, bullet, rule, inline, depths + [(depth, c.elements)], exceptions + c.warnings)
  }

  lemma ScanListResume(tokens: seq<ExtractedToken>, pos: nat, bullet: Token, rule: Rule, inline: InlineParser,
                       depths: seq<(nat, seq<Element>)>, exceptions: seq<ParseWarning>)
    requires ValidStream(tokens) && pos < |tokens| && IsListMarker(bullet)
    ensures ScanList(tokens, pos, bullet, rule, inline, depths, exceptions)
         == Resume(tokens, ReadLine(tokens, pos, bullet, rule, inline), bullet, rule, inline, depths, exceptions)
  {
  }

  /** A scan result with `depths` and `exceptions` put in front of what it gathered. */
  function Prepend(r: Result<ListScan, ParseWarning>, depths: seq<(nat, seq<Element>)>, exceptions: seq<ParseWarning>)
    : Result<ListScan, ParseWarning>
  {
    match r
    case Failure(w) => Failure(w)
    case Success(s) => Success(ListScan(depths + s.depths, exceptions + s.exceptions, s.end))
  }

  /** What was gathered before only ever comes first: it does not change what is read after. */
  lemma PrependTwice(r: Result<ListScan, ParseWarning>, d1: seq<(nat, seq<Element>)>, e1: seq<ParseWarning>,
                     d2: seq<(nat, seq<Element>)>, e2: seq<ParseWarning>)
    ensures Prepend(Prepend(r, d2, e2), d1, e1) == Prepend(r, d1 + d2, e1 + e2)
  {
    if r.Success? {
      assert d1 + (d2 + r.value.depths) == d1 + d2 + r.value.depths;
      assert e1 + (e2 + r.value.exceptions) == e1 + e2 + r.value.exceptions;
    }
  }

  /** What was gathered before only ever comes first: it does not change what is read after. */
  lemma {:induction false} ScanListAccumulates(tokens: seq<ExtractedToken>, pos: nat, bullet: Token, rule: Rule,
                                               inline: InlineParser, depths: seq<(nat, seq<Element>)>,
                                               exceptions: seq<ParseWarning>)
    requires ValidStream(tokens) && pos < |tokens| && IsListMarker(bullet)
    ensures ScanList(tokens, pos, bullet, rule, inline, depths, exceptions)
         == Prepend(ScanList(tokens, pos, bullet, rule, inline, [], []), depths, exceptions)
    decreases |tokens| - pos
  {
    var step := ReadLine(tokens, pos, bullet, rule, inline);
    if step.Stop? {
      assert depths + [] == depths && exceptions + [] == exceptions;
    } else if step.Line? {
      var c := step.content;
      var entry := [(step.depth, c.elements)];
      var rest := ScanList(tokens, c.next, bullet, rule, inline, [], []);
      assert ScanList(tokens, pos, bullet, rule, inline, depths, exceptions)
          == ScanList(tokens, c.next, bullet, rule, inline, depths + entry, exceptions + c.warnings);
      assert [] + entry == entry && [] + c.warnings == c.warnings;
      assert ScanList(tokens, pos, bullet, rule, inline, [], [])
          == ScanList(tokens, c.next, bullet, rule, inline, entry, c.warnings);
      ScanListAccumulates(tokens, c.next, bullet, rule, inline, depths + entry, exceptions + c.warnings);
      ScanListAccumulates(tokens, c.next, bullet, rule, inline, entry, c.warnings);
      PrependTwice(rest, depths, exceptions, entry, c.warnings);
    }
  }

  /**
   * A fully read line adds exactly one entry, its depth and elements, in
   * front of those of the lines after it, and its warnings in front of
   * theirs; a collection failure ends the whole scan with its warning.
   */
  lemma ScanListLine(tokens: seq<ExtractedToken>, pos: nat, bullet: Token, rule: Rule, inline: InlineParser)
    requires ValidStream(tokens) && pos < |tokens| && IsListMarker(bullet)
    ensures var step := ReadLine(tokens, pos, bullet, rule, inline);
            var scan := ScanList(tokens, pos, bullet, rule, inline, [], []);
            && (step.Stop? ==> scan == Success(ListScan([], [], step.at)))
            && (step.Abort? ==> scan == Failure(step.warning))
            && (step.Line? ==> scan == Prepend(ScanList(tokens, step.content.next, bullet, rule, inline, [], []),
                                               [(step.depth, step.content.elements)], step.content.warnings))
  {
    var step := ReadLine(tokens, pos, bullet, rule, inline);
    if step.Line? {
      assert [] + [(step.depth, step.content.elements)] == [(step.depth, step.content.elements)];
      assert [] + step.content.warnings == step.content.warnings;
      ScanListAccumulates(tokens, step.content.next, bullet, rule, inline,
                          [(step.depth, step.content.elements)], step.content.warnings);
    }
  }

  // ---------------------------------------------------------------------
  // The rule

  /**
   * What `parse_list` makes of the scan: the scan's warning if a line failed,
   * `RuleFailed` at the stopping token if no line was read, and otherwise
   * the nested list with the warnings of its lines.
   */
  function FinishList(tokens: seq<ExtractedToken>, rule: Rule, ltype: ListType,
                      scan: Result<ListScan, ParseWarning>)
    : (r: Result<(Element, seq<ParseWarning>), ParseWarning>)
    requires scan.Success? ==> scan.value.end < |tokens|
    ensures r.Success? ==> r.value.0.List? && r.value.0.items != []
  {
    match scan
    case Failure(w) => Failure(w)
    case Success(s) =>
      if s.depths == [] then Failure(Warn(tokens[s.end], rule, RuleFailed))
      else Success((BuildListElement(Depth.ProcessDepths(s.depths), ltype), s.exceptions))
  }

  /**
   * What the rule yields when started on the line start at `start`: the
   * list element and the warnings of its lines, or the warning it fails with.
   */
  function ListOutcome(tokens: seq<ExtractedToken>, start: nat, bullet: Token, inline: InlineParser)
    : (r: Result<(Element, seq<ParseWarning>), ParseWarning>)
    requires ValidStream(tokens) && start < |tokens| && IsListMarker(bullet)
    requires tokens[start].token == InputStart || tokens[start].token == Token.LineBreak
    ensures r.Success? ==> r.value.0.List? && r.value.0.items != []
  {
    var (rule, ltype) := GetListType(bullet).value;
    FinishList(tokens, rule, ltype, ScanList(tokens, start + 1, bullet, rule, inline, [], []))
  }

  /**
   * The rule fails exactly when a line's collection fails, with that
   * collection's warning, or when no line was read, with `RuleFailed` from
   * the rule itself.
   */
  lemma ListOutcomeFailure(tokens: seq<ExtractedToken>, start: nat, bullet: Token, inline: InlineParser)
    requires ValidStream(tokens) && start < |tokens| && IsListMarker(bullet)
    requires tokens[start].token == InputStart || tokens[start].token == Token.LineBreak
    ensures var rule := GetListType(bullet).value.0;
            var scan := ScanList(tokens, start + 1, bullet, rule, inline, [], []);
            var r := ListOutcome(tokens, start, bullet, inline);
            && (scan.Failure? ==> r == Failure(scan.error))
            && (scan.Success? ==> (r.Failure? <==> scan.value.depths == []))
            && (scan.Success? && r.Failure? ==> r.error.kind == RuleFailed && r.error.rule == rule.name)
  {
  }

  /**
   * On success the element is a list of the marker's type all the way
   * down, reading its entries back gives every line's elements in source
   * order, and the warnings are those of the lines, in order.
   */
  lemma ListOutcomeSuccess(tokens: seq<ExtractedToken>, start: nat, bullet: Token, inline: InlineParser)
    requires ValidStream(tokens) && start < |tokens| && IsListMarker(bullet)
    requires tokens[start].token == InputStart || tokens[start].token == Token.LineBreak
    requires ListOutcome(tokens, start, bullet, inline).Success?
    ensures var (rule, ltype) := GetListType(bullet).value;
            var scan := ScanList(tokens, start + 1, bullet, rule, inline, [], []).value;
            var (e, warnings) := ListOutcome(tokens, start, bullet, inline).value;
            && Uniform(e, ltype)
            && Depth.Flatten(ItemsToDepths(e.items)) == Depth.Payloads(scan.depths)
            && warnings == scan.exceptions
  {
    var (rule, ltype) := GetListType(bullet).value;
    var scan := ScanList(tokens, start + 1, bullet, rule, inline, [], []).value;
    var list := Depth.ProcessDepths(scan.depths);
    BuildListUniform(list, ltype);
    BuildListRoundTrip(list, ltype);
    Depth.ProcessDepthsKeepsOrder(scan.depths);
  }

  /**
   * When the first line is not an entry (for instance a marker with no
   * whitespace after it), the rule fails with `RuleFailed` at the token
   * where reading stopped.
   */
  lemma FirstLineNotEntry(tokens: seq<ExtractedToken>, start: nat, bullet: Token, inline: InlineParser)
    requires ValidStream(tokens) && start < |tokens| && IsListMarker(bullet)
    requires tokens[start].token == InputStart || tokens[start].token == Token.LineBreak
    requires !ItemHead(tokens, start + 1, bullet)
    ensures var rule := GetListType(bullet).value.0;
            ListOutcome(tokens, start, bullet, inline)
              == Failure(Warn(tokens[ReadLine(tokens, start + 1, bullet, rule, inline).at], rule, RuleFailed))
  {
  }

  /** One entry line read: its entry and warnings are appended and the scan goes on after it. */
  lemma ScanStep(tokens: seq<ExtractedToken>, pos: nat, bullet: Token, rule: Rule, inline: InlineParser,
                 depths: seq<(nat, seq<Element>)>, exceptions: seq<ParseWarning>)
    requires ValidStream(tokens) && pos < |tokens| && IsListMarker(bullet)
    requires ReadLine(tokens, pos, bullet, rule, inline).Line?
    ensures var step := ReadLine(tokens, pos, bullet, rule, inline);
            ScanList(tokens, pos, bullet, rule, inline, depths, exceptions)
              == ScanList(tokens, step.content.next, bullet, rule, inline,
                          depths + [(step.depth, step.content.elements)], exceptions + step.content.warnings)
  {
  }

  /** A line of one content token after `*` and whitespace, at depth 0. */
  lemma PlainEntryLine(tokens: seq<ExtractedToken>, pos: nat, bullet: Token, rule: Rule, inline: InlineParser)
    requires ValidStream(tokens) && pos + 3 < |tokens| && IsListMarker(bullet)
    requires tokens[pos].token == bullet && tokens[pos + 1].token == Whitespace
    requires !EndsLine(tokens[pos + 2].token)
    requires tokens[pos + 3].token == Token.LineBreak || tokens[pos + 3].token == InputEnd
    ensures var (es, ws) := inline(tokens[pos + 2..pos + 3]);
            var next := if tokens[pos + 3].token == Token.LineBreak then pos + 4 else pos + 3;
            ReadLine(tokens, pos, bullet, rule, inline) == Line(0, Collected(es, ws, next))
  {
    LineEndUnique(tokens, pos + 2, pos + 3);
  }

  /** A line of one content token after indentation, `*` and whitespace, at the indentation's depth. */
  lemma IndentedEntryLine(tokens: seq<ExtractedToken>, pos: nat, bullet: Token, rule: Rule, inline: InlineParser)
    requires ValidStream(tokens) && pos + 4 < |tokens| && IsListMarker(bullet)
    requires tokens[pos].token == Whitespace && tokens[pos + 1].token == bullet && tokens[pos + 2].token == Whitespace
    requires !EndsLine(tokens[pos + 3].token)
    requires tokens[pos + 4].token == Token.LineBreak || tokens[pos + 4].token == InputEnd
    ensures var (es, ws) := inline(tokens[pos + 3..pos + 4]);
            var next := if tokens[pos + 4].token == Token.LineBreak then pos + 5 else pos + 4;
            ReadLine(tokens, pos, bullet, rule, inline) == Line(|tokens[pos].slice|, Collected(es, ws, next))
  {
    LineEndUnique(tokens, pos + 3, pos + 4);
  }

  /**
   * A token stream for the four lines `* a`, `* b`, `  * c` and `* d`: the
   * token kinds in order, with the third line indented by two spaces.
   */
  ghost predicate OutlineShape(tokens: seq<ExtractedToken>)
  {
    && |tokens| == 18
    && tokens[0].token == InputStart
    && tokens[1].token == BulletItem && tokens[2].token == Whitespace
    && tokens[3].token == Identifier && tokens[4].token == Token.LineBreak
    && tokens[5].token == BulletItem && tokens[6].token == Whitespace
    && tokens[7].token == Identifier && tokens[8].token == Token.LineBreak
    && tokens[9].token == Whitespace && |tokens[9].slice| == 2
    && tokens[10].token == BulletItem && tokens[11].token == Whitespace
    && tokens[12].token == Identifier && tokens[13].token == Token.LineBreak
    && tokens[14].token == BulletItem && tokens[15].token == Whitespace
    && tokens[16].token == Identifier && tokens[17].token == InputEnd
  }

  lemma OutlineValid(tokens: seq<ExtractedToken>)
    requires OutlineShape(tokens)
    ensures ValidStream(tokens)
  {
    forall i | 0 <= i < |tokens| - 1
      ensures tokens[i].token != InputEnd
    {
      assert i in {0, 1, 2, 3, 4, 5, 6, 7, 8, 9, 10, 11, 12, 13, 14, 15, 16};
    }
  }

  /** How each line of the outline reads: four entries, then the end of input. */
  lemma OutlineEntries(tokens: seq<ExtractedToken>, inline: InlineParser)
    requires OutlineShape(tokens)
    ensures ValidStream(tokens)
    ensures var rule := BulletListRule;
            && ReadLine(tokens, 1, BulletItem, rule, inline) == Line(0, Collected(inline(tokens[3..4]).0, inline(tokens[3..4]).1, 5))
            && ReadLine(tokens, 5, BulletItem, rule, inline) == Line(0, Collected(inline(tokens[7..8]).0, inline(tokens[7..8]).1, 9))
            && ReadLine(tokens, 9, BulletItem, rule, inline) == Line(2, Collected(inline(tokens[12..13]).0, inline(tokens[12..13]).1, 14))
            && ReadLine(tokens, 14, BulletItem, rule, inline) == Line(0, Collected(inline(tokens[16..17]).0, inline(tokens[16..17]).1, 17))
            && ReadLine(tokens, 17, BulletItem, rule, inline) == Stop(17)
  {
    var rule := BulletListRule;
    OutlineValid(tokens);
    PlainEntryLine(tokens, 1, BulletItem, rule, inline);
    PlainEntryLine(tokens, 5, BulletItem, rule, inline);
    IndentedEntryLine(tokens, 9, BulletItem, rule, inline);
    PlainEntryLine(tokens, 14, BulletItem, rule, inline);
  }

  lemma OutlineLines(tokens: seq<ExtractedToken>, inline: InlineParser)
    requires OutlineShape(tokens)
    ensures ValidStream(tokens)
    ensures var (a, wa) := inline(tokens[3..4]);
            var (b, wb) := inline(tokens[7..8]);
            var (c, wc) := inline(tokens[12..13]);
            var (d, wd) := inline(tokens[16..17]);
            ScanList(tokens, 1, BulletItem, BulletListRule, inline, [], [])
              == Success(ListScan([(0, a), (0, b), (2, c), (0, d)], wa + wb + wc + wd, 17))
  {
    var rule := BulletListRule;
    OutlineEntries(tokens, inline);
    var (a, wa) := inline(tokens[3..4]);
    var (b, wb) := inline(tokens[7..8]);
    var (c, wc) := inline(tokens[12..13]);
    var (d, wd) := inline(tokens[16..17]);
    ScanStep(tokens, 1, BulletItem, rule, inline, [], []);
    ScanStep(tokens, 5, BulletItem, rule, inline, [(0, a)], wa);
    ScanStep(tokens, 9, BulletItem, rule, inline, [(0, a)] + [(0, b)], wa + wb);
    ScanStep(tokens, 14, BulletItem, rule, inline, [(0, a)] + [(0, b)] + [(2, c)], wa + wb + wc);
    assert [] + [(0, a)] == [(0, a)] && [] + wa == wa;
    assert [(0, a)] + [(0, b)] + [(2, c)] + [(0, d)] == [(0, a), (0, b), (2, c), (0, d)];
  }

  lemma OutlineNesting(a: seq<Element>, b: seq<Element>, c: seq<Element>, d: seq<Element>)
    ensures Depth.ProcessDepths([(0, a), (0, b), (2, c), (0, d)])
         == [Depth.Item(a), Depth.Item(b), Depth.List([Depth.Item(c)]), Depth.Item(d)]
  {
    var lines: seq<(nat, seq<Element>)> := [(0, a), (0, b), (2, c), (0, d)];
    assert Depth.RunEnd(lines, 1, 0) == 1;
    assert lines[1..1] == [];
    var rest := lines[1..];
    assert rest == [(0, b), (2, c), (0, d)];
    assert Depth.RunEnd(rest, 1, 0) == 2 by {
      assert Depth.RunEnd(rest, 2, 0) == 2;
    }
    assert rest[1..2] == [(2, c)];
    assert Depth.ProcessDepths(rest[1..2]) == [Depth.Item(c)] by {
      var inner := rest[1..2];
      assert Depth.RunEnd(inner, 1, 2) == 1;
      assert inner[1..1] == [] && inner[1..] == [];
    }
    var last := rest[2..];
    assert last == [(0, d)];
    assert Depth.ProcessDepths(last) == [Depth.Item(d)] by {
      assert Depth.RunEnd(last, 1, 0) == 1;
      assert last[1..1] == [] && last[1..] == [];
    }
  }

  /**
   * The lines `* a`, `* b`, `  * c`, `* d` make a bullet list with entries
   * `a`, `b`, a bullet sub-list holding `c`, then `d`; the warnings of the
   * four lines come back in order.
   */
  lemma ParseOutlineExample(tokens: seq<ExtractedToken>, inline: InlineParser)
    requires OutlineShape(tokens)
    ensures ValidStream(tokens)
    ensures var (a, wa) := inline(tokens[3..4]);
            var (b, wb) := inline(tokens[7..8]);
            var (c, wc) := inline(tokens[12..13]);
            var (d, wd) := inline(tokens[16..17]);
            ListOutcome(tokens, 0, BulletItem, inline)
              == Success((List(Bullet, [Elements(a), Elements(b), SubList(List(Bullet, [Elements(c)])), Elements(d)]),
                          wa + wb + wc + wd))
  {
    OutlineLines(tokens, inline);
    var (a, wa) := inline(tokens[3..4]);
    var (b, wb) := inline(tokens[7..8]);
    var (c, wc) := inline(tokens[12..13]);
    var (d, wd) := inline(tokens[16..17]);
    OutlineNesting(a, b, c, d);
    OutlineBuild(a, b, c, d);
    var lines: seq<(nat, seq<Element>)> := [(0, a), (0, b), (2, c), (0, d)];
    assert ListOutcome(tokens, 0, BulletItem, inline)
        == Success((BuildListElement(Depth.ProcessDepths(lines), Bullet), wa + wb + wc + wd));
  }

  lemma OutlineBuild(a: seq<Element>, b: seq<Element>, c: seq<Element>, d: seq<Element>)
    ensures BuildListElement([Depth.Item(a), Depth.Item(b), Depth.List([Depth.Item(c)]), Depth.Item(d)], Bullet)
         == List(Bullet, [Elements(a), Elements(b), SubList(List(Bullet, [Elements(c)])), Elements(d)])
  {
    var inner: DepthList := [Depth.Item(c)];
    assert BuildListElement(inner, Bullet) == List(Bullet, [Elements(c)]);
    var outer: DepthList := [Depth.Item(a), Depth.Item(b), Depth.List(inner), Depth.Item(d)];
    assert BuildItem(outer[2], Bullet) == SubList(List(Bullet, [Elements(c)]));
  }

  // ---------------------------------------------------------------------
  // The rule on a parser

  /**
   * The body of the loop in `parse_list` for one line: reads the
   * indentation, the marker and the whitespace, stopping at the first that
   * is missing, then collects the line's content.
   */
  method ReadEntry(parser: Parser, bullet: Token, rule: Rule, inline: InlineParser) returns (step: LineStep)
    requires parser.Valid() && IsListMarker(bullet)
    modifies parser
    ensures parser.Valid() && old(parser.cursor) <= parser.cursor
    ensures step == ReadLine(parser.tokens, old(parser.cursor), bullet, rule, inline)
    ensures step.Stop? ==> parser.cursor == step.at
    ensures step.Line? ==> parser.cursor == step.content.next && old(parser.cursor) < parser.cursor
  {
    var depth: nat;
    if parser.Current().token == Whitespace {
      depth := |parser.Current().slice|;
      parser.Step();
    } else if parser.Current().token == bullet {
      depth := 0;
    } else {
      return Stop(parser.cursor);
    }

    if parser.Current().token != bullet {
      return Stop(parser.cursor);
    }
    parser.Step();

    if parser.Current().token != Whitespace {
      return Stop(parser.cursor);
    }
    parser.Step();

    var collected := CollectConsume(parser, rule, inline);
    if collected.Failure? {
      return Abort(collected.error);
    }
    return Line(depth, collected.value);
  }

  /**
   * The loop of `parse_list`: reads entry lines until one is not an entry,
   * or until a line's collection fails.
   */
  method ScanEntries(parser: Parser, bullet: Token, rule: Rule, inline: InlineParser)
    returns (scan: Result<ListScan, ParseWarning>)
    requires parser.Valid() && IsListMarker(bullet)
    modifies parser
    ensures parser.Valid() && old(parser.cursor) <= parser.cursor
    ensures scan == ScanList(parser.tokens, old(parser.cursor), bullet, rule, inline, [], [])
    ensures scan.Success? ==> parser.cursor == scan.value.end
  {
    ghost var start := parser.cursor;
    var depths: seq<(nat, seq<Element>)> := [];
    var exceptions: seq<ParseWarning> := [];
    var step := ReadEntry(parser, bullet, rule, inline);
    ScanListResume(parser.tokens, start, bullet, rule, inline, depths, exceptions);
    while step.Line?
      invariant parser.Valid() && start <= parser.cursor
      invariant step.Stop? ==> parser.cursor == step.at
      invariant step.Line? ==> parser.cursor == step.content.next
      invariant ScanList(parser.tokens, start, bullet, rule, inline, [], [])
             == Resume(parser.tokens, step, bullet, rule, inline, depths, exceptions)
      decreases |parser.tokens| - parser.cursor + (if step.Line? then 1 else 0)
    {
      depths := depths + [(step.depth, step.content.elements)];
      exceptions := exceptions + step.content.warnings;
      ghost var pos := parser.cursor;
      step := ReadEntry(parser, bullet, rule, inline);
      ScanListResume(parser.tokens, pos, bullet, rule, inline, depths, exceptions);
    }

    if step.Abort? {
      return Failure(step.warning);
    }
    return Success(ListScan(depths, exceptions, parser.cursor));
  }

  /**
   * `parse_list`: steps past the line start, reads entry lines while they
   * come, then nests them and builds the list.
   */
  method ParseList(parser: Parser, bullet: Token, inline: InlineParser)
    returns (r: Result<(Element, seq<ParseWarning>), ParseWarning>)
    requires parser.Valid() && IsListMarker(bullet)
    requires parser.Current().token == InputStart || parser.Current().token == Token.LineBreak
    modifies parser
    ensures parser.Valid() && old(parser.cursor) < parser.cursor
    ensures r == ListOutcome(parser.tokens, old(parser.cursor), bullet, inline)
    ensures var scan := ScanList(parser.tokens, old(parser.cursor) + 1, bullet,
                                 GetListType(bullet).value.0, inline, [], []);
            scan.Success? ==> parser.cursor == scan.value.end
  {
    var (rule, ltype) := GetListType(bullet).value;
    ghost var start := parser.cursor;
    parser.Step();

    var scan := ScanEntries(parser, bullet, rule, inline);
    if scan.Failure? {
      r := Failure(scan.error);
    } else if scan.value.depths == [] {
      r := Failure(parser.MakeWarn(rule, RuleFailed));
    } else {
      var list := Depth.ProcessDepths(scan.value.depths);
      r := Success((BuildListElement(list, ltype), scan.value.exceptions));
    }
  }

  /** The bullet-list rule's entry point. */
  method ConsumeBulletList(parser: Parser, inline: InlineParser) returns (r: Result<(Element, seq<ParseWarning>), ParseWarning>)
    requires parser.Valid()
    requires parser.Current().token == InputStart || parser.Current().token == Token.LineBreak
    modifies parser
    ensures parser.Valid() && old(parser.cursor) < parser.cursor
    ensures r == ListOutcome(parser.tokens, old(parser.cursor), BulletItem, inline)
  {
    r := ParseList(parser, BulletItem, inline);
  }

  /** The numbered-list rule's entry point. */
  method ConsumeNumberedList(parser: Parser, inline: InlineParser) returns (r: Result<(Element, seq<ParseWarning>), ParseWarning>)
    requires parser.Valid()
    requires parser.Current().token == InputStart || parser.Current().token == Token.LineBreak
    modifies parser
    ensures parser.Valid() && old(parser.cursor) < parser.cursor
    ensures r == ListOutcome(parser.tokens, old(parser.cursor), NumberedItem, inline)
  {
    r := ParseList(parser, NumberedItem, inline);
  }
}
