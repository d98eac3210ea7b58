/**
 * What the list rule needs of the parser: tokens with their kinds and
 * slices, parse warnings, a parser object holding a cursor into the token
 * stream, and `collect_consume`, which gathers a line's inline content.
 */
module Parsing {
  import opened Wrappers
  import opened Tree

  /** The token kinds the list rule looks at, and a catch-all for the rest. */
  datatype Token =
    | InputStart | InputEnd
    | LineBreak | ParagraphBreak | Whitespace
    | BulletItem | NumberedItem
    | Identifier | Other

  /** A token with the source text it covers and its byte span. */
  datatype ExtractedToken = ExtractedToken(token: Token, slice: string, span: (nat, nat))

  datatype ParseWarningKind = RuleFailed

  datatype Rule = Rule(name: string)

  /** A non-fatal parse failure, located at a token and tagged with the rule that raised it. */
  datatype ParseWarning = ParseWarning(token: Token, rule: string, span: (nat, nat), kind: ParseWarningKind)

  function Warn(at: ExtractedToken, rule: Rule, kind: ParseWarningKind): ParseWarning
  {
    ParseWarning(at.token, rule.name, at.span, kind)
  }

  /** A token stream ends with its one `InputEnd` token. */
  ghost predicate ValidStream(tokens: seq<ExtractedToken>)
  {
    && 0 < |tokens|
    && tokens[|tokens| - 1].token == InputEnd
    && forall i :: 0 <= i < |tokens| - 1 ==> tokens[i].token != InputEnd
  }

  /**
   * The parser holds the token stream and a cursor on the current token.
   * The cursor only moves forward.
   */
  class Parser {
    const tokens: seq<ExtractedToken>
    var cursor: nat

    ghost predicate Valid()
      reads this
    {
      ValidStream(tokens) && cursor < |tokens|
    }

    constructor (tokens: seq<ExtractedToken>)
      requires ValidStream(tokens)
      ensures Valid() && this.tokens == tokens && cursor == 0
    {
      this.tokens := tokens;
      cursor := 0;
    }

    function Current(): ExtractedToken
      reads this
      requires Valid()
    {
      tokens[cursor]
    }

    /** Moves to the next token; there is one, as only `InputEnd` is last. */
    method Step()
      requires Valid() && Current().token != InputEnd
      modifies this
      ensures Valid() && cursor == old(cursor) + 1
    {
      cursor := cursor + 1;
    }

    /** A warning of the given kind at the current token. */
    function MakeWarn(rule: Rule, kind: ParseWarningKind): ParseWarning
      reads this
      requires Valid()
    {
      Warn(Current(), rule, kind)
    }
  }

  // ---------------------------------------------------------------------
  // collect_consume, as the list rule uses it

  /**
   * The rules that turn a line's tokens into elements, with the warnings they
   * raise. They are not part of this model, so they are a parameter.
   */
  type InlineParser = seq<ExtractedToken> -> (seq<Element>, seq<ParseWarning>)

  /** Tokens that end the inline content of a list line. */
  predicate EndsLine(t: Token)
  {
    t == Token.LineBreak || t == InputEnd || t == ParagraphBreak
  }

  /** The first token at or after `pos` that ends the line. */
  function LineEnd(tokens: seq<ExtractedToken>, pos: nat): (j: nat)
    requires ValidStream(tokens) && pos < |tokens|
    ensures pos <= j < |tokens| && EndsLine(tokens[j].token)
    ensures forall k :: pos <= k < j ==> !EndsLine(tokens[k].token)
    decreases |tokens| - pos
  {
    if EndsLine(tokens[pos].token) then pos else LineEnd(tokens, pos + 1)
  }

  lemma {:induction false} LineEndUnique(tokens: seq<ExtractedToken>, pos: nat, j: nat)
    requires ValidStream(tokens) && pos <= j < |tokens| && EndsLine(tokens[j].token)
    requires forall k :: pos <= k < j ==> !EndsLine(tokens[k].token)
    ensures LineEnd(tokens, pos) == j
    decreases j - pos
  {
    if pos < j {
      LineEndUnique(tokens, pos + 1, j);
    }
  }

  /** What a successful collection yields: elements, warnings, and where the cursor ends up. */
  datatype Collected = Collected(elements: seq<Element>, warnings: seq<ParseWarning>, next: nat)

  /**
   * Collecting a line's content from `pos`: everything up to the first line
   * break, paragraph break or end of input.  A paragraph break fails the
   * collection; a line break is stepped over; the end of input is kept.
   */
  function CollectLine(tokens: seq<ExtractedToken>, pos: nat, rule: Rule, inline: InlineParser)
    : (r: Result<Collected, ParseWarning>)
    requires ValidStream(tokens) && pos < |tokens|
    ensures r.Failure? <==> tokens[LineEnd(tokens, pos)].token == ParagraphBreak
    ensures r.Failure? ==> r.error == Warn(tokens[LineEnd(tokens, pos)], rule, RuleFailed)
    ensures r.Success? ==>
              r.value.next == (if tokens[LineEnd(tokens, pos)].token == Token.LineBreak then LineEnd(tokens, pos) + 1
                               else LineEnd(tokens, pos))
    ensures r.Success? ==> LineEnd(tokens, pos) <= r.value.next < |tokens|
    ensures r.Success? ==> (r.value.elements, r.value.warnings) == inline(tokens[pos..LineEnd(tokens, pos)])
  {
    var j := LineEnd(tokens, pos);
    var stop := tokens[j];
    if stop.token == ParagraphBreak then Failure(Warn(stop, rule, RuleFailed))
    else
      var (elements, warnings) := inline(tokens[pos..j]);
      Success(Collected(elements, warnings, if stop.token == Token.LineBreak then j + 1 else j))
  }

  /** `collect_consume` with a line break and the end of input as its stops and a paragraph break as its exception. */
  method CollectConsume(parser: Parser, rule: Rule, inline: InlineParser) returns (r: Result<Collected, ParseWarning>)
    requires parser.Valid()
    modifies parser
    ensures parser.Valid() && old(parser.cursor) <= parser.cursor
    ensures r == CollectLine(parser.tokens, old(parser.cursor), rule, inline)
    ensures r.Success? ==> parser.cursor == r.value.next
  {
    var start := parser.cursor;
    while !EndsLine(parser.Current().token)
      invariant parser.Valid() && start <= parser.cursor
      invariant forall k :: start <= k < parser.cursor ==> !EndsLine(parser.tokens[k].token)
      decreases |parser.tokens| - parser.cursor
    {
      parser.Step();
    }
    LineEndUnique(parser.tokens, start, parser.cursor);
    var stop := parser.Current();
    if stop.token == ParagraphBreak {
      return Failure(parser.MakeWarn(rule, RuleFailed));
    }
    var (elements, warnings) := inline(parser.tokens[start..parser.cursor]);
    if stop.token == Token.LineBreak {
      parser.Step();
    }
    return Success(Collected(elements, warnings, parser.cursor));
  }
}
