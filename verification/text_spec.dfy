/**
 * What the plain-text renderer (render/text/elements.rs) does, as functions
 * from one rendering state to the next.  The class `TextContext` in
 * text_context.dfy performs the same steps in place and is proved equal to
 * these functions; the properties of the renderer are proved about them here
 * and in text_properties.dfy.
 */
module TextSpec {
  import opened Wrappers
  import opened Tree

  /**
   * The host callbacks the renderer calls into, and the URL classifier.
   * Their implementations are outside the model, so they are parameters.
   */
  datatype Host = Host(
    renderModule: ModuleDesc -> string,         // text a module renders to
    linkLabel: (string, LinkLabel) -> string,   // label chosen for a link
    getMessage: (string, string) -> string,     // (locale, key) to message
    getUrl: string -> string,                   // site name to base URL
    isUrl: string -> bool)                      // is the string an absolute URL

  datatype PageInfo = PageInfo(site: string, locale: string)

  /** Everything a render reads but never changes. */
  datatype Env = Env(host: Host, info: PageInfo)

  /** The mutable part of a text render: output buffer, prefix stack and list counters. */
  datatype TextState = TextState(output: string, prefixes: seq<string>, listDepth: nat, listIndex: nat)

  /** The state a render starts in. */
  const Initial := TextState([], [], 0, 1)

  // ---------------------------------------------------------------------
  // Primitive steps of the context

  /** The prefixes of the stack, bottom first, written one after the other. */
  function Concat(ps: seq<string>): string
  {
    if ps == [] then [] else Concat(ps[..|ps| - 1]) + ps[|ps| - 1]
  }

  /** What one `add_newline` writes: a line break, then every active prefix. */
  function Newline(prefixes: seq<string>): string
  {
    "\n" + Concat(prefixes)
  }

  function AddNewline(st: TextState): TextState
  {
    st.(output := st.output + Newline(st.prefixes))
  }

  function PushStr(st: TextState, s: string): TextState
  {
    st.(output := st.output + s)
  }

  function PushPrefix(st: TextState, prefix: string): TextState
  {
    st.(prefixes := st.prefixes + [prefix])
  }

  /** Popping an empty prefix stack leaves it empty, as `Vec::pop` does. */
  function PopPrefix(st: TextState): TextState
  {
    if st.prefixes == [] then st else st.(prefixes := st.prefixes[..|st.prefixes| - 1])
  }

  /** `n` calls of `add_newline`. */
  function AddNewlines(st: TextState, n: nat): (r: TextState)
    ensures r.prefixes == st.prefixes && r.listDepth == st.listDepth && r.listIndex == st.listIndex
    ensures st.output <= r.output
  {
    if n == 0 then st else AddNewline(AddNewlines(st, n - 1))
  }

  // ---------------------------------------------------------------------
  // Constants and small text pieces

  /** `n` copies of `c`. */
  function Repeat(c: char, n: nat): (s: string)
    ensures |s| == n && forall i :: 0 <= i < n ==> s[i] == c
  {
    seq(n, _ => c)
  }

  function Spaces(n: nat): string
  {
    Repeat(' ', n)
  }

  /** The prefix a heading puts before each of its lines: one `+` per level, then a space. */
  function HeadingPrefix(level: HeadingLevel): string
  {
    Repeat('+', level.Value()) + " "
  }

  /**
   * Whether a container is block-level (surrounded by newlines) and the
   * prefix it pushes for its lines.
   */
  function ContainerLayout(ct: ContainerType): (bool, Option<string>)
  {
    match ct
    case Div => (true, None)
    case Paragraph => (true, None)
    case Blockquote => (true, Some("    "))
    case Header(level) => (true, Some(HeadingPrefix(level)))
    case _ => (false, None)
  }

  function DigitChar(d: nat): (c: char)
    requires d < 10
    ensures '0' <= c <= '9'
  {
    (48 + d) as char
  }

  /** The number a string of decimal digits denotes, most significant digit first. */
  function DecimalValue(s: string): nat
    requires forall i :: 0 <= i < |s| ==> '0' <= s[i] <= '9'
  {
    if s == [] then 0 else DecimalValue(s[..|s| - 1]) * 10 + (s[|s| - 1] as int - 48)
  }

  /**
   * Decimal form of a list index, as `{}` formats a `usize`: the digits
   * denote `n`, and there is no leading zero except in `0` itself.
   */
  function NatToString(n: nat): (s: string)
    ensures 0 < |s|
    ensures forall i :: 0 <= i < |s| ==> '0' <= s[i] <= '9'
    ensures DecimalValue(s) == n
    ensures s[0] == '0' <==> n == 0
    ensures n == 0 ==> s == "0"
  {
    if n < 10 then [DigitChar(n)]
    else
      var s := NatToString(n / 10) + [DigitChar(n % 10)];
      assert s[..|s| - 1] == NatToString(n / 10);
      s
  }

  /** The marker written before a list item of the given type and index. */
  function ListMarker(ltype: ListType, index: nat): string
  {
    match ltype
    case Bullet => "* "
    case Numbered => NatToString(index) + ". "
    case Generic => ""
  }

  /** An explicit text, or else the host's message for `key` in the page's locale. */
  function GetText(env: Env, text: Option<string>, key: string): string
  {
    match text
    case Some(t) => t
    case None => env.host.getMessage(env.info.locale, key)
  }

  // ---------------------------------------------------------------------
  // URL resolution

  function TrimTrailingSlash(s: string): string
  {
    if 0 < |s| && s[|s| - 1] == '/' then s[..|s| - 1] else s
  }

  function TrimLeadingSlash(s: string): string
  {
    if 0 < |s| && s[0] == '/' then s[1..] else s
  }

  /**
   * A relative URL joined to a base: at most one slash is dropped from each
   * side of the junction and exactly one is put back.
   */
  function JoinUrl(base: string, url: string): string
  {
    TrimTrailingSlash(base) + "/" + TrimLeadingSlash(url)
  }

  /** An absolute URL unchanged; a relative one joined to the site's base URL. */
  function FullUrl(env: Env, url: string): string
  {
    if env.host.isUrl(url) then url else JoinUrl(env.host.getUrl(env.info.site), url)
  }

  // ---------------------------------------------------------------------
  // Rendering

  /** The divider a horizontal rule writes after the optional line break. */
  const Divider := "\n-----\n\n"

  /** True when the buffer is empty or already ends in a line break. */
  predicate AtLineStart(output: string)
  {
    output == [] || output[|output| - 1] == '\n'
  }

  /**
   * Rendering one element. The prefix stack and the list depth are scoped:
   * whatever an element pushes it pops again. Text is only ever appended.
   */
  function Render(env: Env, st: TextState, e: Element): (r: TextState)
    decreases e
    ensures r.prefixes == st.prefixes && r.listDepth == st.listDepth
    ensures st.output <= r.output && st.listIndex <= r.listIndex
  {
    match e
    case Container(ct, es) =>
      var (addNewlines, prefix) := ContainerLayout(ct);
      if !addNewlines then RenderAll(env, st, es)
      else
        var st1 := AddNewline(if prefix.Some? then PushPrefix(st, prefix.value) else st);
        var st2 := RenderAll(env, st1, es);
        AddNewline(if prefix.Some? then PopPrefix(st2) else st2)
    case Module(d) => PushStr(st, env.host.renderModule(d))
    case Text(t) => PushStr(st, t)
    case Raw(t) => PushStr(st, t)
    case Email(t) => PushStr(st, t)
    case Anchor(es, attributes) =>
      var st1 := RenderAll(env, st, es);
      if "href" in attributes then PushStr(st1, " [" + FullUrl(env, attributes["href"]) + "]")
      else st1
    case Link(url, linkLabel) =>
      PushStr(st, env.host.linkLabel(url, linkLabel) + " [" + FullUrl(env, url) + "]")
    case List(ltype, items) => RenderItems(env, st, ltype, items)
    case RadioButton(checked) => PushStr(st, if checked then "(*)" else "( )")
    case CheckBox(checked) => PushStr(st, if checked then "[X]" else "[ ]")
    case Collapsible(es, showText, hideText, showTop, showBottom) =>
      var showLabel := GetText(env, showText, "collapsible-open");
      var hideLabel := GetText(env, hideText, "collapsible-hide");
      var st1 := PushStr(st, "\n" + showLabel + "\n");
      var st2 := if showTop then PushStr(st1, hideLabel + "\n") else st1;
      var st3 := RenderAll(env, st2, es);
      if showBottom then PushStr(st3, hideLabel + "\n") else st3
    case Color(_, es) => RenderAll(env, st, es)
    case Code(contents, language) =>
      PushStr(st, "```" + language.GetOr("") + "\n" + contents + "\n```")
    case Html(contents) => PushStr(st, "```html\n" + contents + "\n```")
    case Iframe(url) => PushStr(st, "iframe: " + url)
    case LineBreak => AddNewline(st)
    case LineBreaks(amount) => AddNewlines(st, amount)
    case HorizontalRule =>
      var st1 := if AtLineStart(st.output) then st else PushStr(st, "\n");
      PushStr(st1, Divider)
  }

  /** Rendering a sequence of elements, one after the other. */
  function RenderAll(env: Env, st: TextState, es: seq<Element>): (r: TextState)
    decreases es
    ensures r.prefixes == st.prefixes && r.listDepth == st.listDepth
    ensures st.output <= r.output && st.listIndex <= r.listIndex
  {
    if es == [] then st
    else Render(env, RenderAll(env, st, es[..|es| - 1]), es[|es| - 1])
  }

  /** Rendering the items of a list of type `ltype`, one after the other. */
  function RenderItems(env: Env, st: TextState, ltype: ListType, items: seq<ListItem>): (r: TextState)
    decreases items
    ensures r.prefixes == st.prefixes && r.listDepth == st.listDepth
    ensures st.output <= r.output && st.listIndex <= r.listIndex
  {
    if items == [] then st
    else RenderItem(env, RenderItems(env, st, ltype, items[..|items| - 1]), ltype, items[|items| - 1])
  }

  /**
   * One list item: an entry is indented by the current depth and marked; a
   * nested list is rendered one level deeper.
   */
  function RenderItem(env: Env, st: TextState, ltype: ListType, item: ListItem): (r: TextState)
    decreases item
    ensures r.prefixes == st.prefixes && r.listDepth == st.listDepth
    ensures st.output <= r.output && st.listIndex <= r.listIndex
  {
    match item
    case Elements(es) =>
      var st1 := PushStr(st, Spaces(st.listDepth));
      var st2 :=
        if ltype == Bullet then PushStr(st1, "* ")
        else if ltype == Numbered then PushStr(st1.(listIndex := st1.listIndex + 1), NatToString(st1.listIndex) + ". ")
        else st1;
      RenderAll(env, st2, es)
    case SubList(list) =>
      var st1 := Render(env, st.(listDepth := st.listDepth + 1), list);
      st1.(listDepth := st1.listDepth - 1)
  }
}
