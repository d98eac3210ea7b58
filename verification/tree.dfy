/**
 * The document tree produced by the parser and consumed by the renderers:
 * the closed set of `Element` variants, list items, list types and
 * container types.
 */
module Tree {
  import opened Wrappers

  /** Heading levels `+` to `++++++`. */
  datatype HeadingLevel = One | Two | Three | Four | Five | Six {
    function Value(): (n: nat)
      ensures 1 <= n <= 6
    {
      match this
      case One => 1
      case Two => 2
      case Three => 3
      case Four => 4
      case Five => 5
      case Six => 6
    }
  }

  /** The kinds of container element; only some of them are block-level. */
  datatype ContainerType =
    | Bold | Italics | Underline | Superscript | Subscript | Strikethrough
    | Monospace | Span | Mark | Insertion | Deletion | Hidden | Invisible | Size
    | Div | Paragraph | Blockquote
    | Header(level: HeadingLevel)

  datatype ListType = Bullet | Numbered | Generic

  /** A module invocation, passed through to the host untouched. */
  datatype ModuleDesc = ModuleDesc(name: string, arguments: map<string, string>)

  /** How the label of a link is chosen. */
  datatype LinkLabel =
    | LabelText(text: string)
    | LabelUrl(url: Option<string>)
    | LabelPage

  /** A positive repeat count below 2^32 (a `NonZeroU32`). */
  type NonZeroU32 = n: nat | 0 < n < 0x1_0000_0000 witness 1

  datatype Element =
    | Container(ctype: ContainerType, elements: seq<Element>)
    | Module(descriptor: ModuleDesc)
    | Text(text: string)
    | Raw(text: string)
    | Email(text: string)
    | Anchor(elements: seq<Element>, attributes: map<string, string>)
    | Link(url: string, linkLabel: LinkLabel)
    | List(ltype: ListType, items: seq<ListItem>)
    | RadioButton(checked: bool)
    | CheckBox(checked: bool)
    | Collapsible(elements: seq<Element>, showText: Option<string>, hideText: Option<string>,
                  showTop: bool, showBottom: bool)
    | Color(color: string, elements: seq<Element>)
    | Code(contents: string, language: Option<string>)
    | Html(contents: string)
    | Iframe(url: string)
    | LineBreak
    | LineBreaks(amount: NonZeroU32)
    | HorizontalRule

  /** An entry of a list: inline content, or a nested list. */
  datatype ListItem =
    | Elements(elements: seq<Element>)
    | SubList(list: Element)
}
