/**
 * The plain-text renderer of render/text/elements.rs as it runs: a context
 * object whose buffer, prefix stack and list counters are updated in place
 * by recursive methods.  Every method is proved to leave the context in the
 * state the functions of `TextSpec` describe.
 */
module TextRender {
  import opened Wrappers
  import opened Tree
  import opened TextSpec

  class TextContext {
    var output: string
    var prefixes: seq<string>
    var listDepth: nat
    var listIndex: nat
    const env: Env

    /** The context's state as a value. */
    function State(): TextState
      reads this
    {
      TextState(output, prefixes, listDepth, listIndex)
    }

    constructor (env: Env)
      ensures this.env == env && State() == Initial
    {
      this.env := env;
      output := [];
      prefixes := [];
      listDepth := 0;
      listIndex := 1;
    }

    // -------------------------------------------------------------------
    // Primitive operations of the context

    method PushStr(s: string)
      modifies this
      ensures State() == TextSpec.PushStr(old(State()), s)
    {
      output := output + s;
    }

    method Push(c: char)
      modifies this
      ensures State() == TextSpec.PushStr(old(State()), [c])
    {
      output := output + [c];
    }

    method PushPrefix(prefix: string)
      modifies this
      ensures State() == TextSpec.PushPrefix(old(State()), prefix)
    {
      prefixes := prefixes + [prefix];
    }

    method PopPrefix()
      modifies this
      ensures State() == TextSpec.PopPrefix(old(State()))
    {
      if prefixes != [] {
        prefixes := prefixes[..|prefixes| - 1];
      }
    }

    method AddNewline()
      modifies this
      ensures State() == TextSpec.AddNewline(old(State()))
    {
      var i := 0;
      output := output + "\n";
      while i < |prefixes|
        invariant 0 <= i <= |prefixes|
        invariant prefixes == old(prefixes) && listDepth == old(listDepth) && listIndex == old(listIndex)
        invariant output == old(output) + "\n" + Concat(prefixes[..i])
      {
        assert prefixes[..i + 1][..i] == prefixes[..i];
        assert Concat(prefixes[..i + 1]) == Concat(prefixes[..i]) + prefixes[i];
        output := output + prefixes[i];
        i := i + 1;
      }
      assert prefixes[..i] == prefixes;
    }

    method IncrListDepth()
      modifies this
      ensures State() == old(State()).(listDepth := old(listDepth) + 1)
    {
      listDepth := listDepth + 1;
    }

    method DecrListDepth()
      requires 0 < listDepth
      modifies this
      ensures State() == old(State()).(listDepth := old(listDepth) - 1)
    {
      listDepth := listDepth - 1;
    }

    /** The index for the next numbered item; the counter moves on by one. */
    method NextListIndex() returns (index: nat)
      modifies this
      ensures index == old(listIndex)
      ensures State() == old(State()).(listIndex := old(listIndex) + 1)
    {
      index := listIndex;
      listIndex := listIndex + 1;
    }

    // -------------------------------------------------------------------
    // URL resolution

    /**
     * `url` unchanged when it is absolute; otherwise the site's base URL and
     * `url` with exactly one slash between them.
     */
    method GetFullUrl(url: string) returns (full: string)
      ensures full == FullUrl(env, url)
      ensures env.host.isUrl(url) ==> full == url
      ensures !env.host.isUrl(url) ==> full == JoinUrl(env.host.getUrl(env.info.site), url)
    {
      if env.host.isUrl(url) {
        return url;
      }
      full := env.host.getUrl(env.info.site);
      if !(0 < |full| && full[|full| - 1] == '/') && !(0 < |url| && url[0] == '/') {
        full := full + "/";
      }
      if 0 < |full| && full[|full| - 1] == '/' && 0 < |url| && url[0] == '/' {
        full := full[..|full| - 1];
      }
      full := full + url;
    }

    // -------------------------------------------------------------------
    // Rendering

    method RenderElements(es: seq<Element>)
      modifies this
      decreases es
      ensures State() == RenderAll(env, old(State()), es)
    {
      for i := 0 to |es|
        invariant State() == RenderAll(env, old(State()), es[..i])
      {
        assert es[..i + 1][..i] == es[..i];
        RenderElement(es[i]);
      }
      assert es[..|es|] == es;
    }

    method RenderElement(e: Element)
      modifies this
      decreases e
      ensures State() == Render(env, old(State()), e)
    {
      match e
      case Container(ct, es) => RenderContainer(ct, es);
      case Anchor(es, attributes) => RenderAnchor(es, attributes);
      case List(ltype, items) => RenderList(ltype, items);
      case Collapsible(es, showText, hideText, showTop, showBottom) =>
        RenderCollapsible(es, showText, hideText, showTop, showBottom);
      case Color(_, es) => RenderElements(es);
      case LineBreak => AddNewline();
      case LineBreaks(amount) => AddNewlines(amount);
      case HorizontalRule => RenderHorizontalRule();
      case _ => RenderLeaf(e);
    }

    /** The arms for elements that write a string and have no children. */
    method RenderLeaf(e: Element)
      requires e.Module? || e.Text? || e.Raw? || e.Email? || e.Link? || e.RadioButton? || e.CheckBox?
            || e.Code? || e.Html? || e.Iframe?
      modifies this
      ensures State() == Render(env, old(State()), e)
    {
      match e
      case Module(d) => PushStr(env.host.renderModule(d));
      case Text(t) => PushStr(t);
      case Raw(t) => PushStr(t);
      case Email(t) => PushStr(t);
      case Link(url, linkLabel) =>
        var labelText := env.host.linkLabel(url, linkLabel);
        var full := GetFullUrl(url);
        PushStr(labelText + " [" + full + "]");
      case RadioButton(checked) => PushStr("(" + [if checked then '*' else ' '] + ")");
      case CheckBox(checked) => PushStr("[" + [if checked then 'X' else ' '] + "]");
      case Code(contents, language) =>
        var lang := match language case Some(l) => l case None => "";
        PushStr("```" + lang + "\n" + contents + "\n```");
      case Html(contents) => PushStr("```html\n" + contents + "\n```");
      case Iframe(url) => PushStr("iframe: " + url);
    }

    /** The `Anchor` arm: the children, then the full URL of `href` if there is one. */
    method RenderAnchor(es: seq<Element>, attributes: map<string, string>)
      modifies this
      decreases Anchor(es, attributes), 0
      ensures State() == Render(env, old(State()), Anchor(es, attributes))
    {
      RenderElements(es);
      if "href" in attributes {
        var url := GetFullUrl(attributes["href"]);
        PushStr(" [" + url + "]");
      }
    }

    /** The `LineBreaks` arm: `amount` calls of `add_newline`. */
    method AddNewlines(amount: nat)
      modifies this
      ensures State() == TextSpec.AddNewlines(old(State()), amount)
    {
      for k := 0 to amount
        invariant State() == TextSpec.AddNewlines(old(State()), k)
      {
        AddNewline();
      }
    }

    /** The `HorizontalRule` arm: a line break only if the buffer does not already end one, then the divider. */
    method RenderHorizontalRule()
      modifies this
      ensures State() == Render(env, old(State()), HorizontalRule)
    {
      if 0 < |output| && output[|output| - 1] != '\n' {
        Push('\n');
      }
      PushStr(Divider);
    }

    /**
     * The `Container` arm: a block-level container surrounds its children
     * with newlines, under its prefix if it has one.
     */
    method RenderContainer(ct: ContainerType, es: seq<Element>)
      modifies this
      decreases Container(ct, es), 0
      ensures State() == Render(env, old(State()), Container(ct, es))
    {
      var (addNewlines, prefix) := ContainerLayout(ct);
      if addNewlines {
        if prefix.Some? {
          PushPrefix(prefix.value);
        }
        AddNewline();
      }
      RenderElements(es);
      if addNewlines {
        if prefix.Some? {
          PopPrefix();
        }
        AddNewline();
      }
    }

    /** The `Collapsible` arm: the show label, the hide label where asked for, and the children. */
    method RenderCollapsible(es: seq<Element>, showText: Option<string>, hideText: Option<string>,
                             showTop: bool, showBottom: bool)
      modifies this
      decreases Collapsible(es, showText, hideText, showTop, showBottom), 0
      ensures State() == Render(env, old(State()), Collapsible(es, showText, hideText, showTop, showBottom))
    {
      var showLabel := GetText(env, showText, "collapsible-open");
      var hideLabel := GetText(env, hideText, "collapsible-hide");
      PushStr("\n" + showLabel + "\n");
      if showTop {
        PushStr(hideLabel + "\n");
      }
      RenderElements(es);
      if showBottom {
        PushStr(hideLabel + "\n");
      }
    }

    /** The `List` arm: every item in order. */
    method RenderList(ltype: ListType, items: seq<ListItem>)
      modifies this
      decreases List(ltype, items), 0
      ensures State() == RenderItems(env, old(State()), ltype, items)
    {
      for i := 0 to |items|
        invariant State() == RenderItems(env, old(State()), ltype, items[..i])
      {
        assert items[..i + 1][..i] == items[..i];
        assert items[i] in items;
        RenderItem(ltype, items[i]);
      }
      assert items[..|items|] == items;
    }

    /** One list item: an entry indented and marked, or a sub-list one level deeper. */
    method RenderItem(ltype: ListType, item: ListItem)
      modifies this
      decreases item
      ensures State() == TextSpec.RenderItem(env, old(State()), ltype, item)
    {
      match item
      case Elements(es) =>
        var depth := listDepth;
        for k := 0 to depth
          invariant State() == TextSpec.PushStr(old(State()), Spaces(k))
        {
          assert Spaces(k + 1) == Spaces(k) + [' '];
          Push(' ');
        }
        match ltype {
          case Bullet => PushStr("* ");
          case Numbered =>
            var index := NextListIndex();
            PushStr(NatToString(index) + ". ");
          case Generic =>
        }
        RenderElements(es);
      case SubList(list) =>
        IncrListDepth();
        RenderElement(list);
        DecrListDepth();
    }
  }
}
