/**
 * Properties of the plain-text renderer, stated over the functions of
 * `TextSpec` (and so over every run of `TextContext`, which is proved to
 * follow them).
 */
module TextProperties {
  import opened Wrappers
  import opened Tree
  import opened TextSpec

  // ---------------------------------------------------------------------
  // Sequencing

  /** Rendering `a + b` is rendering `a`, then `b` from where `a` left off. */
  lemma {:induction false} RenderAllAppend(env: Env, st: TextState, a: seq<Element>, b: seq<Element>)
    ensures RenderAll(env, st, a + b) == RenderAll(env, RenderAll(env, st, a), b)
    decreases |b|
  {
    if b == [] {
      assert a + b == a;
    } else {
      var b' := b[..|b| - 1];
      assert (a + b)[..|a + b| - 1] == a + b';
      assert (a + b)[|a + b| - 1] == b[|b| - 1];
      RenderAllAppend(env, st, a, b');
    }
  }

  /** The same for the items of a list. */
  lemma {:induction false} RenderItemsAppend(env: Env, st: TextState, ltype: ListType, a: seq<ListItem>, b: seq<ListItem>)
    ensures RenderItems(env, st, ltype, a + b) == RenderItems(env, RenderItems(env, st, ltype, a), ltype, b)
    decreases |b|
  {
    if b == [] {
      assert a + b == a;
    } else {
      var b' := b[..|b| - 1];
      assert (a + b)[..|a + b| - 1] == a + b';
      assert (a + b)[|a + b| - 1] == b[|b| - 1];
      RenderItemsAppend(env, st, ltype, a, b');
    }
  }

  // ---------------------------------------------------------------------
  // Containers

  /** The prefixes a container adds to the stack while its children render. */
  function ContainerPrefixes(ct: ContainerType): seq<string>
  {
    var (_, prefix) := ContainerLayout(ct);
    if prefix.Some? then [prefix.value] else []
  }

  /**
   * Div, Paragraph, Blockquote and Header are block-level; Blockquote adds
   * the four-space prefix and a Header its level's prefix; no other container
   * is block-level or adds a prefix.
   */
  lemma ContainerKinds(ct: ContainerType)
    ensures ContainerLayout(ct).0 <==> ct.Div? || ct.Paragraph? || ct.Blockquote? || ct.Header?
    ensures ContainerPrefixes(ct) ==
      if ct.Blockquote? then ["    "] else if ct.Header? then [HeadingPrefix(ct.level)] else []
  {
  }

  /**
   * A block-level container writes one newline under its own prefix before
   * its children, renders the children with that prefix on the stack, and
   * writes one newline under the outer prefixes after them.
   */
  lemma BlockContainerNewlines(env: Env, st: TextState, ct: ContainerType, es: seq<Element>)
    requires ct.Div? || ct.Paragraph? || ct.Blockquote? || ct.Header?
    ensures var inner := st.prefixes + ContainerPrefixes(ct);
            var children := RenderAll(env, st.(output := st.output + Newline(inner), prefixes := inner), es);
            && children.prefixes == inner
            && st.output + Newline(inner) <= children.output
            && Render(env, st, Container(ct, es)).output == children.output + Newline(st.prefixes)
  {
    var inner := st.prefixes + ContainerPrefixes(ct);
    var (_, prefix) := ContainerLayout(ct);
    var st1 := AddNewline(if prefix.Some? then PushPrefix(st, prefix.value) else st);
    assert ContainerPrefixes(ct) == (if prefix.Some? then [prefix.value] else []);
    assert st.prefixes + [] == st.prefixes;
    assert st1 == st.(output := st.output + Newline(inner), prefixes := inner);
    var st2 := RenderAll(env, st1, es);
    if prefix.Some? {
      assert inner[..|inner| - 1] == st.prefixes;
      assert PopPrefix(st2).prefixes == st.prefixes;
    }
  }

  /** Every other container writes exactly what its children write. */
  lemma InlineContainerTransparent(env: Env, st: TextState, ct: ContainerType, es: seq<Element>)
    requires !(ct.Div? || ct.Paragraph? || ct.Blockquote? || ct.Header?)
    ensures Render(env, st, Container(ct, es)) == RenderAll(env, st, es)
  {
  }

  /** A Color element is as transparent as an inline container. */
  lemma ColorTransparent(env: Env, st: TextState, color: string, es: seq<Element>)
    ensures Render(env, st, Color(color, es)) == RenderAll(env, st, es)
  {
  }

  // ---------------------------------------------------------------------
  // Lists

  /**
   * An entry writes `listDepth` spaces, then its marker (`* `, the next
   * index and `. `, or nothing), then its children; a numbered entry moves
   * the index on by one.
   */
  lemma EntryLayout(env: Env, st: TextState, ltype: ListType, es: seq<Element>)
    ensures var marked := st.output + Spaces(st.listDepth) + ListMarker(ltype, st.listIndex);
            var bump := if ltype == Numbered then 1 else 0;
            var children := RenderAll(env, st.(output := marked, listIndex := st.listIndex + bump), es);
            RenderItem(env, st, ltype, Elements(es)) == children
  {
    var st1 := PushStr(st, Spaces(st.listDepth));
    match ltype {
      case Bullet =>
        assert PushStr(st1, "* ").output == st.output + Spaces(st.listDepth) + ListMarker(ltype, st.listIndex);
      case Numbered =>
        assert PushStr(st1.(listIndex := st1.listIndex + 1), NatToString(st1.listIndex) + ". ").output
            == st.output + Spaces(st.listDepth) + ListMarker(ltype, st.listIndex);
      case Generic =>
        assert st1.output == st.output + Spaces(st.listDepth) + ListMarker(ltype, st.listIndex);
    }
  }

  /** A sub-list is rendered one level deeper, and the depth is restored afterwards. */
  lemma SubListDepth(env: Env, st: TextState, ltype: ListType, list: Element)
    ensures var inner := Render(env, st.(listDepth := st.listDepth + 1), list);
            && inner.listDepth == st.listDepth + 1
            && RenderItem(env, st, ltype, SubList(list)) == inner.(listDepth := st.listDepth)
  {
  }

  /**
   * The first entry of a list nested one level down is indented by one more
   * space than the enclosing list's entries, and carries its own marker.
   */
  lemma {:induction false} NestedEntryIndented(env: Env, st: TextState, ltype: ListType,
                                               inner: ListType, es: seq<Element>, rest: seq<ListItem>)
    ensures st.output + Spaces(st.listDepth + 1) + ListMarker(inner, st.listIndex)
            <= RenderItem(env, st, ltype, SubList(List(inner, [Elements(es)] + rest))).output
  {
    var deeper := st.(listDepth := st.listDepth + 1);
    var first := RenderItems(env, deeper, inner, [Elements(es)]);
    RenderItemsAppend(env, deeper, inner, [Elements(es)], rest);
    assert [Elements(es)][..0] == [];
    EntryLayout(env, deeper, inner, es);
    assert deeper.output + Spaces(deeper.listDepth) + ListMarker(inner, deeper.listIndex) <= first.output;
  }

  /** Rendering any list leaves the list depth where it was. */
  lemma ListKeepsDepth(env: Env, st: TextState, ltype: ListType, items: seq<ListItem>)
    ensures Render(env, st, List(ltype, items)).listDepth == st.listDepth
  {
  }

  // ---------------------------------------------------------------------
  // Leaf elements

  /** Text, Raw and Email append their string verbatim. */
  lemma LiteralElements(env: Env, st: TextState, s: string)
    ensures Render(env, st, Text(s)).output == st.output + s
    ensures Render(env, st, Raw(s)).output == st.output + s
    ensures Render(env, st, Email(s)).output == st.output + s
  {
  }

  /** Radio buttons and check boxes write fixed three-character glyphs. */
  lemma ButtonGlyphs(env: Env, st: TextState, checked: bool)
    ensures Render(env, st, RadioButton(checked)).output == st.output + (if checked then "(*)" else "( )")
    ensures Render(env, st, CheckBox(checked)).output == st.output + (if checked then "[X]" else "[ ]")
  {
  }

  /** Code is fenced with its language (or none); Html is Code tagged `html`. */
  lemma FencedBlocks(env: Env, st: TextState, contents: string, language: Option<string>)
    ensures Render(env, st, Code(contents, language)).output ==
            st.output + "```" + (if language.Some? then language.value else "") + "\n" + contents + "\n```"
    ensures Render(env, st, Html(contents)) == Render(env, st, Code(contents, Some("html")))
  {
  }

  /** `n` copies of `s`. */
  function RepeatStr(s: string, n: nat): string
  {
    if n == 0 then [] else RepeatStr(s, n - 1) + s
  }

  /** `LineBreaks(n)` writes `n` newlines, each followed by the active prefixes; `LineBreak` is one. */
  lemma {:induction false} LineBreaksOutput(env: Env, st: TextState, n: NonZeroU32)
    ensures Render(env, st, LineBreaks(n)).output == st.output + RepeatStr(Newline(st.prefixes), n)
    ensures Render(env, st, LineBreak) == Render(env, st, LineBreaks(1))
  {
    AddNewlinesOutput(st, n);
    assert AddNewlines(st, 1) == AddNewline(AddNewlines(st, 0));
  }

  lemma {:induction false} AddNewlinesOutput(st: TextState, n: nat)
    ensures AddNewlines(st, n).output == st.output + RepeatStr(Newline(st.prefixes), n)
  {
    if n > 0 {
      AddNewlinesOutput(st, n - 1);
    }
  }

  /**
   * A horizontal rule adds one line break only when the buffer is non-empty
   * and does not end in one, then the divider; earlier text is untouched.
   */
  lemma HorizontalRuleOutput(env: Env, st: TextState)
    ensures var r := Render(env, st, HorizontalRule).output;
            && r[..|st.output|] == st.output
            && (AtLineStart(st.output) ==> r == st.output + Divider)
            && (!AtLineStart(st.output) ==> r == st.output + "\n" + Divider)
  {
  }

  /**
   * So a rule after text that lacks a final line break gives the same
   * output as after the same text with one: the line break is never doubled.
   */
  lemma HorizontalRuleSingleBreak(env: Env, st: TextState)
    requires !AtLineStart(st.output)
    ensures Render(env, st, HorizontalRule) == Render(env, st.(output := st.output + "\n"), HorizontalRule)
  {
    assert (st.output + "\n")[|st.output + "\n"| - 1] == '\n';
  }

  // ---------------------------------------------------------------------
  // URLs

  /**
   * Joining keeps exactly one slash at the junction whichever side already
   * had one.
   */
  lemma JoinUrlSingleSlash(base: string, path: string)
    requires base == [] || base[|base| - 1] != '/'
    requires path == [] || path[0] != '/'
    ensures JoinUrl(base, path) == base + "/" + path
    ensures JoinUrl(base + "/", path) == base + "/" + path
    ensures JoinUrl(base, "/" + path) == base + "/" + path
    ensures JoinUrl(base + "/", "/" + path) == base + "/" + path
  {
    assert (base + "/")[..|base + "/"| - 1] == base;
    assert ("/" + path)[1..] == path;
  }
}
