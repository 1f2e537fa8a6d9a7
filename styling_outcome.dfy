/** What the styling step leaves on the document it returns, element by element, and how a
    later styling with another theme overrides an earlier one. */
module StylingOutcome {
  import opened Wrappers
  import opened SvgTree
  import opened Theme
  import opened Styling
  import opened StylingProofs

  // ---------------------------------------------------------------------------
  // Paths into the styled tree

  /** Every path into a styled tree is a path into the original one, and the elements
      along it carry the same labels. */
  lemma {:induction false} StyledAtBack(e: Element, ancestors: seq<Label>, rules: seq<Rule>, path: seq<nat>)
    requires At(Styled(e, ancestors, rules), path).Some?
    ensures At(e, path).Some?
    ensures AncestryAt(Styled(e, ancestors, rules), ancestors, path) == AncestryAt(e, ancestors, path)
    decreases |path|
  {
    if path != [] {
      var s := Styled(e, ancestors, rules);
      var inner := ancestors + [LabelOf(e)];
      assert LabelOf(s) == LabelOf(e);
      assert s.children == StyledAll(e.children, inner, rules);
      assert path[0] < |e.children|;
      StyledAtBack(e.children[path[0]], inner, rules, path[1..]);
    }
  }

  /** Any element below the root of the styled document sits at the same path in the
      document after the guarded insertion, with the same label; its attributes and style
      are that element's own, overlaid with the net writes of the eight passes for its
      label and ancestry. */
  lemma StyleSvgAt(svg: Element, t: CustomTheme, path: seq<nat>)
    requires path != [] && At(StyleSvg(svg, Some(t)), path).Some?
    ensures var e := EnsureShadowFilter(SizeRoot(svg));
      var x := At(StyleSvg(svg, Some(t)), path).value;
      var ancestry := AncestryAt(StyleSvg(svg, Some(t)), [], path);
      && At(e, path).Some?
      && LabelOf(At(e, path).value) == LabelOf(x)
      && x.attrs == At(e, path).value.attrs + NetAttrs(LabelOf(x), ancestry, t)
      && x.style == At(e, path).value.style + NetStyle(LabelOf(x), ancestry, t)
  {
    var rules := AllRules(t);
    var e := EnsureShadowFilter(SizeRoot(svg));
    var s := StyleSvg(svg, Some(t));
    StyleSvgNormalForm(svg, Some(t));
    assert ThemeFor(Some(t)) == t;
    assert s == Restyle(e, rules);
    var i, rest := path[0], path[1..];
    var top := [LabelOf(e)];
    assert s.children == StyledAll(e.children, top, rules);
    assert i < |e.children|;
    var child := e.children[i];
    assert At(s, path) == At(Styled(child, top, rules), rest);
    assert [] + [LabelOf(s)] == top;
    assert AncestryAt(s, [], path) == AncestryAt(Styled(child, top, rules), top, rest);
    StyledAtBack(child, top, rules, rest);
    assert At(e, path) == At(child, rest);
    StyledAt(child, top, rules, rest);
    var orig := At(child, rest).value;
    ThemeAttributesByCategory(orig, AncestryAt(child, top, rest), t);
  }

  /** On the returned document, every node rect carries the theme's radius, every node
      shape, edge path and marker its stroke, and every default-node shape, `text` and
      marker its fill, the later pass winning where two apply. */
  lemma StyleSvgGivesThemeAttributes(svg: Element, t: CustomTheme, path: seq<nat>)
    requires path != [] && At(StyleSvg(svg, Some(t)), path).Some?
    ensures var x := At(StyleSvg(svg, Some(t)), path).value;
      var l, a := LabelOf(x), AncestryAt(StyleSvg(svg, Some(t)), [], path);
      && (Matches(NodeRect, l, a) ==>
            "rx" in x.attrs && x.attrs["rx"] == IntToString(t.borderRadius)
            && "ry" in x.attrs && x.attrs["ry"] == IntToString(t.borderRadius))
      && (Matches(EdgePath, l, a) || Matches(Marker, l, a) ==> "stroke" in x.attrs && x.attrs["stroke"] == t.edgeColor)
      && (Matches(NodeShape, l, a) && !Matches(EdgePath, l, a) && !Matches(Marker, l, a) ==>
            "stroke" in x.attrs && x.attrs["stroke"] == t.borderColor)
      && (Matches(Marker, l, a) ==> "fill" in x.attrs && x.attrs["fill"] == t.edgeColor)
      && (Matches(TextElement, l, a) && !Matches(Marker, l, a) ==> "fill" in x.attrs && x.attrs["fill"] == t.textColor)
      && (Matches(DefaultNodeShape, l, a) && !Matches(TextElement, l, a) && !Matches(Marker, l, a) ==>
            "fill" in x.attrs && x.attrs["fill"] == t.secondaryFill)
  {
    var x := At(StyleSvg(svg, Some(t)), path).value;
    var l, a := LabelOf(x), AncestryAt(StyleSvg(svg, Some(t)), [], path);
    StyleSvgAt(svg, t, path);
    NetRadius(l, a, t);
    NetStroke(l, a, t);
    NetFill(l, a, t);
  }

  /** On the returned document, label elements carry the text colour and node groups the
      shadow filter as inline styles. */
  lemma StyleSvgGivesThemeStyles(svg: Element, t: CustomTheme, path: seq<nat>)
    requires path != [] && At(StyleSvg(svg, Some(t)), path).Some?
    ensures var x := At(StyleSvg(svg, Some(t)), path).value;
      var l, a := LabelOf(x), AncestryAt(StyleSvg(svg, Some(t)), [], path);
      && (Matches(LabelText, l, a) ==> "color" in x.style && x.style["color"] == t.textColor)
      && (Matches(NodeGroup, l, a) ==> "filter" in x.style && x.style["filter"] == "url(#pretty-shadow)")
  {
    var x := At(StyleSvg(svg, Some(t)), path).value;
    var l, a := LabelOf(x), AncestryAt(StyleSvg(svg, Some(t)), [], path);
    StyleSvgAt(svg, t, path);
    NetStyleByCategory(l, a, t);
  }

  // ---------------------------------------------------------------------------
  // A later theme overrides an earlier one

  /** Overlaying `u1` and then `u2` is overlaying `u2` alone when `u2` writes every key `u1` writes. */
  lemma OverlayOverride(base: map<string, string>, u1: map<string, string>, u2: map<string, string>)
    requires u1.Keys <= u2.Keys
    ensures (base + u1) + u2 == base + u2
  {
    var lhs := (base + u1) + u2;
    var rhs := base + u2;
    assert lhs.Keys == rhs.Keys;
    forall k | k in lhs
      ensures lhs[k] == rhs[k]
    {
    }
  }

  /** The attribute keys the passes write on an element, from its label and ancestry alone. */
  function AttrKeysFor(l: Label, a: seq<Label>): set<string>
  {
    (if Matches(NodeRect, l, a) then {"rx", "ry"} else {})
    + (if Matches(NodeShape, l, a) || Matches(EdgePath, l, a) || Matches(Marker, l, a) then {"stroke"} else {})
    + (if Matches(DefaultNodeShape, l, a) || Matches(TextElement, l, a) || Matches(Marker, l, a) then {"fill"} else {})
  }

  /** The inline-style keys the passes write on an element, from its label and ancestry alone. */
  function StyleKeysFor(l: Label, a: seq<Label>): set<string>
  {
    (if Matches(LabelText, l, a) then {"color"} else {})
    + (if Matches(NodeGroup, l, a) then {"filter"} else {})
  }

  lemma NetAttrKeySet(l: Label, ancestors: seq<Label>, t: CustomTheme)
    ensures NetAttrs(l, ancestors, t).Keys == AttrKeysFor(l, ancestors)
  {
    NetAttrsKeys(l, ancestors, t);
    NetRadius(l, ancestors, t);
    NetStroke(l, ancestors, t);
    NetFill(l, ancestors, t);
  }

  lemma NetStyleKeySet(l: Label, ancestors: seq<Label>, t: CustomTheme)
    ensures NetStyle(l, ancestors, t).Keys == StyleKeysFor(l, ancestors)
  {
    NetStyleByCategory(l, ancestors, t);
  }

  /** On one element, the settings of an earlier theme's passes followed by a later
      theme's are overwritten key by key: the later theme's passes alone give the same. */
  lemma OwnOverride(e: Element, ancestors: seq<Label>, t1: CustomTheme, t2: CustomTheme)
    ensures Own(e, ancestors, AllRules(t1) + AllRules(t2)) == Own(e, ancestors, AllRules(t2))
  {
    var l := LabelOf(e);
    var r1, r2 := AllRules(t1), AllRules(t2);
    var m1, m2 := Matched(l, ancestors, r1), Matched(l, ancestors, r2);
    MatchedConcat(l, ancestors, r1, r2);
    UpdatesConcat(m1, m2, Attribute);
    UpdatesConcat(m1, m2, InlineStyle);
    MatchedUpdates(l, ancestors, r1, Attribute);
    MatchedUpdates(l, ancestors, r2, Attribute);
    MatchedUpdates(l, ancestors, r1, InlineStyle);
    MatchedUpdates(l, ancestors, r2, InlineStyle);
    NetAttrKeySet(l, ancestors, t1);
    NetAttrKeySet(l, ancestors, t2);
    NetStyleKeySet(l, ancestors, t1);
    NetStyleKeySet(l, ancestors, t2);
    MapAssoc(e.attrs, Updates(m1, Attribute), Updates(m2, Attribute));
    MapAssoc(e.style, Updates(m1, InlineStyle), Updates(m2, InlineStyle));
    OverlayOverride(e.attrs, Updates(m1, Attribute), Updates(m2, Attribute));
    OverlayOverride(e.style, Updates(m1, InlineStyle), Updates(m2, InlineStyle));
  }

  /** The passes of an earlier theme followed by those of a later one act as the later
      theme's passes alone, on every element of the tree. */
  lemma {:induction false} StyledOverride(e: Element, ancestors: seq<Label>, t1: CustomTheme, t2: CustomTheme)
    ensures Styled(e, ancestors, AllRules(t1) + AllRules(t2)) == Styled(e, ancestors, AllRules(t2))
    decreases e
  {
    var r1, r2 := AllRules(t1), AllRules(t2);
    OwnOverride(e, ancestors, t1, t2);
    var inner := ancestors + [LabelOf(e)];
    forall i | 0 <= i < |e.children|
      ensures StyledAll(e.children, inner, r1 + r2)[i] == StyledAll(e.children, inner, r2)[i]
    {
      StyledOverride(e.children[i], inner, t1, t2);
    }
    assert StyledAll(e.children, inner, r1 + r2) == StyledAll(e.children, inner, r2);
  }

  lemma RestyleOverride(svg: Element, t1: CustomTheme, t2: CustomTheme)
    ensures Restyle(Restyle(svg, AllRules(t1)), AllRules(t2)) == Restyle(svg, AllRules(t2))
  {
    var r1, r2 := AllRules(t1), AllRules(t2);
    RestyleCompose(svg, r1, r2);
    var anc := [LabelOf(svg)];
    forall i | 0 <= i < |svg.children|
      ensures StyledAll(svg.children, anc, r1 + r2)[i] == StyledAll(svg.children, anc, r2)[i]
    {
      StyledOverride(svg.children[i], anc, t1, t2);
    }
    assert StyledAll(svg.children, anc, r1 + r2) == StyledAll(svg.children, anc, r2);
  }

  /** Styling a document styled with one theme again with another gives exactly the
      document styled with the second theme alone: no value of the first theme survives. */
  lemma StyleSvgOverride(svg: Element, t1: CustomTheme, t2: CustomTheme)
    ensures StyleSvg(StyleSvg(svg, Some(t1)), Some(t2)) == StyleSvg(svg, Some(t2))
  {
    var r1, r2 := AllRules(t1), AllRules(t2);
    var e := EnsureShadowFilter(SizeRoot(svg));
    assert ThemeFor(Some(t1)) == t1 && ThemeFor(Some(t2)) == t2;
    StyleSvgNormalForm(svg, Some(t1));
    StyleSvgNormalForm(svg, Some(t2));
    var y := Restyle(e, r1);
    assert StyleSvg(svg, Some(t1)) == y;
    StyleSvgNormalForm(y, Some(t2));
    SizedStaysSized(svg);
    assert SizeRoot(y) == y;
    EnsureShadowFilterGuarded(SizeRoot(svg));
    ColorRulesNeverSetId(t1);
    RestyleKeepsShadowPresent(e, r1);
    EnsureShadowFilterGuarded(y);
    RestyleOverride(e, t1, t2);
  }
}
