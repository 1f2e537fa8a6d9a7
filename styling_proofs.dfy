/** What the styling step guarantees: the sequential passes amount to one overlay per
    element, the overlay changes no structure, the shadow insertion is guarded, and the
    whole step is idempotent. */
module StylingProofs {
  import opened Wrappers
  import opened SvgTree
  import opened Theme
  import opened Styling

  // ---------------------------------------------------------------------------
  // Algebra of settings

  lemma MapAssoc(x: map<string, string>, y: map<string, string>, z: map<string, string>)
    ensures (x + y) + z == x + (y + z)
  {
    var lhs := (x + y) + z;
    var rhs := x + (y + z);
    assert lhs.Keys == rhs.Keys;
    forall k | k in lhs ensures lhs[k] == rhs[k] {
    }
  }

  /** The net updates of two lists of settings run one after the other. */
  lemma {:induction false} UpdatesConcat(a: seq<Setting>, b: seq<Setting>, t: Target)
    ensures Updates(a + b, t) == Updates(a, t) + Updates(b, t)
    decreases |a|
  {
    if a == [] {
      assert a + b == b;
      assert map[] + Updates(b, t) == Updates(b, t);
    } else {
      assert (a + b)[1..] == a[1..] + b;
      UpdatesConcat(a[1..], b, t);
      var head := if a[0].target == t then map[a[0].key := a[0].value] else map[];
      MapAssoc(head, Updates(a[1..], t), Updates(b, t));
    }
  }

  /** The settings selected by two rule lists run one after the other. */
  lemma {:induction false} MatchedConcat(e: Label, ancestors: seq<Label>, r1: seq<Rule>, r2: seq<Rule>)
    ensures Matched(e, ancestors, r1 + r2) == Matched(e, ancestors, r1) + Matched(e, ancestors, r2)
    decreases |r1|
  {
    if r1 == [] {
      assert r1 + r2 == r2;
    } else {
      assert (r1 + r2)[1..] == r1[1..] + r2;
      MatchedConcat(e, ancestors, r1[1..], r2);
    }
  }

  /** A list of settings none of which writes attribute `k` leaves `k` alone. */
  lemma {:induction false} UpdatesWithoutKey(ss: seq<Setting>, k: string)
    requires forall s :: s in ss ==> s.target == InlineStyle || s.key != k
    ensures k !in Updates(ss, Attribute)
    decreases |ss|
  {
    if ss != [] {
      assert ss[0] in ss;
      UpdatesWithoutKey(ss[1..], k);
    }
  }

  /** Rules that never set `id` select settings that never set `id`. */
  lemma {:induction false} MatchedNeverSetsId(e: Label, ancestors: seq<Label>, rules: seq<Rule>)
    requires NeverSetsId(rules)
    ensures "id" !in Updates(Matched(e, ancestors, rules), Attribute)
    decreases |rules|
  {
    if rules != [] {
      assert rules[0] in rules;
      var head := if Matches(rules[0].selector, e, ancestors) then rules[0].settings else [];
      UpdatesWithoutKey(head, "id");
      MatchedNeverSetsId(e, ancestors, rules[1..]);
      UpdatesConcat(head, Matched(e, ancestors, rules[1..]), Attribute);
    }
  }

  lemma ColorRulesNeverSetId(t: CustomTheme)
    ensures NeverSetsId(AllRules(t))
  {
  }

  // ---------------------------------------------------------------------------
  // The passes change attributes and styles only

  /** The labels of an element and its subtree are untouched by styling: tag, classes and
      the parent/child structure stay exactly as they were. */
  lemma {:induction false} StyledKeepsShape(e: Element, ancestors: seq<Label>, rules: seq<Rule>)
    ensures Bare(Styled(e, ancestors, rules)) == Bare(e)
    decreases e
  {
    StyledAllKeepsShape(e.children, ancestors + [LabelOf(e)], rules);
  }

  lemma {:induction false} StyledAllKeepsShape(s: seq<Element>, ancestors: seq<Label>, rules: seq<Rule>)
    ensures BareAll(StyledAll(s, ancestors, rules)) == BareAll(s)
    decreases s
  {
    if s != [] {
      var r := StyledAll(s, ancestors, rules);
      assert r[1..] == StyledAll(s[1..], ancestors, rules);
      StyledKeepsShape(s[0], ancestors, rules);
      StyledAllKeepsShape(s[1..], ancestors, rules);
    }
  }

  /** Styling a second time with the same rules changes nothing: each overlay writes the
      same values again. */
  lemma {:induction false} StyledIdempotent(e: Element, ancestors: seq<Label>, rules: seq<Rule>)
    ensures Styled(Styled(e, ancestors, rules), ancestors, rules) == Styled(e, ancestors, rules)
    decreases e
  {
    var once := Styled(e, ancestors, rules);
    OwnIdempotent(e, ancestors, rules);
    var inner := ancestors + [LabelOf(e)];
    var kids := StyledAll(e.children, inner, rules);
    forall i | 0 <= i < |e.children|
      ensures StyledAll(kids, inner, rules)[i] == kids[i]
    {
      StyledIdempotent(e.children[i], inner, rules);
    }
    assert StyledAll(kids, inner, rules) == kids;
  }

  /** Overlaying the same updates twice is overlaying them once. */
  lemma OverlayTwice(base: map<string, string>, u: map<string, string>)
    ensures (base + u) + u == base + u
  {
    var lhs := (base + u) + u;
    assert lhs.Keys == (base + u).Keys;
    forall k | k in lhs ensures lhs[k] == (base + u)[k] {
    }
  }

  /** One element's own overlay is idempotent, and it keeps the element's label. */
  lemma OwnIdempotent(e: Element, ancestors: seq<Label>, rules: seq<Rule>)
    ensures LabelOf(Own(e, ancestors, rules)) == LabelOf(e)
    ensures Own(Own(e, ancestors, rules), ancestors, rules) == Own(e, ancestors, rules)
  {
    var m := Matched(LabelOf(e), ancestors, rules);
    OverlayTwice(e.attrs, Updates(m, Attribute));
    OverlayTwice(e.style, Updates(m, InlineStyle));
  }

  /** Two rule lists applied one after the other act as their concatenation. */
  lemma {:induction false} StyledCompose(e: Element, ancestors: seq<Label>, r1: seq<Rule>, r2: seq<Rule>)
    ensures Styled(Styled(e, ancestors, r1), ancestors, r2) == Styled(e, ancestors, r1 + r2)
    decreases e
  {
    var m1 := Matched(LabelOf(e), ancestors, r1);
    var m2 := Matched(LabelOf(e), ancestors, r2);
    MatchedConcat(LabelOf(e), ancestors, r1, r2);
    UpdatesConcat(m1, m2, Attribute);
    UpdatesConcat(m1, m2, InlineStyle);
    MapAssoc(e.attrs, Updates(m1, Attribute), Updates(m2, Attribute));
    MapAssoc(e.style, Updates(m1, InlineStyle), Updates(m2, InlineStyle));
    var inner := ancestors + [LabelOf(e)];
    var kids := StyledAll(e.children, inner, r1);
    forall i | 0 <= i < |e.children|
      ensures StyledAll(kids, inner, r2)[i] == StyledAll(e.children, inner, r1 + r2)[i]
    {
      StyledCompose(e.children[i], inner, r1, r2);
    }
    assert StyledAll(kids, inner, r2) == StyledAll(e.children, inner, r1 + r2);
  }

  /** No rules, no change. */
  lemma {:induction false} StyledNoRules(e: Element, ancestors: seq<Label>)
    ensures Styled(e, ancestors, []) == e
    decreases e
  {
    assert e.attrs + map[] == e.attrs;
    assert e.style + map[] == e.style;
    var inner := ancestors + [LabelOf(e)];
    forall i | 0 <= i < |e.children|
      ensures StyledAll(e.children, inner, [])[i] == e.children[i]
    {
      StyledNoRules(e.children[i], inner);
    }
    assert StyledAll(e.children, inner, []) == e.children;
  }

  lemma RestyleCompose(svg: Element, r1: seq<Rule>, r2: seq<Rule>)
    ensures Restyle(Restyle(svg, r1), r2) == Restyle(svg, r1 + r2)
  {
    var anc := [LabelOf(svg)];
    var kids := StyledAll(svg.children, anc, r1);
    forall i | 0 <= i < |svg.children|
      ensures StyledAll(kids, anc, r2)[i] == StyledAll(svg.children, anc, r1 + r2)[i]
    {
      StyledCompose(svg.children[i], anc, r1, r2);
    }
    assert StyledAll(kids, anc, r2) == StyledAll(svg.children, anc, r1 + r2);
  }

  /** The source's passes, one `forEach` after another, have the same effect as laying every
      matching rule's settings over each element in one traversal. */
  lemma {:induction false} RunPassesIsRestyle(svg: Element, rules: seq<Rule>)
    ensures RunPasses(svg, rules) == Restyle(svg, rules)
    decreases |rules|
  {
    if rules == [] {
      forall i | 0 <= i < |svg.children|
        ensures StyledAll(svg.children, [LabelOf(svg)], [])[i] == svg.children[i]
      {
        StyledNoRules(svg.children[i], [LabelOf(svg)]);
      }
      assert StyledAll(svg.children, [LabelOf(svg)], []) == svg.children;
    } else {
      RunPassesIsRestyle(Restyle(svg, [rules[0]]), rules[1..]);
      RestyleCompose(svg, [rules[0]], rules[1..]);
      assert [rules[0]] + rules[1..] == rules;
    }
  }

  // ---------------------------------------------------------------------------
  // Queries the shadow insertion depends on are unaffected by the passes

  lemma {:induction false} StyledKeepsTags(e: Element, ancestors: seq<Label>, rules: seq<Rule>, t: string)
    ensures ContainsTag(Styled(e, ancestors, rules), t) == ContainsTag(e, t)
    decreases e
  {
    StyledAllKeepsTags(e.children, ancestors + [LabelOf(e)], rules, t);
  }

  lemma {:induction false} StyledAllKeepsTags(s: seq<Element>, ancestors: seq<Label>, rules: seq<Rule>, t: string)
    ensures AnyContainsTag(StyledAll(s, ancestors, rules), t) == AnyContainsTag(s, t)
    decreases s
  {
    if s != [] {
      assert StyledAll(s, ancestors, rules)[1..] == StyledAll(s[1..], ancestors, rules);
      StyledKeepsTags(s[0], ancestors, rules, t);
      StyledAllKeepsTags(s[1..], ancestors, rules, t);
    }
  }

  lemma {:induction false} StyledKeepsIds(e: Element, ancestors: seq<Label>, rules: seq<Rule>, id: string)
    requires NeverSetsId(rules)
    ensures HasId(Styled(e, ancestors, rules), id) == HasId(e, id)
    decreases e
  {
    MatchedNeverSetsId(LabelOf(e), ancestors, rules);
    StyledAllKeepsIds(e.children, ancestors + [LabelOf(e)], rules, id);
  }

  lemma {:induction false} StyledAllKeepsIds(s: seq<Element>, ancestors: seq<Label>, rules: seq<Rule>, id: string)
    requires NeverSetsId(rules)
    ensures AnyHasId(StyledAll(s, ancestors, rules), id) == AnyHasId(s, id)
    decreases s
  {
    if s != [] {
      assert StyledAll(s, ancestors, rules)[1..] == StyledAll(s[1..], ancestors, rules);
      StyledKeepsIds(s[0], ancestors, rules, id);
      StyledAllKeepsIds(s[1..], ancestors, rules, id);
    }
  }

  lemma {:induction false} StyledKeepsShadow(e: Element, ancestors: seq<Label>, rules: seq<Rule>)
    requires NeverSetsId(rules)
    ensures DefsHasShadow(Styled(e, ancestors, rules)) == DefsHasShadow(e)
    decreases e
  {
    var inner := ancestors + [LabelOf(e)];
    StyledAllKeepsIds(e.children, inner, rules, ShadowId);
    StyledAllKeepsShadow(e.children, inner, rules);
  }

  lemma {:induction false} StyledAllKeepsShadow(s: seq<Element>, ancestors: seq<Label>, rules: seq<Rule>)
    requires NeverSetsId(rules)
    ensures FirstDefsHasShadow(StyledAll(s, ancestors, rules)) == FirstDefsHasShadow(s)
    decreases s
  {
    if s != [] {
      assert StyledAll(s, ancestors, rules)[1..] == StyledAll(s[1..], ancestors, rules);
      StyledKeepsTags(s[0], ancestors, rules, "defs");
      StyledKeepsShadow(s[0], ancestors, rules);
      StyledAllKeepsShadow(s[1..], ancestors, rules);
    }
  }

  // ---------------------------------------------------------------------------
  // The inserted elements are selected by no pass

  /** The labels of the elements the shadow insertion creates. */
  predicate InertLabel(l: Label)
  {
    (l.tag == "defs" || l.tag == "filter" || l.tag == "feDropShadow") && l.classes == {}
  }

  predicate Inert(e: Element)
    decreases e
  {
    InertLabel(LabelOf(e)) && forall i :: 0 <= i < |e.children| ==> Inert(e.children[i])
  }

  /** No selector of the styling step selects a `defs`, `filter` or `feDropShadow`
      element without classes, wherever it sits. */
  lemma {:induction false} NothingSelectsInert(l: Label, ancestors: seq<Label>, rules: seq<Rule>)
    requires InertLabel(l)
    ensures Matched(l, ancestors, rules) == []
    decreases |rules|
  {
    if rules != [] {
      NothingSelectsInert(l, ancestors, rules[1..]);
    }
  }

  lemma {:induction false} InertUnstyled(e: Element, ancestors: seq<Label>, rules: seq<Rule>)
    requires Inert(e)
    ensures Styled(e, ancestors, rules) == e
    decreases e
  {
    NothingSelectsInert(LabelOf(e), ancestors, rules);
    assert e.attrs + map[] == e.attrs;
    assert e.style + map[] == e.style;
    var inner := ancestors + [LabelOf(e)];
    forall i | 0 <= i < |e.children|
      ensures StyledAll(e.children, inner, rules)[i] == e.children[i]
    {
      InertUnstyled(e.children[i], inner, rules);
    }
    assert StyledAll(e.children, inner, rules) == e.children;
  }

  lemma ShadowElementsInert()
    ensures Inert(ShadowFilter) && Inert(ShadowDefs)
  {
    assert Inert(DropShadow);
    assert Inert(ShadowFilter);
  }

  lemma {:induction false} StyledAllAppend(a: seq<Element>, b: seq<Element>, ancestors: seq<Label>, rules: seq<Rule>)
    ensures StyledAll(a + b, ancestors, rules) == StyledAll(a, ancestors, rules) + StyledAll(b, ancestors, rules)
  {
    var lhs := StyledAll(a + b, ancestors, rules);
    var rhs := StyledAll(a, ancestors, rules) + StyledAll(b, ancestors, rules);
    assert |lhs| == |rhs|;
    forall i | 0 <= i < |lhs| ensures lhs[i] == rhs[i] {
      if i < |a| {
        assert (a + b)[i] == a[i];
      } else {
        assert (a + b)[i] == b[i - |a|];
      }
    }
  }

  // ---------------------------------------------------------------------------
  // The shadow insertion commutes with the passes

  lemma {:induction false} ShadowCommutesWithStyled(e: Element, ancestors: seq<Label>, rules: seq<Rule>)
    requires NeverSetsId(rules)
    ensures WithShadowInDefs(Styled(e, ancestors, rules)) == Styled(WithShadowInDefs(e), ancestors, rules)
    decreases e
  {
    var inner := ancestors + [LabelOf(e)];
    if e.tag == "defs" {
      StyledAllKeepsIds(e.children, inner, rules, ShadowId);
      if !AnyHasId(e.children, ShadowId) {
        ShadowElementsInert();
        InertUnstyled(ShadowFilter, inner, rules);
        StyledAllAppend(e.children, [ShadowFilter], inner, rules);
      }
    } else {
      ShadowCommutesWithStyledAll(e.children, inner, rules);
    }
  }

  lemma {:induction false} ShadowCommutesWithStyledAll(s: seq<Element>, ancestors: seq<Label>, rules: seq<Rule>)
    requires NeverSetsId(rules)
    ensures WithShadowInFirstDefs(StyledAll(s, ancestors, rules)) == StyledAll(WithShadowInFirstDefs(s), ancestors, rules)
    decreases s
  {
    if s != [] {
      var r := StyledAll(s, ancestors, rules);
      assert r[1..] == StyledAll(s[1..], ancestors, rules);
      StyledKeepsTags(s[0], ancestors, rules, "defs");
      if ContainsTag(s[0], "defs") {
        ShadowCommutesWithStyled(s[0], ancestors, rules);
        StyledAllAppend([WithShadowInDefs(s[0])], s[1..], ancestors, rules);
      } else {
        ShadowCommutesWithStyledAll(s[1..], ancestors, rules);
        StyledAllAppend([s[0]], WithShadowInFirstDefs(s[1..]), ancestors, rules);
      }
    }
  }

  /** Inserting the shadow filter and then styling gives the same document as styling and
      then inserting it. */
  lemma EnsureShadowCommutesWithRestyle(svg: Element, rules: seq<Rule>)
    requires NeverSetsId(rules)
    ensures EnsureShadowFilter(Restyle(svg, rules)) == Restyle(EnsureShadowFilter(svg), rules)
  {
    var anc := [LabelOf(svg)];
    StyledAllKeepsTags(svg.children, anc, rules, "defs");
    if AnyContainsTag(svg.children, "defs") {
      ShadowCommutesWithStyledAll(svg.children, anc, rules);
    } else {
      ShadowElementsInert();
      InertUnstyled(ShadowDefs, anc, rules);
      StyledAllAppend([ShadowDefs], svg.children, anc, rules);
    }
  }

  // ---------------------------------------------------------------------------
  // The guarded insertion

  lemma {:induction false} AnyHasIdAppend(s: seq<Element>, x: Element, id: string)
    requires HasId(x, id)
    ensures AnyHasId(s + [x], id)
    decreases s
  {
    if s == [] {
      assert (s + [x])[0] == x;
    } else {
      assert (s + [x])[1..] == s[1..] + [x];
      AnyHasIdAppend(s[1..], x, id);
    }
  }

  /** After the insertion, the first `defs` holds the filter. */
  lemma {:induction false} ShadowInsertedInDefs(e: Element)
    requires ContainsTag(e, "defs")
    ensures ContainsTag(WithShadowInDefs(e), "defs") && DefsHasShadow(WithShadowInDefs(e))
    decreases e
  {
    if e.tag == "defs" {
      if !AnyHasId(e.children, ShadowId) {
        AnyHasIdAppend(e.children, ShadowFilter, ShadowId);
      }
    } else {
      ShadowInsertedInFirstDefs(e.children);
    }
  }

  lemma {:induction false} ShadowInsertedInFirstDefs(s: seq<Element>)
    requires AnyContainsTag(s, "defs")
    ensures AnyContainsTag(WithShadowInFirstDefs(s), "defs") && FirstDefsHasShadow(WithShadowInFirstDefs(s))
    decreases s
  {
    var r := WithShadowInFirstDefs(s);
    if ContainsTag(s[0], "defs") {
      ShadowInsertedInDefs(s[0]);
    } else {
      assert r[1..] == WithShadowInFirstDefs(s[1..]);
      ShadowInsertedInFirstDefs(s[1..]);
    }
  }

  /** A `defs` that already holds the filter is left exactly as it is. */
  lemma {:induction false} ShadowPresentUnchanged(e: Element)
    requires DefsHasShadow(e)
    ensures ContainsTag(e, "defs") && WithShadowInDefs(e) == e
    decreases e
  {
    if e.tag != "defs" {
      ShadowPresentUnchangedAll(e.children);
    }
  }

  lemma {:induction false} ShadowPresentUnchangedAll(s: seq<Element>)
    requires FirstDefsHasShadow(s)
    ensures AnyContainsTag(s, "defs") && WithShadowInFirstDefs(s) == s
    decreases s
  {
    if ContainsTag(s[0], "defs") {
      ShadowPresentUnchanged(s[0]);
    } else {
      ShadowPresentUnchangedAll(s[1..]);
    }
  }

  /** The document holds the shared shadow filter where the styling step looks for it. */
  predicate ShadowPresent(svg: Element)
  {
    FirstDefsHasShadow(svg.children)
  }

  /** The insertion puts the filter in place, and does nothing once it is there. */
  lemma EnsureShadowFilterGuarded(svg: Element)
    ensures ShadowPresent(EnsureShadowFilter(svg))
    ensures ShadowPresent(svg) ==> EnsureShadowFilter(svg) == svg
    ensures !AnyContainsTag(svg.children, "defs") ==> EnsureShadowFilter(svg).children == [ShadowDefs] + svg.children
  {
    if AnyContainsTag(svg.children, "defs") {
      ShadowInsertedInFirstDefs(svg.children);
    } else {
      var r := EnsureShadowFilter(svg);
      assert r.children[0] == ShadowDefs;
      assert ContainsTag(ShadowDefs, "defs");
      assert AnyHasId(ShadowDefs.children, ShadowId) by {
        assert ShadowDefs.children[0] == ShadowFilter;
        assert HasId(ShadowFilter, ShadowId);
      }
    }
    if ShadowPresent(svg) {
      ShadowPresentUnchangedAll(svg.children);
    }
  }

  lemma {:induction false} SizeAllAppend(a: seq<Element>, b: seq<Element>)
    ensures SizeAll(a + b) == SizeAll(a) + SizeAll(b)
    decreases a
  {
    if a == [] {
      assert a + b == b;
    } else {
      assert (a + b)[1..] == a[1..] + b;
      SizeAllAppend(a[1..], b);
    }
  }

  lemma ShadowSizes()
    ensures SizeAll([ShadowFilter]) == 2 && SizeAll([ShadowDefs]) == 3
  {
    assert Size(DropShadow) == 1;
    assert [DropShadow][1..] == [];
    assert SizeAll([DropShadow]) == 1;
    assert Size(ShadowFilter) == 2;
    assert [ShadowFilter][1..] == [];
    assert SizeAll([ShadowFilter]) == 2;
    assert Size(ShadowDefs) == 3;
    assert [ShadowDefs][1..] == [];
  }

  lemma {:induction false} ShadowDefsSize(e: Element)
    requires ContainsTag(e, "defs")
    ensures Size(WithShadowInDefs(e)) == Size(e) + (if DefsHasShadow(e) then 0 else 2)
    decreases e
  {
    if e.tag == "defs" {
      if !AnyHasId(e.children, ShadowId) {
        SizeAllAppend(e.children, [ShadowFilter]);
        ShadowSizes();
      }
    } else {
      ShadowFirstDefsSize(e.children);
    }
  }

  lemma {:induction false} ShadowFirstDefsSize(s: seq<Element>)
    requires AnyContainsTag(s, "defs")
    ensures SizeAll(WithShadowInFirstDefs(s)) == SizeAll(s) + (if FirstDefsHasShadow(s) then 0 else 2)
    decreases s
  {
    var r := WithShadowInFirstDefs(s);
    if ContainsTag(s[0], "defs") {
      ShadowDefsSize(s[0]);
      assert r[1..] == s[1..];
    } else {
      assert r[1..] == WithShadowInFirstDefs(s[1..]);
      ShadowFirstDefsSize(s[1..]);
    }
  }

  /** The insertion adds exactly the elements it creates: a `defs` with its filter and the
      filter's primitive (3) when there was no `defs`, the filter and its primitive (2)
      when the first `defs` lacked it, and nothing otherwise. */
  lemma EnsureShadowFilterSize(svg: Element)
    ensures Size(EnsureShadowFilter(svg)) ==
      Size(svg) + (if !AnyContainsTag(svg.children, "defs") then 3 else if ShadowPresent(svg) then 0 else 2)
  {
    if AnyContainsTag(svg.children, "defs") {
      ShadowFirstDefsSize(svg.children);
    } else {
      SizeAllAppend([ShadowDefs], svg.children);
      ShadowSizes();
    }
  }

  // ---------------------------------------------------------------------------
  // The styling step as a whole

  /** The styling step is the guarded shadow insertion followed by one overlay of all eight
      passes, in source order, on the root-sized document. */
  lemma StyleSvgNormalForm(svg: Element, custom: Option<CustomTheme>)
    ensures StyleSvg(svg, custom) == Restyle(EnsureShadowFilter(SizeRoot(svg)), AllRules(ThemeFor(custom)))
  {
    var t := ThemeFor(custom);
    var sized := SizeRoot(svg);
    ColorRulesNeverSetId(t);
    assert NeverSetsId(ColorRules(t));
    RunPassesIsRestyle(sized, ColorRules(t));
    EnsureShadowCommutesWithRestyle(sized, ColorRules(t));
    RestyleCompose(EnsureShadowFilter(sized), ColorRules(t), [ShadowRule]);
  }

  lemma RestyleIdempotent(svg: Element, rules: seq<Rule>)
    ensures Restyle(Restyle(svg, rules), rules) == Restyle(svg, rules)
  {
    var anc := [LabelOf(svg)];
    var kids := StyledAll(svg.children, anc, rules);
    forall i | 0 <= i < |svg.children|
      ensures StyledAll(kids, anc, rules)[i] == kids[i]
    {
      StyledIdempotent(svg.children[i], anc, rules);
    }
    assert StyledAll(kids, anc, rules) == kids;
  }

  lemma RestyleKeepsShadowPresent(svg: Element, rules: seq<Rule>)
    requires NeverSetsId(rules)
    ensures ShadowPresent(Restyle(svg, rules)) == ShadowPresent(svg)
  {
    StyledAllKeepsShadow(svg.children, [LabelOf(svg)], rules);
  }

  /** A document already in the styled form is a fixed point of the styling step. */
  lemma StyleSvgFixedPoint(e: Element, custom: Option<CustomTheme>)
    requires ShadowPresent(e) && SizeRoot(e) == e
    ensures var y := Restyle(e, AllRules(ThemeFor(custom))); StyleSvg(y, custom) == y
  {
    var rules := AllRules(ThemeFor(custom));
    ColorRulesNeverSetId(ThemeFor(custom));
    var y := Restyle(e, rules);
    StyleSvgNormalForm(y, custom);
    assert SizeRoot(y) == y;
    RestyleKeepsShadowPresent(e, rules);
    EnsureShadowFilterGuarded(y);
    RestyleIdempotent(e, rules);
  }

  /** Styling an already styled document with the same theme changes nothing: no second
      filter is inserted and no attribute changes value. */
  lemma StyleSvgIdempotent(svg: Element, custom: Option<CustomTheme>)
    ensures StyleSvg(StyleSvg(svg, custom), custom) == StyleSvg(svg, custom)
  {
    var e := EnsureShadowFilter(SizeRoot(svg));
    StyleSvgNormalForm(svg, custom);
    EnsureShadowFilterGuarded(SizeRoot(svg));
    SizedStaysSized(svg);
    StyleSvgFixedPoint(e, custom);
  }

  lemma SizedStaysSized(svg: Element)
    ensures var e := EnsureShadowFilter(SizeRoot(svg)); SizeRoot(e) == e
  {
    var m := svg.style["max-width" := "100%"]["height" := "auto"];
    assert m["max-width" := "100%"]["height" := "auto"] == m;
  }

  lemma {:induction false} BareKeepsSize(e: Element)
    ensures Size(Bare(e)) == Size(e)
    decreases e
  {
    BareAllKeepsSize(e.children);
  }

  lemma {:induction false} BareAllKeepsSize(s: seq<Element>)
    ensures SizeAll(BareAll(s)) == SizeAll(s)
    decreases s
  {
    if s != [] {
      assert BareAll(s)[1..] == BareAll(s[1..]);
      BareKeepsSize(s[0]);
      BareAllKeepsSize(s[1..]);
    }
  }

  /** The only structural change of the styling step is the guarded insertion: with
      attributes and styles set aside, the styled document is the input after the
      insertion, and the element count grows by 3, 2 or 0 accordingly. */
  lemma StyleSvgKeepsStructure(svg: Element, custom: Option<CustomTheme>)
    ensures Bare(StyleSvg(svg, custom)) == Bare(EnsureShadowFilter(svg))
    ensures Size(StyleSvg(svg, custom)) ==
      Size(svg) + (if !AnyContainsTag(svg.children, "defs") then 3 else if ShadowPresent(svg) then 0 else 2)
    ensures ShadowPresent(svg) ==> Bare(StyleSvg(svg, custom)) == Bare(svg)
  {
    var rules := AllRules(ThemeFor(custom));
    StyleSvgNormalForm(svg, custom);
    var e := EnsureShadowFilter(SizeRoot(svg));
    assert e == SizeRoot(EnsureShadowFilter(svg));
    StyledAllKeepsShape(e.children, [LabelOf(e)], rules);
    BareKeepsSize(StyleSvg(svg, custom));
    BareKeepsSize(EnsureShadowFilter(svg));
    EnsureShadowFilterSize(svg);
    EnsureShadowFilterGuarded(svg);
  }

  // ---------------------------------------------------------------------------
  // What each element receives

  /** Styling acts on the element at any path through what the rules do to that element
      alone, given its ancestors: tag, classes, attributes and style of the styled element
      are those of the overlay on the original one. */
  lemma {:induction false} StyledAt(e: Element, ancestors: seq<Label>, rules: seq<Rule>, path: seq<nat>)
    requires At(e, path).Some?
    ensures At(Styled(e, ancestors, rules), path).Some?
    ensures var styled := At(Styled(e, ancestors, rules), path).value;
      var own := Own(At(e, path).value, AncestryAt(e, ancestors, path), rules);
      styled.tag == own.tag && styled.classes == own.classes
      && styled.attrs == own.attrs && styled.style == own.style
    decreases |path|
  {
    if path != [] {
      StyledAt(e.children[path[0]], ancestors + [LabelOf(e)], rules, path[1..]);
    }
  }

  /** The net updates of a rule list, rule by rule. */
  function RuleUpdates(e: Label, ancestors: seq<Label>, rules: seq<Rule>, t: Target): map<string, string>
    decreases |rules|
  {
    if rules == [] then map[]
    else (if Matches(rules[0].selector, e, ancestors) then Updates(rules[0].settings, t) else map[])
         + RuleUpdates(e, ancestors, rules[1..], t)
  }

  lemma {:induction false} MatchedUpdates(e: Label, ancestors: seq<Label>, rules: seq<Rule>, t: Target)
    ensures Updates(Matched(e, ancestors, rules), t) == RuleUpdates(e, ancestors, rules, t)
    decreases |rules|
  {
    if rules != [] {
      var head := if Matches(rules[0].selector, e, ancestors) then rules[0].settings else [];
      UpdatesConcat(head, Matched(e, ancestors, rules[1..]), t);
      MatchedUpdates(e, ancestors, rules[1..], t);
    }
  }

  /** The attribute values the eight passes write on an element with label `l`. */
  function NetAttrs(l: Label, ancestors: seq<Label>, t: CustomTheme): map<string, string>
  {
    RuleUpdates(l, ancestors, AllRules(t), Attribute)
  }

  /** The inline-style values the eight passes write on an element with label `l`. */
  function NetStyle(l: Label, ancestors: seq<Label>, t: CustomTheme): map<string, string>
  {
    RuleUpdates(l, ancestors, AllRules(t), InlineStyle)
  }

  /** What the four shape passes contribute to the attributes. */
  lemma AttrContributionsOfShapes(l: Label, ancestors: seq<Label>, t: CustomTheme)
    ensures var rs := AllRules(t); var r := IntToString(t.borderRadius);
      && RuleContribution(l, ancestors, rs[0], Attribute)
         == (if Matches(NodeRect, l, ancestors) then map["rx" := r, "ry" := r] else map[])
      && RuleContribution(l, ancestors, rs[1], Attribute)
         == (if Matches(NodeShape, l, ancestors) then map["stroke" := t.borderColor] else map[])
      && RuleContribution(l, ancestors, rs[2], Attribute)
         == (if Matches(DefaultNodeShape, l, ancestors) then map["fill" := t.secondaryFill] else map[])
      && RuleContribution(l, ancestors, rs[3], Attribute) == map[]
  {
    var r := IntToString(t.borderRadius);
    UpdatesTwo(Setting(Attribute, "rx", r), Setting(Attribute, "ry", r), Attribute);
    UpdatesOne(Setting(Attribute, "stroke", t.borderColor), Attribute);
    UpdatesOne(Setting(Attribute, "fill", t.secondaryFill), Attribute);
    UpdatesOther(Setting(InlineStyle, "color", t.textColor), Attribute);
  }

  /** What the text, edge, marker and shadow passes contribute to the attributes. */
  lemma AttrContributionsOfEdges(l: Label, ancestors: seq<Label>, t: CustomTheme)
    ensures var rs := AllRules(t);
      && RuleContribution(l, ancestors, rs[4], Attribute)
         == (if Matches(TextElement, l, ancestors) then map["fill" := t.textColor] else map[])
      && RuleContribution(l, ancestors, rs[5], Attribute)
         == (if Matches(EdgePath, l, ancestors) then map["stroke" := t.edgeColor] else map[])
      && RuleContribution(l, ancestors, rs[6], Attribute)
         == (if Matches(Marker, l, ancestors) then map["fill" := t.edgeColor, "stroke" := t.edgeColor] else map[])
      && RuleContribution(l, ancestors, rs[7], Attribute) == map[]
  {
    UpdatesTwo(Setting(Attribute, "fill", t.edgeColor), Setting(Attribute, "stroke", t.edgeColor), Attribute);
    UpdatesOne(Setting(Attribute, "stroke", t.edgeColor), Attribute);
    UpdatesOne(Setting(Attribute, "fill", t.textColor), Attribute);
    UpdatesOther(Setting(InlineStyle, "filter", "url(#pretty-shadow)"), Attribute);
  }

  /** What the four shape passes contribute to the inline style. */
  lemma StyleContributionsOfShapes(l: Label, ancestors: seq<Label>, t: CustomTheme)
    ensures var rs := AllRules(t);
      && RuleContribution(l, ancestors, rs[0], InlineStyle) == map[]
      && RuleContribution(l, ancestors, rs[1], InlineStyle) == map[]
      && RuleContribution(l, ancestors, rs[2], InlineStyle) == map[]
      && RuleContribution(l, ancestors, rs[3], InlineStyle)
         == (if Matches(LabelText, l, ancestors) then map["color" := t.textColor] else map[])
  {
    var r := IntToString(t.borderRadius);
    UpdatesOtherTwo(Setting(Attribute, "rx", r), Setting(Attribute, "ry", r), InlineStyle);
    UpdatesOther(Setting(Attribute, "stroke", t.borderColor), InlineStyle);
    UpdatesOther(Setting(Attribute, "fill", t.secondaryFill), InlineStyle);
    UpdatesOne(Setting(InlineStyle, "color", t.textColor), InlineStyle);
  }

  /** What the text, edge, marker and shadow passes contribute to the inline style. */
  lemma StyleContributionsOfEdges(l: Label, ancestors: seq<Label>, t: CustomTheme)
    ensures var rs := AllRules(t);
      && RuleContribution(l, ancestors, rs[4], InlineStyle) == map[]
      && RuleContribution(l, ancestors, rs[5], InlineStyle) == map[]
      && RuleContribution(l, ancestors, rs[6], InlineStyle) == map[]
      && RuleContribution(l, ancestors, rs[7], InlineStyle)
         == (if Matches(NodeGroup, l, ancestors) then map["filter" := "url(#pretty-shadow)"] else map[])
  {
    UpdatesOtherTwo(Setting(Attribute, "fill", t.edgeColor), Setting(Attribute, "stroke", t.edgeColor), InlineStyle);
    UpdatesOther(Setting(Attribute, "stroke", t.edgeColor), InlineStyle);
    UpdatesOther(Setting(Attribute, "fill", t.textColor), InlineStyle);
    UpdatesOne(Setting(InlineStyle, "filter", "url(#pretty-shadow)"), InlineStyle);
  }

  /** The passes write only `rx`, `ry`, `stroke` and `fill`. */
  lemma NetAttrsKeys(l: Label, ancestors: seq<Label>, t: CustomTheme)
    ensures forall k :: k in NetAttrs(l, ancestors, t) ==> k == "rx" || k == "ry" || k == "stroke" || k == "fill"
  {
    UnfoldAllRules(l, ancestors, t, Attribute);
    AttrContributionsOfShapes(l, ancestors, t);
    AttrContributionsOfEdges(l, ancestors, t);
  }

  /** The radius goes on node rects, and only there. */
  lemma NetRadius(l: Label, ancestors: seq<Label>, t: CustomTheme)
    ensures var n := NetAttrs(l, ancestors, t);
      && ("rx" in n <==> Matches(NodeRect, l, ancestors))
      && ("ry" in n <==> Matches(NodeRect, l, ancestors))
      && (Matches(NodeRect, l, ancestors) ==>
            n["rx"] == IntToString(t.borderRadius) && n["ry"] == IntToString(t.borderRadius))
  {
    UnfoldAllRules(l, ancestors, t, Attribute);
    AttrContributionsOfShapes(l, ancestors, t);
    AttrContributionsOfEdges(l, ancestors, t);
  }

  /** The stroke: the edge colour on edge paths and markers (the later passes), else the
      border colour on node shapes. */
  lemma NetStroke(l: Label, ancestors: seq<Label>, t: CustomTheme)
    ensures var n := NetAttrs(l, ancestors, t);
      && ("stroke" in n <==>
            Matches(NodeShape, l, ancestors) || Matches(EdgePath, l, ancestors) || Matches(Marker, l, ancestors))
      && (Matches(NodeShape, l, ancestors) && !Matches(EdgePath, l, ancestors) && !Matches(Marker, l, ancestors) ==>
            n["stroke"] == t.borderColor)
      && (Matches(EdgePath, l, ancestors) || Matches(Marker, l, ancestors) ==> n["stroke"] == t.edgeColor)
  {
    UnfoldAllRules(l, ancestors, t, Attribute);
    AttrContributionsOfShapes(l, ancestors, t);
    AttrContributionsOfEdges(l, ancestors, t);
  }

  /** The fill: the edge colour on markers (the last colour pass), else the text colour on
      text, else the secondary fill on default node shapes. */
  lemma NetFill(l: Label, ancestors: seq<Label>, t: CustomTheme)
    ensures var n := NetAttrs(l, ancestors, t);
      && ("fill" in n <==>
            Matches(DefaultNodeShape, l, ancestors) || Matches(TextElement, l, ancestors) || Matches(Marker, l, ancestors))
      && (Matches(DefaultNodeShape, l, ancestors) && !Matches(TextElement, l, ancestors) && !Matches(Marker, l, ancestors) ==>
            n["fill"] == t.secondaryFill)
      && (Matches(TextElement, l, ancestors) && !Matches(Marker, l, ancestors) ==> n["fill"] == t.textColor)
      && (Matches(Marker, l, ancestors) ==> n["fill"] == t.edgeColor)
  {
    UnfoldAllRules(l, ancestors, t, Attribute);
    AttrContributionsOfShapes(l, ancestors, t);
    AttrContributionsOfEdges(l, ancestors, t);
  }

  /** Which inline-style values the passes write: `color` on label text, the shadow
      `filter` on node groups, nothing else. */
  lemma NetStyleByCategory(l: Label, ancestors: seq<Label>, t: CustomTheme)
    ensures var n := NetStyle(l, ancestors, t);
      && (forall k :: k in n ==> k == "color" || k == "filter")
      && ("color" in n <==> Matches(LabelText, l, ancestors))
      && (Matches(LabelText, l, ancestors) ==> n["color"] == t.textColor)
      && ("filter" in n <==> Matches(NodeGroup, l, ancestors))
      && (Matches(NodeGroup, l, ancestors) ==> n["filter"] == "url(#pretty-shadow)")
  {
    UnfoldAllRules(l, ancestors, t, InlineStyle);
    StyleContributionsOfShapes(l, ancestors, t);
    StyleContributionsOfEdges(l, ancestors, t);
  }

  /** What the eight passes leave on one element: its own attributes and style overlaid
      with the net writes above, and nothing else changed. An element no selector
      selects is left as it is. */
  lemma ThemeAttributesByCategory(e: Element, ancestors: seq<Label>, t: CustomTheme)
    ensures var l := LabelOf(e); var o := Own(e, ancestors, AllRules(t));
      && o.tag == e.tag && o.classes == e.classes && o.children == e.children
      && o.attrs == e.attrs + NetAttrs(l, ancestors, t)
      && o.style == e.style + NetStyle(l, ancestors, t)
      && ((forall sel :: !Matches(sel, l, ancestors)) ==> o == e)
  {
    var l := LabelOf(e);
    var rules := AllRules(t);
    MatchedUpdates(l, ancestors, rules, Attribute);
    MatchedUpdates(l, ancestors, rules, InlineStyle);
    if forall sel :: !Matches(sel, l, ancestors) {
      assert Matched(l, ancestors, rules) == [] by {
        NothingMatchedWhenUnselected(l, ancestors, rules);
      }
      assert e.attrs + map[] == e.attrs;
      assert e.style + map[] == e.style;
    }
  }

  lemma {:induction false} NothingMatchedWhenUnselected(l: Label, ancestors: seq<Label>, rules: seq<Rule>)
    requires forall sel :: !Matches(sel, l, ancestors)
    ensures Matched(l, ancestors, rules) == []
    decreases |rules|
  {
    if rules != [] {
      NothingMatchedWhenUnselected(l, ancestors, rules[1..]);
    }
  }

  /** The contribution of one rule to the net updates. */
  function RuleContribution(e: Label, ancestors: seq<Label>, rule: Rule, t: Target): map<string, string>
  {
    if Matches(rule.selector, e, ancestors) then Updates(rule.settings, t) else map[]
  }

  lemma RuleUpdatesStep(e: Label, ancestors: seq<Label>, rules: seq<Rule>, i: nat, t: Target)
    requires i < |rules|
    ensures RuleUpdates(e, ancestors, rules[i..], t)
         == RuleContribution(e, ancestors, rules[i], t) + RuleUpdates(e, ancestors, rules[i + 1..], t)
  {
    assert rules[i..][1..] == rules[i + 1..];
  }

  lemma UnfoldAllRules(e: Label, ancestors: seq<Label>, t: CustomTheme, tg: Target)
    ensures var rs := AllRules(t);
      RuleUpdates(e, ancestors, rs, tg)
      == RuleContribution(e, ancestors, rs[0], tg) + (RuleContribution(e, ancestors, rs[1], tg)
       + (RuleContribution(e, ancestors, rs[2], tg) + (RuleContribution(e, ancestors, rs[3], tg)
       + (RuleContribution(e, ancestors, rs[4], tg) + (RuleContribution(e, ancestors, rs[5], tg)
       + (RuleContribution(e, ancestors, rs[6], tg) + (RuleContribution(e, ancestors, rs[7], tg) + map[])))))))
  {
    var rs := AllRules(t);
    assert |rs| == 8;
    assert rs[8..] == [];
    RuleUpdatesStep(e, ancestors, rs, 7, tg);
    RuleUpdatesStep(e, ancestors, rs, 6, tg);
    RuleUpdatesStep(e, ancestors, rs, 5, tg);
    RuleUpdatesStep(e, ancestors, rs, 4, tg);
    RuleUpdatesStep(e, ancestors, rs, 3, tg);
    RuleUpdatesStep(e, ancestors, rs, 2, tg);
    RuleUpdatesStep(e, ancestors, rs, 1, tg);
    RuleUpdatesStep(e, ancestors, rs, 0, tg);
    assert rs[0..] == rs;
  }

  lemma UpdatesOne(s: Setting, t: Target)
    requires s.target == t
    ensures Updates([s], t) == map[s.key := s.value]
  {
    assert [s][1..] == [];
    assert map[s.key := s.value] + map[] == map[s.key := s.value];
  }

  lemma UpdatesTwo(s1: Setting, s2: Setting, t: Target)
    requires s1.target == t && s2.target == t && s1.key != s2.key
    ensures Updates([s1, s2], t) == map[s1.key := s1.value, s2.key := s2.value]
  {
    assert [s1, s2][1..] == [s2];
    UpdatesOne(s2, t);
    assert map[s1.key := s1.value] + map[s2.key := s2.value] == map[s1.key := s1.value, s2.key := s2.value];
  }

  lemma UpdatesOther(s: Setting, t: Target)
    requires s.target != t
    ensures Updates([s], t) == map[]
  {
    assert [s][1..] == [];
    var none: map<string, string> := map[];
    assert none + none == none;
  }

  lemma UpdatesOtherTwo(s1: Setting, s2: Setting, t: Target)
    requires s1.target != t && s2.target != t
    ensures Updates([s1, s2], t) == map[]
  {
    assert [s1, s2][1..] == [s2];
    UpdatesOther(s2, t);
    var none: map<string, string> := map[];
    assert none + none == none;
  }
}
