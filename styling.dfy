/** The post-render styling step: a fixed list of selector passes that set attributes and
    inline styles from the custom theme, and the guarded insertion of a shared drop-shadow
    filter definition. */
module Styling {
  import opened Wrappers
  import opened SvgTree
  import opened Theme

  // ---------------------------------------------------------------------------
  // Settings and passes

  /** Where a setting writes: an attribute (`setAttribute`) or an inline style property. */
  datatype Target = Attribute | InlineStyle

  datatype Setting = Setting(target: Target, key: string, value: string)

  /** One `querySelectorAll(...).forEach(...)` pass: a selector and the settings made on
      every element it selects, in order. */
  datatype Rule = Rule(selector: Selector, settings: seq<Setting>)

  /** The net change a list of settings makes to one of the two maps; a later setting of
      the same key wins. */
  function Updates(ss: seq<Setting>, t: Target): map<string, string>
    decreases |ss|
  {
    if ss == [] then map[]
    else (if ss[0].target == t then map[ss[0].key := ss[0].value] else map[]) + Updates(ss[1..], t)
  }

  function Set(e: Element, s: Setting): Element
  {
    match s.target
    case Attribute => e.(attrs := e.attrs[s.key := s.value])
    case InlineStyle => e.(style := e.style[s.key := s.value])
  }

  /** The settings made one after another on one element. The result is the element with
      the net updates laid over its attributes and style; tag, classes and children stay. */
  function SetAll(e: Element, ss: seq<Setting>): (r: Element)
    ensures r == e.(attrs := e.attrs + Updates(ss, Attribute), style := e.style + Updates(ss, InlineStyle))
    decreases |ss|
  {
    if ss == [] then e
    else
      MapLayers(e.attrs, ss[0], Updates(ss[1..], Attribute), Attribute);
      MapLayers(e.style, ss[0], Updates(ss[1..], InlineStyle), InlineStyle);
      SetAll(Set(e, ss[0]), ss[1..])
  }

  /** One setting followed by later updates is the same as laying the combined updates over
      the original map. */
  lemma MapLayers(m: map<string, string>, s: Setting, later: map<string, string>, t: Target)
    ensures s.target == t ==> m[s.key := s.value] + later == m + (map[s.key := s.value] + later)
    ensures s.target != t ==> m + later == m + (map[] + later)
  {
    if s.target == t {
      var lhs := m[s.key := s.value] + later;
      var rhs := m + (map[s.key := s.value] + later);
      assert lhs.Keys == rhs.Keys;
      forall k | k in lhs ensures lhs[k] == rhs[k] {
      }
    } else {
      assert map[] + later == later;
    }
  }

  /** The settings of every rule whose selector selects the element, in rule order. */
  function Matched(e: Label, ancestors: seq<Label>, rules: seq<Rule>): seq<Setting>
    decreases |rules|
  {
    if rules == [] then []
    else (if Matches(rules[0].selector, e, ancestors) then rules[0].settings else [])
         + Matched(e, ancestors, rules[1..])
  }

  /** What the rules do to one element itself (its children are left as they are). */
  function Own(e: Element, ancestors: seq<Label>, rules: seq<Rule>): Element
  {
    SetAll(e, Matched(LabelOf(e), ancestors, rules))
  }

  /** The rules applied to `e` and to every element below it. */
  function Styled(e: Element, ancestors: seq<Label>, rules: seq<Rule>): Element
    decreases e
  {
    Own(e, ancestors, rules).(children := StyledAll(e.children, ancestors + [LabelOf(e)], rules))
  }

  function StyledAll(s: seq<Element>, ancestors: seq<Label>, rules: seq<Rule>): (r: seq<Element>)
    ensures |r| == |s|
    ensures forall i :: 0 <= i < |s| ==> r[i] == Styled(s[i], ancestors, rules)
    decreases s
  {
    if s == [] then [] else [Styled(s[0], ancestors, rules)] + StyledAll(s[1..], ancestors, rules)
  }

  /** The rules applied to the descendants of the SVG root: `svg.querySelectorAll` never
      selects the root itself. */
  function Restyle(svg: Element, rules: seq<Rule>): Element
  {
    svg.(children := StyledAll(svg.children, [LabelOf(svg)], rules))
  }

  /** The passes run one after another, each over the whole document. */
  function RunPasses(svg: Element, rules: seq<Rule>): Element
    decreases |rules|
  {
    if rules == [] then svg else RunPasses(Restyle(svg, [rules[0]]), rules[1..])
  }

  // ---------------------------------------------------------------------------
  // The passes of the styling step

  function DigitChar(d: nat): char
    requires d < 10
  {
    "0123456789"[d]
  }

  function NatToString(n: nat): string
  {
    if n < 10 then [DigitChar(n)] else NatToString(n / 10) + [DigitChar(n % 10)]
  }

  /** `String(n)` for an integer of magnitude below 10^21 (JavaScript switches to exponent form above). */
  function IntToString(n: int): string
  {
    if n < 0 then "-" + NatToString(-n) else NatToString(n)
  }

  /** The seven colour and shape passes, in the order the styling step runs them. */
  function ColorRules(t: CustomTheme): seq<Rule>
  {
    var r := IntToString(t.borderRadius);
    [ Rule(NodeRect, [Setting(Attribute, "rx", r), Setting(Attribute, "ry", r)]),
      Rule(NodeShape, [Setting(Attribute, "stroke", t.borderColor)]),
      Rule(DefaultNodeShape, [Setting(Attribute, "fill", t.secondaryFill)]),
      Rule(LabelText, [Setting(InlineStyle, "color", t.textColor)]),
      Rule(TextElement, [Setting(Attribute, "fill", t.textColor)]),
      Rule(EdgePath, [Setting(Attribute, "stroke", t.edgeColor)]),
      Rule(Marker, [Setting(Attribute, "fill", t.edgeColor), Setting(Attribute, "stroke", t.edgeColor)]) ]
  }

  const ShadowId: string := "pretty-shadow"

  /** The last pass: every node group refers to the shared shadow filter. */
  const ShadowRule: Rule := Rule(NodeGroup, [Setting(InlineStyle, "filter", "url(#pretty-shadow)")])

  function AllRules(t: CustomTheme): seq<Rule>
  {
    ColorRules(t) + [ShadowRule]
  }

  /** No rule writes the `id` attribute, so no pass changes what `#id` selects. */
  predicate NeverSetsId(rules: seq<Rule>)
  {
    forall r :: r in rules ==> forall s :: s in r.settings ==> s.target == InlineStyle || s.key != "id"
  }

  // ---------------------------------------------------------------------------
  // The shadow filter

  const DropShadow: Element := Element(
    "feDropShadow", {},
    map["dx" := "0", "dy" := "2", "stdDeviation" := "3", "flood-opacity" := "0.1"],
    map[], [])

  const ShadowFilter: Element := Element(
    "filter", {},
    map["id" := ShadowId, "x" := "-20%", "y" := "-20%", "width" := "140%", "height" := "140%"],
    map[], [DropShadow])

  /** A new `defs` element, with the filter already appended to it. */
  const ShadowDefs: Element := Element("defs", {}, map[], map[], [ShadowFilter])

  /** Appends the filter to the first `defs` in document order among `s` and their
      descendants, unless that `defs` already holds an element with id `pretty-shadow`. */
  function WithShadowInFirstDefs(s: seq<Element>): seq<Element>
    decreases s
  {
    if s == [] then s
    else if ContainsTag(s[0], "defs") then [WithShadowInDefs(s[0])] + s[1..]
    else [s[0]] + WithShadowInFirstDefs(s[1..])
  }

  function WithShadowInDefs(e: Element): Element
    decreases e
  {
    if e.tag == "defs" then
      if AnyHasId(e.children, ShadowId) then e else e.(children := e.children + [ShadowFilter])
    else e.(children := WithShadowInFirstDefs(e.children))
  }

  /** The first `defs` in document order already holds the shadow filter. */
  predicate FirstDefsHasShadow(s: seq<Element>)
    decreases s
  {
    if s == [] then false
    else if ContainsTag(s[0], "defs") then DefsHasShadow(s[0])
    else FirstDefsHasShadow(s[1..])
  }

  predicate DefsHasShadow(e: Element)
    decreases e
  {
    if e.tag == "defs" then AnyHasId(e.children, ShadowId) else FirstDefsHasShadow(e.children)
  }

  /** The guarded insertion: a new `defs` holding the filter goes in as the root's first
      child when the document has no `defs`; otherwise the filter is appended to the first
      `defs` unless it is already there. */
  function EnsureShadowFilter(svg: Element): Element
  {
    if AnyContainsTag(svg.children, "defs") then svg.(children := WithShadowInFirstDefs(svg.children))
    else svg.(children := [ShadowDefs] + svg.children)
  }

  /** Makes the root responsive: `max-width: 100%` and `height: auto`. */
  function SizeRoot(svg: Element): Element
  {
    svg.(style := svg.style["max-width" := "100%"]["height" := "auto"])
  }

  /** The theme the styling step uses: the custom theme, or `modern`'s defaults without one. */
  function ThemeFor(custom: Option<CustomTheme>): CustomTheme
  {
    custom.GetOr(ModernDefaults)
  }

  /** The whole styling step on the rendered SVG root, in the order of the source:
      root sizing, the seven colour passes, the shadow filter insertion, the shadow pass. */
  function StyleSvg(svg: Element, custom: Option<CustomTheme>): Element
  {
    var t := ThemeFor(custom);
    var colored := RunPasses(SizeRoot(svg), ColorRules(t));
    Restyle(EnsureShadowFilter(colored), [ShadowRule])
  }

  /** The passes of the styling step, one `forEach` over the document after another. */
  method ApplyPasses(svg: Element, rules: seq<Rule>) returns (r: Element)
    ensures r == RunPasses(svg, rules)
  {
    r := svg;
    var i := 0;
    while i < |rules|
      invariant 0 <= i <= |rules|
      invariant RunPasses(r, rules[i..]) == RunPasses(svg, rules)
    {
      assert rules[i..][1..] == rules[i + 1..];
      r := Restyle(r, [rules[i]]);
      i := i + 1;
    }
  }

  /** The styling step, statement by statement. */
  method StyleSvgSteps(svg: Element, custom: Option<CustomTheme>) returns (r: Element)
    ensures r == StyleSvg(svg, custom)
  {
    var t := ThemeFor(custom);
    r := SizeRoot(svg);
    r := ApplyPasses(r, ColorRules(t));
    r := EnsureShadowFilter(r);
    r := Restyle(r, [ShadowRule]);
  }
}
