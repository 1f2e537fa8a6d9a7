/** The rendered SVG document as a generic element tree, and the structural categories
    the styling step selects elements by. Text nodes are not represented. */
module SvgTree {
  import opened Wrappers

  /** An element: its tag name, class list, attributes, inline style declarations
      (property name to value) and child elements in document order. */
  datatype Element = Element(
    tag: string,
    classes: set<string>,
    attrs: map<string, string>,
    style: map<string, string>,
    children: seq<Element>)

  /** What a selector can see of an element: its tag and its classes. */
  datatype Label = Label(tag: string, classes: set<string>)

  function LabelOf(e: Element): Label
  {
    Label(e.tag, e.classes)
  }

  /** Some ancestor (the list runs from the outermost down to the parent) has class `c`. */
  predicate AncestorHasClass(ancestors: seq<Label>, c: string)
  {
    exists i :: 0 <= i < |ancestors| && c in ancestors[i].classes
  }

  /** Some ancestor has tag `t`. */
  predicate AncestorHasTag(ancestors: seq<Label>, t: string)
  {
    exists i :: 0 <= i < |ancestors| && ancestors[i].tag == t
  }

  /** The selectors of the styling step, one per `querySelectorAll` call. */
  datatype Selector =
    | NodeRect          // `.node rect`
    | NodeShape         // `.node rect, .node circle, .node ellipse, .node polygon`
    | DefaultNodeShape  // `.node.default > rect, .node.default > polygon`
    | LabelText         // `.nodeLabel, .label, .edgeLabel span`
    | TextElement       // `text`
    | EdgePath          // `.edgePath .path, .flowchart-link`
    | Marker            // `marker path, .marker`
    | NodeGroup         // `.node`

  /** Whether an element with label `e` under `ancestors` is selected by `sel`. */
  predicate Matches(sel: Selector, e: Label, ancestors: seq<Label>)
  {
    match sel
    case NodeRect =>
      e.tag == "rect" && AncestorHasClass(ancestors, "node")
    case NodeShape =>
      (e.tag == "rect" || e.tag == "circle" || e.tag == "ellipse" || e.tag == "polygon")
      && AncestorHasClass(ancestors, "node")
    case DefaultNodeShape =>
      (e.tag == "rect" || e.tag == "polygon")
      && |ancestors| > 0
      && "node" in ancestors[|ancestors| - 1].classes
      && "default" in ancestors[|ancestors| - 1].classes
    case LabelText =>
      "nodeLabel" in e.classes || "label" in e.classes
      || (e.tag == "span" && AncestorHasClass(ancestors, "edgeLabel"))
    case TextElement =>
      e.tag == "text"
    case EdgePath =>
      ("path" in e.classes && AncestorHasClass(ancestors, "edgePath")) || "flowchart-link" in e.classes
    case Marker =>
      (e.tag == "path" && AncestorHasTag(ancestors, "marker")) || "marker" in e.classes
    case NodeGroup =>
      "node" in e.classes
  }

  // ---------------------------------------------------------------------------
  // Queries over the tree

  /** `e` or one of its descendants has tag `t`. */
  predicate ContainsTag(e: Element, t: string)
    decreases e
  {
    e.tag == t || AnyContainsTag(e.children, t)
  }

  predicate AnyContainsTag(s: seq<Element>, t: string)
    decreases s
  {
    |s| > 0 && (ContainsTag(s[0], t) || AnyContainsTag(s[1..], t))
  }

  /** `e` or one of its descendants has the id `id` (what `#id` selects). */
  predicate HasId(e: Element, id: string)
    decreases e
  {
    ("id" in e.attrs && e.attrs["id"] == id) || AnyHasId(e.children, id)
  }

  predicate AnyHasId(s: seq<Element>, id: string)
    decreases s
  {
    |s| > 0 && (HasId(s[0], id) || AnyHasId(s[1..], id))
  }

  /** The number of elements in the tree. */
  function Size(e: Element): nat
    decreases e
  {
    1 + SizeAll(e.children)
  }

  function SizeAll(s: seq<Element>): nat
    decreases s
  {
    if s == [] then 0 else Size(s[0]) + SizeAll(s[1..])
  }

  /** The tree with every attribute and inline style removed: tags, classes and the
      parent/child structure only. */
  function Bare(e: Element): Element
    decreases e
  {
    Element(e.tag, e.classes, map[], map[], BareAll(e.children))
  }

  function BareAll(s: seq<Element>): seq<Element>
    decreases s
  {
    if s == [] then [] else [Bare(s[0])] + BareAll(s[1..])
  }

  /** The element reached by following child indexes from `e`, if the path exists. */
  function At(e: Element, path: seq<nat>): Option<Element>
    decreases |path|
  {
    if path == [] then Some(e)
    else if path[0] < |e.children| then At(e.children[path[0]], path[1..])
    else None
  }

  /** The labels of the ancestors of the element at `path`, given those of `e`. */
  function AncestryAt(e: Element, ancestors: seq<Label>, path: seq<nat>): seq<Label>
    decreases |path|
  {
    if path == [] || path[0] >= |e.children| then ancestors
    else AncestryAt(e.children[path[0]], ancestors + [LabelOf(e)], path[1..])
  }
}
