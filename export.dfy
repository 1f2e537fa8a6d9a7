/** Preparing the shown diagram for export: a copy of the SVG root with the XML
    namespaces declared and a full-size background rectangle painted first. */
module Export {
  import opened Text
  import opened SvgTree

  const SvgNamespace: string := "http://www.w3.org/2000/svg"
  const XlinkNamespace: string := "http://www.w3.org/1999/xlink"
  const DefaultBackground: string := "#ffffff"

  /** The background colour: the trimmed value of the preview's `--mermaid-bg` variable,
      or white when that is empty or only white space. */
  function BackgroundColor(bgVariable: string): (r: string)
    ensures Trim(bgVariable) == [] ==> r == DefaultBackground
    ensures Trim(bgVariable) != [] ==> r == Trim(bgVariable)
    ensures r != [] && !IsWhitespace(r[0]) && !IsWhitespace(r[|r| - 1])
  {
    var v := Trim(bgVariable);
    TrimIsSlice(bgVariable);
    if v == [] then
      assert DefaultBackground[0] == '#' && DefaultBackground[6] == 'f';
      DefaultBackground
    else v
  }

  /** The background rectangle: full width and height, filled with the colour. */
  function BackgroundRect(color: string): (r: Element)
    ensures r.tag == "rect" && r.children == [] && r.attrs.Keys == {"width", "height", "fill"}
    ensures r.attrs["width"] == "100%" && r.attrs["height"] == "100%" && r.attrs["fill"] == color
    ensures Size(r) == 1
  {
    Element("rect", {}, map["width" := "100%", "height" := "100%", "fill" := color], map[], [])
  }

  /** The root's attributes with both namespaces declared, every other attribute kept. */
  function WithNamespaces(attrs: map<string, string>): (r: map<string, string>)
    ensures r.Keys == attrs.Keys + {"xmlns", "xmlns:xlink"}
    ensures r["xmlns"] == SvgNamespace && r["xmlns:xlink"] == XlinkNamespace
    ensures forall k :: k in attrs && k != "xmlns" && k != "xmlns:xlink" ==> r[k] == attrs[k]
  {
    attrs["xmlns" := SvgNamespace]["xmlns:xlink" := XlinkNamespace]
  }

  /** The copy that is serialised. It differs from `svg` only in the two namespace
      attributes and the new first child; everything `svg` holds is kept as it is. */
  function PrepareExport(svg: Element, bgVariable: string): (r: Element)
    ensures r.tag == svg.tag && r.classes == svg.classes && r.style == svg.style
    ensures r.attrs == WithNamespaces(svg.attrs)
    ensures |r.children| == |svg.children| + 1 && r.children[1..] == svg.children
    ensures r.children[0] == BackgroundRect(BackgroundColor(bgVariable))
  {
    var r := svg.(attrs := WithNamespaces(svg.attrs),
                  children := [BackgroundRect(BackgroundColor(bgVariable))] + svg.children);
    assert r.children[1..] == svg.children;
    r
  }

  /** The copy has exactly one element more than the shown SVG. */
  lemma ExportSize(svg: Element, bgVariable: string)
    ensures Size(PrepareExport(svg, bgVariable)) == Size(svg) + 1
  {
    var r := PrepareExport(svg, bgVariable);
    assert SizeAll(r.children) == Size(r.children[0]) + SizeAll(r.children[1..]);
  }

  /** Undoes the preparation: drops the namespace attributes and the first child. */
  function StripExport(e: Element): Element
  {
    e.(attrs := e.attrs - {"xmlns", "xmlns:xlink"}, children := if e.children == [] then [] else e.children[1..])
  }

  /** Removing two keys after setting them gives the map without those keys. */
  lemma AddThenRemove(m: map<string, string>, k1: string, v1: string, k2: string, v2: string)
    ensures m[k1 := v1][k2 := v2] - {k1, k2} == m - {k1, k2}
  {
    var back := m[k1 := v1][k2 := v2] - {k1, k2};
    var rest := m - {k1, k2};
    assert back.Keys == rest.Keys;
    forall k | k in back
      ensures back[k] == rest[k]
    {
      assert k != k1 && k != k2;
    }
  }

  /** Setting two attributes to the values they already have changes nothing. */
  lemma SetToSame(m: map<string, string>, k1: string, v1: string, k2: string, v2: string)
    requires k1 in m && m[k1] == v1 && k2 in m && m[k2] == v2
    ensures m[k1 := v1][k2 := v2] == m
  {
    var again := m[k1 := v1][k2 := v2];
    assert again.Keys == m.Keys;
    forall k | k in again
      ensures again[k] == m[k]
    {
    }
  }

  /** The preparation loses nothing but the root's own namespace declarations: stripping
      the export copy gives the shown SVG back, less any `xmlns` or `xmlns:xlink` it had. */
  lemma ExportRoundTrip(svg: Element, bgVariable: string)
    ensures StripExport(PrepareExport(svg, bgVariable)) == svg.(attrs := svg.attrs - {"xmlns", "xmlns:xlink"})
  {
    var r := PrepareExport(svg, bgVariable);
    AddThenRemove(svg.attrs, "xmlns", SvgNamespace, "xmlns:xlink", XlinkNamespace);
    assert r.attrs - {"xmlns", "xmlns:xlink"} == svg.attrs - {"xmlns", "xmlns:xlink"};
    assert r.children[1..] == svg.children;
  }

  /** On a root that declares neither namespace, stripping the copy gives the SVG back exactly. */
  lemma ExportRoundTripUndeclared(svg: Element, bgVariable: string)
    requires "xmlns" !in svg.attrs && "xmlns:xlink" !in svg.attrs
    ensures StripExport(PrepareExport(svg, bgVariable)) == svg
  {
    ExportRoundTrip(svg, bgVariable);
    assert svg.attrs - {"xmlns", "xmlns:xlink"} == svg.attrs;
  }

  /** A root that already declares both namespaces, as the engine's drawing usually does for
      `xmlns`, keeps its attributes exactly: setting them again changes nothing. */
  lemma NamespacesAlreadyDeclared(attrs: map<string, string>)
    requires "xmlns" in attrs && attrs["xmlns"] == SvgNamespace
    requires "xmlns:xlink" in attrs && attrs["xmlns:xlink"] == XlinkNamespace
    ensures WithNamespaces(attrs) == attrs
  {
    SetToSame(attrs, "xmlns", SvgNamespace, "xmlns:xlink", XlinkNamespace);
  }
}
