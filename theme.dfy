/** The theme model: the preset palettes, the user-editable custom theme record, the
    panel edits that change one of its fields, and the configuration handed to the
    diagram engine. */
module Theme {
  import opened Wrappers

  /** The five colours a preset contributes. */
  datatype Palette = Palette(
    primaryFill: string,
    secondaryFill: string,
    borderColor: string,
    edgeColor: string,
    textColor: string)

  /** The custom theme record: every field is always present. */
  datatype CustomTheme = CustomTheme(
    primaryFill: string,
    secondaryFill: string,
    borderColor: string,
    edgeColor: string,
    textColor: string,
    borderRadius: int,
    font: string,
    nodeSpacing: int,
    edgeStyle: string)

  const DefaultBorderRadius: int := 10
  const DefaultFont: string := "Inter, system-ui, sans-serif"
  const DefaultNodeSpacing: int := 50
  const DefaultEdgeStyle: string := "basis"

  const Modern: Palette := Palette("#6366f1", "#f1f5f9", "#c7d2fe", "#94a3b8", "#1e293b")
  const Minimal: Palette := Palette("#171717", "#f5f5f5", "#d4d4d4", "#737373", "#171717")
  const Dark: Palette := Palette("#818cf8", "#334155", "#64748b", "#94a3b8", "#f1f5f9")
  const Pastel: Palette := Palette("#f0abfc", "#fbcfe8", "#e879f9", "#c084fc", "#701a75")
  const Corporate: Palette := Palette("#3182ce", "#e2e8f0", "#90cdf4", "#4a5568", "#1a365d")

  /** The preset table, looked up by name. */
  const PresetColors: map<string, Palette> := map[
    "modern" := Modern,
    "minimal" := Minimal,
    "dark" := Dark,
    "pastel" := Pastel,
    "corporate" := Corporate]

  /** The palette a custom theme currently carries. */
  function PaletteOf(t: CustomTheme): Palette
  {
    Palette(t.primaryFill, t.secondaryFill, t.borderColor, t.edgeColor, t.textColor)
  }

  /** A fresh custom theme for a preset: the preset's colours (those of `modern` when the
      name is not in the table) and the fixed structural defaults. */
  function DefaultCustomTheme(preset: string): (t: CustomTheme)
    ensures preset in PresetColors ==> PaletteOf(t) == PresetColors[preset]
    ensures preset !in PresetColors ==> PaletteOf(t) == Modern
    ensures t.borderRadius == 10 && t.font == "Inter, system-ui, sans-serif"
    ensures t.nodeSpacing == 50 && t.edgeStyle == "basis"
  {
    var colors := if preset in PresetColors then PresetColors[preset] else Modern;
    CustomTheme(colors.primaryFill, colors.secondaryFill, colors.borderColor, colors.edgeColor,
                colors.textColor, DefaultBorderRadius, DefaultFont, DefaultNodeSpacing, DefaultEdgeStyle)
  }

  /** The defaults of `modern`, the theme the styling step falls back to, written out. */
  const ModernDefaults: CustomTheme := CustomTheme(
    Modern.primaryFill, Modern.secondaryFill, Modern.borderColor, Modern.edgeColor,
    Modern.textColor, DefaultBorderRadius, DefaultFont, DefaultNodeSpacing, DefaultEdgeStyle)

  lemma ModernDefaultsAreDefault()
    ensures DefaultCustomTheme("modern") == ModernDefaults
  {
    assert "modern" in PresetColors;
  }

  /** Whatever name is asked for, the default theme carries one of the five preset palettes. */
  lemma DefaultPaletteIsAPreset(preset: string)
    ensures PaletteOf(DefaultCustomTheme(preset)) in PresetColors.Values
  {
    assert "modern" in PresetColors;
  }

  // ---------------------------------------------------------------------------
  // Panel edits

  /** The fields of the custom theme record. */
  datatype Field =
    | PrimaryFill | SecondaryFill | BorderColor | EdgeColor | TextColor
    | BorderRadius | Font | NodeSpacing | EdgeStyle

  datatype FieldValue = Text(s: string) | Number(n: int)

  /** Reads one field of the record. */
  function Get(t: CustomTheme, f: Field): FieldValue
  {
    match f
    case PrimaryFill => Text(t.primaryFill)
    case SecondaryFill => Text(t.secondaryFill)
    case BorderColor => Text(t.borderColor)
    case EdgeColor => Text(t.edgeColor)
    case TextColor => Text(t.textColor)
    case BorderRadius => Number(t.borderRadius)
    case Font => Text(t.font)
    case NodeSpacing => Number(t.nodeSpacing)
    case EdgeStyle => Text(t.edgeStyle)
  }

  /** The colour keys of the five colour pickers. */
  datatype ColorKey = PrimaryFillKey | SecondaryFillKey | BorderColorKey | EdgeColorKey | TextColorKey

  /** One input event of the theme panel, carrying the control's new value
      (the two sliders' values already read as base-10 integers). */
  datatype Edit =
    | SetColor(key: ColorKey, color: string)
    | SetBorderRadius(radius: int)
    | SetFont(font: string)
    | SetNodeSpacing(spacing: int)
    | SetEdgeStyle(style: string)

  /** The field an edit writes. */
  function Target(e: Edit): Field
  {
    match e
    case SetColor(k, _) =>
      (match k
       case PrimaryFillKey => PrimaryFill
       case SecondaryFillKey => SecondaryFill
       case BorderColorKey => BorderColor
       case EdgeColorKey => EdgeColor
       case TextColorKey => TextColor)
    case SetBorderRadius(_) => BorderRadius
    case SetFont(_) => Font
    case SetNodeSpacing(_) => NodeSpacing
    case SetEdgeStyle(_) => EdgeStyle
  }

  /** The value an edit writes. */
  function Value(e: Edit): FieldValue
  {
    match e
    case SetColor(_, c) => Text(c)
    case SetBorderRadius(r) => Number(r)
    case SetFont(f) => Text(f)
    case SetNodeSpacing(n) => Number(n)
    case SetEdgeStyle(s) => Text(s)
  }

  /** The record after one panel edit: its target field holds the new value and every
      other field is unchanged. No range check is made on the value. */
  function ApplyEdit(t: CustomTheme, e: Edit): (r: CustomTheme)
    ensures Get(r, Target(e)) == Value(e)
    ensures forall f :: f != Target(e) ==> Get(r, f) == Get(t, f)
  {
    match e
    case SetColor(k, c) =>
      (match k
       case PrimaryFillKey => t.(primaryFill := c)
       case SecondaryFillKey => t.(secondaryFill := c)
       case BorderColorKey => t.(borderColor := c)
       case EdgeColorKey => t.(edgeColor := c)
       case TextColorKey => t.(textColor := c))
    case SetBorderRadius(n) => t.(borderRadius := n)
    case SetFont(f) => t.(font := f)
    case SetNodeSpacing(n) => t.(nodeSpacing := n)
    case SetEdgeStyle(s) => t.(edgeStyle := s)
  }

  /** Two records that agree on every field are the same record, so an edit is
      determined by what it writes. */
  lemma FieldsDetermineTheme(a: CustomTheme, b: CustomTheme)
    requires forall f :: Get(a, f) == Get(b, f)
    ensures a == b
  {
    assert Get(a, PrimaryFill) == Get(b, PrimaryFill);
    assert Get(a, SecondaryFill) == Get(b, SecondaryFill);
    assert Get(a, BorderColor) == Get(b, BorderColor);
    assert Get(a, EdgeColor) == Get(b, EdgeColor);
    assert Get(a, TextColor) == Get(b, TextColor);
    assert Get(a, BorderRadius) == Get(b, BorderRadius);
    assert Get(a, Font) == Get(b, Font);
    assert Get(a, NodeSpacing) == Get(b, NodeSpacing);
    assert Get(a, EdgeStyle) == Get(b, EdgeStyle);
  }

  /** Writing back the value a field already holds changes nothing, and a second
      identical edit changes nothing more. */
  lemma ApplyEditIdempotent(t: CustomTheme, e: Edit)
    ensures ApplyEdit(ApplyEdit(t, e), e) == ApplyEdit(t, e)
    ensures Get(t, Target(e)) == Value(e) ==> ApplyEdit(t, e) == t
  {
    var once := ApplyEdit(t, e);
    FieldsDetermineTheme(ApplyEdit(once, e), once);
    if Get(t, Target(e)) == Value(e) {
      FieldsDetermineTheme(once, t);
    }
  }

  /** Edits to two different fields commute. */
  lemma EditsOfDifferentFieldsCommute(t: CustomTheme, e1: Edit, e2: Edit)
    requires Target(e1) != Target(e2)
    ensures ApplyEdit(ApplyEdit(t, e1), e2) == ApplyEdit(ApplyEdit(t, e2), e1)
  {
    FieldsDetermineTheme(ApplyEdit(ApplyEdit(t, e1), e2), ApplyEdit(ApplyEdit(t, e2), e1));
  }

  // ---------------------------------------------------------------------------
  // Engine configuration

  datatype FlowchartConfig = FlowchartConfig(
    htmlLabels: bool, curve: string, padding: int, nodeSpacing: int, rankSpacing: int)

  datatype SequenceConfig = SequenceConfig(
    diagramMarginX: int, diagramMarginY: int, actorMargin: int, boxMargin: int)

  /** The configuration record passed to the engine's `initialize`. */
  datatype EngineConfig = EngineConfig(
    startOnLoad: bool,
    theme: string,
    securityLevel: string,
    fontFamily: string,
    flowchart: FlowchartConfig,
    sequence: SequenceConfig)

  /** The engine's built-in theme used for each preset name; unknown names use `default`. */
  const EngineThemes: map<string, string> := map[
    "modern" := "default",
    "minimal" := "neutral",
    "dark" := "dark",
    "pastel" := "default",
    "corporate" := "default"]

  function EngineTheme(preset: string): (r: string)
  {
    if preset in EngineThemes then EngineThemes[preset] else "default"
  }

  /** The engine theme is `neutral` exactly for `minimal`, `dark` exactly for `dark`,
      and `default` for every other name, known or not. */
  lemma EngineThemeCases(preset: string)
    ensures EngineTheme(preset) == "neutral" <==> preset == "minimal"
    ensures EngineTheme(preset) == "dark" <==> preset == "dark"
    ensures preset != "minimal" && preset != "dark" ==> EngineTheme(preset) == "default"
  {
  }

  /** The engine configuration for a preset name and the current custom theme (or, when
      there is none, the preset's default theme). All three spacings come from the theme's
      node spacing, the curve from its edge style and the font family from its font. */
  function MermaidConfig(preset: string, custom: Option<CustomTheme>): (c: EngineConfig)
    ensures c.theme == EngineTheme(preset)
    ensures var ct := custom.GetOr(DefaultCustomTheme(preset));
      && c.fontFamily == ct.font
      && c.flowchart.curve == ct.edgeStyle
      && c.flowchart.nodeSpacing == ct.nodeSpacing
      && c.flowchart.rankSpacing == ct.nodeSpacing
      && c.sequence.actorMargin == ct.nodeSpacing
    ensures !c.startOnLoad && c.securityLevel == "loose" && c.flowchart.htmlLabels
    ensures c.flowchart.padding == 20 && c.sequence.boxMargin == 10
    ensures c.sequence.diagramMarginX == 20 && c.sequence.diagramMarginY == 20
  {
    var ct := custom.GetOr(DefaultCustomTheme(preset));
    var spacing := ct.nodeSpacing;
    EngineConfig(
      false,
      EngineTheme(preset),
      "loose",
      ct.font,
      FlowchartConfig(true, ct.edgeStyle, 20, spacing, spacing),
      SequenceConfig(20, 20, spacing, 10))
  }

  /** With no custom theme the configuration is that of the preset's defaults:
      spacing 50, curve `basis`, the Inter font stack. */
  lemma ConfigWithoutCustomTheme(preset: string)
    ensures MermaidConfig(preset, None) == MermaidConfig(preset, Some(DefaultCustomTheme(preset)))
    ensures MermaidConfig(preset, None).flowchart.nodeSpacing == 50
    ensures MermaidConfig(preset, None).flowchart.curve == "basis"
  {
  }

  /** Editing a colour or the border radius leaves the engine configuration as it was:
      only font, edge style and node spacing reach the engine. */
  lemma ConfigIgnoresStylingEdits(preset: string, t: CustomTheme, e: Edit)
    requires e.SetColor? || e.SetBorderRadius?
    ensures MermaidConfig(preset, Some(ApplyEdit(t, e))) == MermaidConfig(preset, Some(t))
  {
  }
}
