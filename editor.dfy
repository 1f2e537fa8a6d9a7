/** The editor: the code, the chosen preset and custom theme, the engine configuration,
    and what the preview shows. Rendering goes through the Mermaid engine, which is a
    parameter of the model. */
module Editor {
  import opened Wrappers
  import opened Text
  import opened Theme
  import opened SvgTree
  import opened Styling
  import opened StylingProofs
  import opened Export

  /** What the preview container holds: nothing yet, the placeholder paragraph, or a
      rendered diagram, kept as the engine's drawing together with the custom theme the
      styling step applied to it. The SVG root the page shows is `ShownSvg`. */
  datatype Display = Empty | Placeholder | Diagram(drawing: Element, theme: CustomTheme)

  /** The SVG root in the preview: the drawing after the styling step. */
  function ShownSvg(d: Display): Element
    requires d.Diagram?
  {
    StyleSvg(d.drawing, Some(d.theme))
  }

  /** The error banner. */
  datatype ErrorBox = Hidden | Shown(message: string)

  /** The engine's verdict on the code, and its rendering of it. */
  datatype Check = Valid | Invalid(message: string)
  datatype Rendering = Drawn(svg: Element) | Failed(message: string)

  /** The Mermaid library as the editor uses it: `parse` checks the code and `render`
      draws it under a numbered render id; both see the configuration last passed to
      `initialize`. */
  datatype Mermaid = Mermaid(parse: (EngineConfig, string) -> Check,
                             render: (EngineConfig, nat, string) -> Rendering)

  /** The engine's verdict on `code` under `config`. */
  function ParseWith(engine: Mermaid, config: EngineConfig, code: string): Check
  {
    engine.parse(config, code)
  }

  /** The engine's drawing of `code` under `config` with render id `id`. */
  function RenderWith(engine: Mermaid, config: EngineConfig, id: nat, code: string): Rendering
  {
    engine.render(config, id, code)
  }

  const FallbackMessage: string := "Invalid Mermaid syntax"

  /** The text of the error banner: the error's message, or the fallback when it is empty. */
  function ErrorText(message: string): (r: string)
    ensures r != []
    ensures message != [] ==> r == message
    ensures message == [] ==> r == FallbackMessage
  {
    if message == [] then FallbackMessage else message
  }

  /** The sample shown on a first visit. The emoji in the labels are kept exactly as the
      characters that stand in `src/main.js`. */
  const DefaultDiagram: string :=
    "flowchart TD\n" +
    "    A[\U{00F0}\U{0178}\U{201C}\U{00A6} Start Project] --> B{Choose Framework?}\n" +
    "    B -->|React| C[\U{00E2}\U{0161}\U{203A}\U{00EF}\U{00B8} Create React App]\n" +
    "    B -->|Vue| D[\U{00F0}\U{0178}\U{2019}\U{0161} Vue CLI]\n" +
    "    B -->|Vanilla| E[\U{00F0}\U{0178}\U{201C} Plain HTML/CSS/JS]\n" +
    "    \n" +
    "    C --> F[Install Dependencies]\n" +
    "    D --> F\n" +
    "    E --> G[Start Coding!]\n" +
    "    \n" +
    "    F --> H[Configure Build Tools]\n" +
    "    H --> G\n" +
    "    \n" +
    "    G --> I{Tests Passing?}\n" +
    "    I -->|Yes| J[\U{00F0}\U{0178}\U{0161}\U{20AC} Deploy!]\n" +
    "    I -->|No| K[\U{00F0}\U{0178}\U{201D}\U{00A7} Debug]\n" +
    "    K --> G\n" +
    "    \n" +
    "    J --> L[\U{00F0}\U{0178}\U{017D}\U{2030} Success!]\n" +
    "\n" +
    "    style A fill:#6366f1,stroke:#4f46e5,color:#fff\n" +
    "    style L fill:#10b981,stroke:#059669,color:#fff\n" +
    "    style K fill:#f59e0b,stroke:#d97706,color:#fff"

  lemma DefaultDiagramIsNotBlank()
    ensures Trim(DefaultDiagram) != []
  {
    assert DefaultDiagram[0] == 'f';
    TrimEmptyIffBlank(DefaultDiagram);
  }

  /** The part of the page a render changes. */
  datatype Screen = Screen(display: Display, error: ErrorBox, diagramId: nat)

  /** The screen after a render, and the render id it used, if it got that far. */
  datatype Outcome = Outcome(screen: Screen, renderId: Option<nat>)

  /** One render of `text` under `config`, styled with `theme`. Blank code shows the
      placeholder without asking the engine. Every successful parse takes the next
      render id. A parse or render failure keeps what the preview showed and shows the
      error, with the fallback text when the error has no message; a drawing replaces
      the preview with the styled drawing and hides the error. */
  function Render(s: Screen, text: string, config: EngineConfig, theme: CustomTheme, engine: Mermaid): (o: Outcome)
    ensures Trim(text) == [] ==> o == Outcome(Screen(Placeholder, Hidden, s.diagramId), None)
    ensures o.renderId.Some? <==> Trim(text) != [] && ParseWith(engine, config, Trim(text)).Valid?
    ensures o.renderId.Some? ==> o.renderId.value == s.diagramId + 1 == o.screen.diagramId
    ensures o.renderId.None? ==> o.screen.diagramId == s.diagramId
    ensures o.screen.error.Shown? <==>
      Trim(text) != [] &&
      (ParseWith(engine, config, Trim(text)).Invalid? || RenderWith(engine, config, s.diagramId + 1, Trim(text)).Failed?)
    ensures o.screen.error.Shown? ==> o.screen.display == s.display && o.screen.error.message != []
    ensures Trim(text) != [] && ParseWith(engine, config, Trim(text)).Invalid? ==>
      o.screen.error == Shown(ErrorText(ParseWith(engine, config, Trim(text)).message))
    ensures Trim(text) != [] && ParseWith(engine, config, Trim(text)).Valid?
            && RenderWith(engine, config, s.diagramId + 1, Trim(text)).Failed? ==>
      o.screen.error == Shown(ErrorText(RenderWith(engine, config, s.diagramId + 1, Trim(text)).message))
    ensures o.renderId.Some? && o.screen.error.Hidden? ==>
      o.screen.display == Diagram(RenderWith(engine, config, s.diagramId + 1, Trim(text)).svg, theme)
  {
    if Trim(text) == [] then Outcome(Screen(Placeholder, Hidden, s.diagramId), None)
    else if ParseWith(engine, config, Trim(text)).Invalid? then
      Outcome(Screen(s.display, Shown(ErrorText(ParseWith(engine, config, Trim(text)).message)), s.diagramId), None)
    else if RenderWith(engine, config, s.diagramId + 1, Trim(text)).Failed? then
      Outcome(Screen(s.display, Shown(ErrorText(RenderWith(engine, config, s.diagramId + 1, Trim(text)).message)), s.diagramId + 1),
              Some(s.diagramId + 1))
    else
      Outcome(Screen(Diagram(RenderWith(engine, config, s.diagramId + 1, Trim(text)).svg, theme), Hidden, s.diagramId + 1),
              Some(s.diagramId + 1))
  }

  /** A diagram put up by a render shows the styled drawing, and styling it again
      changes nothing. */
  lemma RenderedDiagramIsStyled(s: Screen, text: string, config: EngineConfig, theme: CustomTheme, engine: Mermaid)
    ensures var o := Render(s, text, config, theme, engine);
      o.renderId.Some? && o.screen.error.Hidden? ==>
        && ShownSvg(o.screen.display) == StyleSvg(RenderWith(engine, config, s.diagramId + 1, Trim(text)).svg, Some(theme))
        && StyleSvg(ShownSvg(o.screen.display), Some(theme)) == ShownSvg(o.screen.display)
  {
    var o := Render(s, text, config, theme, engine);
    if o.renderId.Some? && o.screen.error.Hidden? {
      StyleSvgIdempotent(RenderWith(engine, config, s.diagramId + 1, Trim(text)).svg, Some(theme));
    }
  }

  /** What one render is asked to do. */
  datatype Request = Request(text: string, config: EngineConfig, theme: CustomTheme)

  /** Renders one after another: the final screen and the render ids used, in order. */
  function RenderAll(s: Screen, requests: seq<Request>, engine: Mermaid): (Screen, seq<nat>)
    decreases |requests|
  {
    if requests == [] then (s, [])
    else
      var r := requests[0];
      var o := Render(s, r.text, r.config, r.theme, engine);
      var (f, ids) := RenderAll(o.screen, requests[1..], engine);
      (f, (if o.renderId.Some? then [o.renderId.value] else []) + ids)
  }

  /** `ids` is strictly increasing and lies in the interval (lo, hi]. */
  predicate IncreasingWithin(ids: seq<nat>, lo: nat, hi: nat)
  {
    && (forall i :: 0 <= i < |ids| ==> lo < ids[i] <= hi)
    && (forall i, j :: 0 <= i < j < |ids| ==> ids[i] < ids[j])
  }

  lemma PrependIncreasing(head: seq<nat>, rest: seq<nat>, lo: nat, mid: nat, hi: nat)
    requires |head| <= 1 && (|head| == 1 ==> head[0] == mid) && mid == lo + |head|
    requires IncreasingWithin(rest, mid, hi) && mid <= hi
    ensures IncreasingWithin(head + rest, lo, hi)
  {
    var ids := head + rest;
    forall i | 0 <= i < |ids|
      ensures lo < ids[i] <= hi
    {
      if i >= |head| {
        assert ids[i] == rest[i - |head|];
      }
    }
    forall i, j | 0 <= i < j < |ids|
      ensures ids[i] < ids[j]
    {
      assert ids[j] == rest[j - |head|];
      if i >= |head| {
        assert ids[i] == rest[i - |head|];
      }
    }
  }

  /** Render ids are handed out in increasing order and never reused: each lies above
      the counter at the start, and the counter ends at the last one handed out. */
  lemma {:induction false} RenderIdsIncrease(s: Screen, requests: seq<Request>, engine: Mermaid)
    ensures var ids := RenderAll(s, requests, engine).1;
      && RenderAll(s, requests, engine).0.diagramId == s.diagramId + |ids|
      && IncreasingWithin(ids, s.diagramId, s.diagramId + |ids|)
    decreases |requests|
  {
    if requests != [] {
      var r := requests[0];
      var o := Render(s, r.text, r.config, r.theme, engine);
      RenderIdsIncrease(o.screen, requests[1..], engine);
      var rest := RenderAll(o.screen, requests[1..], engine).1;
      var head := if o.renderId.Some? then [o.renderId.value] else [];
      assert RenderAll(s, requests, engine).1 == head + rest;
      PrependIncreasing(head, rest, s.diagramId, o.screen.diagramId, s.diagramId + |head + rest|);
    }
  }

  /** Render ids are pairwise distinct. */
  lemma RenderIdsDistinct(s: Screen, requests: seq<Request>, engine: Mermaid)
    ensures var ids := RenderAll(s, requests, engine).1;
      forall i, j :: 0 <= i < |ids| && 0 <= j < |ids| && i != j ==> ids[i] != ids[j]
  {
    RenderIdsIncrease(s, requests, engine);
    var ids := RenderAll(s, requests, engine).1;
    assert IncreasingWithin(ids, s.diagramId, s.diagramId + |ids|);
    forall i, j | 0 <= i < |ids| && 0 <= j < |ids| && i != j
      ensures ids[i] != ids[j]
    {
      if i < j { assert ids[i] < ids[j]; } else { assert ids[j] < ids[i]; }
    }
  }

  /** One render, statement by statement, on the screen `s`. */
  method RenderStep(s: Screen, text: string, config: EngineConfig, theme: CustomTheme, engine: Mermaid)
    returns (display: Display, error: ErrorBox, diagramId: nat, renderId: Option<nat>)
    ensures Outcome(Screen(display, error, diagramId), renderId) == Render(s, text, config, theme, engine)
  {
    display := s.display;
    error := s.error;
    diagramId := s.diagramId;
    renderId := None;
    var code := Trim(text);
    if code == [] {
      display := Placeholder;
      error := Hidden;
    } else {
      var check := ParseWith(engine, config, code);
      if check.Invalid? {
        error := Shown(ErrorText(check.message));
      } else {
        diagramId := diagramId + 1;
        renderId := Some(diagramId);
        var drawing := RenderWith(engine, config, diagramId, code);
        if drawing.Failed? {
          error := Shown(ErrorText(drawing.message));
        } else {
          display := Diagram(drawing.svg, theme);
          error := Hidden;
        }
      }
    }
  }

  /** The editor page. `customTheme` is always set once the page has started, so the
      styling step always uses it. */
  class EditorPage {
    const engine: Mermaid
    var code: string
    var preset: string
    var customTheme: CustomTheme
    var engineConfig: EngineConfig
    var display: Display
    var error: ErrorBox
    var currentDiagramId: nat

    function CurrentScreen(): Screen
      reads this
    {
      Screen(display, error, currentDiagramId)
    }

    /** The engine is configured from the chosen preset and the current custom theme. */
    ghost predicate Valid()
      reads this
    {
      engineConfig == MermaidConfig(preset, Some(customTheme))
    }

    /** Start-up. Stored values arrive as parameters, with "" (or `None`) for a missing
        entry: the preset falls back to `modern`, the custom theme to the preset's
        defaults and the code to the sample diagram. The engine is configured and the
        code rendered once. */
    constructor (savedTheme: string, savedCustom: Option<CustomTheme>, savedCode: string, engine: Mermaid)
      ensures this.engine == engine
      ensures preset == (if savedTheme == "" then "modern" else savedTheme)
      ensures code == (if savedCode == "" then DefaultDiagram else savedCode)
      ensures customTheme == savedCustom.GetOr(DefaultCustomTheme(preset))
      ensures Valid()
      ensures CurrentScreen() == Render(Screen(Empty, Hidden, 0), code, engineConfig, customTheme, engine).screen
    {
      var theme := if savedTheme == "" then "modern" else savedTheme;
      var custom := savedCustom.GetOr(DefaultCustomTheme(theme));
      var text := if savedCode == "" then DefaultDiagram else savedCode;
      var config := MermaidConfig(theme, Some(custom));
      var d, e, id, _ := RenderStep(Screen(Empty, Hidden, 0), text, config, custom, engine);
      this.engine := engine;
      preset := theme;
      customTheme := custom;
      code := text;
      engineConfig := config;
      display := d;
      error := e;
      currentDiagramId := id;
    }

    /** Renders the current code with the current configuration and theme. */
    method RenderDiagram() returns (renderId: Option<nat>)
      modifies this
      ensures unchanged(this`code, this`preset, this`customTheme, this`engineConfig)
      ensures Outcome(CurrentScreen(), renderId) == old(Render(CurrentScreen(), code, engineConfig, customTheme, engine))
    {
      var d, e, id;
      d, e, id, renderId := RenderStep(CurrentScreen(), code, engineConfig, customTheme, engine);
      display, error, currentDiagramId := d, e, id;
    }

    /** Choosing a preset resets the custom theme to that preset's defaults, reconfigures
        the engine and renders. */
    method SelectPreset(theme: string) returns (renderId: Option<nat>)
      requires Valid()
      modifies this
      ensures Valid() && preset == theme && code == old(code)
      ensures customTheme == DefaultCustomTheme(theme)
      ensures Outcome(CurrentScreen(), renderId) == Render(old(CurrentScreen()), code, engineConfig, customTheme, engine)
    {
      preset := theme;
      customTheme := DefaultCustomTheme(theme);
      engineConfig := MermaidConfig(theme, Some(customTheme));
      renderId := RenderDiagram();
    }

    /** A control of the custom-theme panel changes its own field, then the engine is
        reconfigured and the code rendered. */
    method EditTheme(edit: Edit) returns (renderId: Option<nat>)
      requires Valid()
      modifies this
      ensures Valid() && preset == old(preset) && code == old(code)
      ensures customTheme == ApplyEdit(old(customTheme), edit)
      ensures Outcome(CurrentScreen(), renderId) == Render(old(CurrentScreen()), code, engineConfig, customTheme, engine)
    {
      customTheme := ApplyEdit(customTheme, edit);
      engineConfig := MermaidConfig(preset, Some(customTheme));
      renderId := RenderDiagram();
    }

    /** The reset button: the custom theme goes back to the chosen preset's defaults. */
    method ResetCustomTheme() returns (renderId: Option<nat>)
      requires Valid()
      modifies this
      ensures Valid() && preset == old(preset) && code == old(code)
      ensures customTheme == DefaultCustomTheme(preset)
      ensures Outcome(CurrentScreen(), renderId) == Render(old(CurrentScreen()), code, engineConfig, customTheme, engine)
    {
      customTheme := DefaultCustomTheme(preset);
      engineConfig := MermaidConfig(preset, Some(customTheme));
      renderId := RenderDiagram();
    }

    /** New code in the editor, rendered once the typing pauses. */
    method EditCode(text: string) returns (renderId: Option<nat>)
      requires Valid()
      modifies this
      ensures Valid() && code == text && preset == old(preset) && customTheme == old(customTheme)
      ensures Outcome(CurrentScreen(), renderId) == Render(old(CurrentScreen()), text, engineConfig, customTheme, engine)
    {
      code := text;
      renderId := RenderDiagram();
    }

    /** The export copy of the shown SVG, or nothing when no SVG is shown. The page itself
        is left as it was. */
    method GetSvgContent(bgVariable: string) returns (r: Option<Element>)
      ensures r.Some? <==> display.Diagram?
      ensures r.Some? ==> r.value == PrepareExport(ShownSvg(display), bgVariable)
      ensures r.Some? ==> r.value.children[1..] == ShownSvg(display).children
    {
      if !display.Diagram? {
        return None;
      }
      var clone := ShownSvg(display);
      clone := clone.(attrs := WithNamespaces(clone.attrs));
      var rect := BackgroundRect(BackgroundColor(bgVariable));
      clone := clone.(children := [rect] + clone.children);
      return Some(clone);
    }
  }
}
