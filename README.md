# pretty-mermaid editor core, modelled in Dafny

pretty-mermaid is a browser editor for Mermaid diagrams. The user types diagram code, and
the page renders it through the Mermaid library into a preview. The preview can be zoomed
and panned. A theme panel sets colours, corner radius, font, node spacing and edge style
over one of five presets. The rendered SVG can be exported. All of this lives in
`src/main.js`. This project models the sequential logic inside it:

- **Theme model and engine configuration** (`theme.dfy`, module `Theme`):
  - the preset palette table;
  - `getDefaultCustomTheme`;
  - the panel edits that each overwrite one field of the custom theme;
  - `getMermaidConfig`, the record passed to Mermaid's `initialize`.
- **Viewport** (`viewport.dfy`, module `Viewport`):
  - the zoom and pan state as a class with five real-valued fields and the boolean `isPanning`;
  - one method per handler (zoom buttons, wheel, reset, mouse down/move/up);
  - each method is tied to a pure `Step` function on a `View` value;
  - the clamp and drag properties are proved about that function.
- **SVG tree and selectors** (`svg_tree.dfy`, module `SvgTree`):
  - an element tree (tag, classes, attributes, inline style, children);
  - each `querySelectorAll` selector of the styling step as a predicate over an element's
    label and the labels of its ancestors inside the SVG.
- **The styling step** (`styling.dfy`, with the proofs in `styling_proofs.dfy` and
  `styling_outcome.dfy`):
  - `styleSvg`'s eight `forEach` passes as rules applied to the tree one pass after another
    (`ApplyPasses`, `StyleSvgSteps`);
  - the guarded insertion of the `defs` element and of the `pretty-shadow` filter.
  - The proofs show that:
    - the passes amount to one overlay per element;
    - what each structural category receives;
    - the tree shape is unchanged apart from the guarded insertion;
    - on the returned document, every element of each category carries the theme's value;
    - the whole step is idempotent, and styling again with another theme leaves no value of
      the first.
- **Export preparation** (`export.dfy`, module `Export`):
  - the copy of the SVG that `getSvgContent` builds: namespaces declared and a full-size
    background `rect` as the first child.
- **The editor page** (`editor.dfy`, module `Editor`):
  - `renderDiagram` as a pure function `Render` over the part of the page it changes, and
    as an imperative `RenderStep`;
  - the Mermaid library is a parameter: a pair of functions for `parse` and `render`;
  - the class `EditorPage` holds the page state and performs start-up, preset change,
    panel edits, reset, code edits and the export copy;
  - the render ids handed out over any sequence of renders are strictly increasing and
    pairwise distinct.
- **Supporting modules**:
  - `text.dfy` (module `Text`) models JavaScript's `String.prototype.trim` with its
    white-space set;
  - `wrappers.dfy` (module `Wrappers`) holds an `Option` for `null` and the `x || default`
    fallbacks.

Numbers in the viewport are exact reals. Spacing and radius values are mathematical
integers, and `String(n)` is written out for them as plain decimal digits. That agrees with JavaScript's `String` for integers whose magnitude is below 10^21; JavaScript prints larger ones in exponent form, which the model does not.

The render step has no staleness check. `currentDiagramId` only numbers the renders, so a
late result from the engine is not discarded. Because the model follows the code here, it
proves that render ids are unique, and it does not claim that a newer render always wins.

## Model

| member | source | states |
|---|---|---|
| Text.Trim | src/main.js:402 | definition of `trim()`: leading white space dropped, then trailing; see Text.TrimIsSlice and Text.TrimEmptyIffBlank |
| Text.TrimIsSlice | src/main.js:402 | `trim()` returns a slice of its input, everything cut off at either end is white space, and the result neither starts nor ends with white space |
| Text.TrimEmptyIffBlank | src/main.js:402-404 | the trimmed code is empty exactly when the code is white space only |
| Text.TrimStartIsSuffix | src/main.js:402 | dropping leading white space leaves a suffix that does not start with white space |
| Text.TrimStartCutsBlanks | src/main.js:402 | everything dropped at the start is white space |
| Text.TrimEndIsPrefix | src/main.js:402 | dropping trailing white space leaves a prefix that does not end with white space |
| Text.TrimEndCutsBlanks | src/main.js:402 | everything dropped at the end is white space |
| Theme.DefaultCustomTheme | src/main.js:26-39 | the five colours are exactly those of the named preset, or of `modern` for a name not in the table; radius 10, the Inter font stack, spacing 50 and edge style `basis` are always set |
| Theme.DefaultPaletteIsAPreset | src/main.js:18-27 | whatever name is asked for, the default theme carries one of the five preset palettes |
| Theme.ModernDefaultsAreDefault | src/main.js:437 | the theme the styling step falls back to is `getDefaultCustomTheme('modern')` |
| Theme.ApplyEdit | src/main.js:218-256 | a panel edit sets its own field to the new value and leaves every other field unchanged |
| Theme.ApplyEditIdempotent | src/main.js:226-256 | repeating an edit changes nothing more, and writing back the current value changes nothing |
| Theme.EditsOfDifferentFieldsCommute | src/main.js:218-256 | edits to two different fields give the same theme in either order |
| Theme.EngineTheme | src/main.js:125-138 | definition: the `themeMap` lookup with `default` for a missing name; see Theme.EngineThemeCases |
| Theme.EngineThemeCases | src/main.js:125-138 | the engine theme is `neutral` exactly for `minimal`, `dark` exactly for `dark`, and `default` for every other name |
| Theme.MermaidConfig | src/main.js:123-155 | the engine theme comes from the preset name; font family, curve, node spacing, rank spacing and actor margin come from the custom theme, or from the preset's defaults without one; every other field has its fixed value |
| Theme.ConfigWithoutCustomTheme | src/main.js:133 | without a custom theme the configuration is that of the preset's default theme: spacing 50, curve `basis` |
| Theme.ConfigIgnoresStylingEdits | src/main.js:133-154 | a colour or border-radius edit leaves the engine configuration unchanged |
| Viewport.Step | src/main.js:270-306 | definition: the effect of one zoom, wheel, reset or mouse handler on the six variables; see the lemmas below and the ViewportController methods, whose `ensures` are stated through it |
| Viewport.Run | src/main.js:270-306 | definition: events handled one after another; see Viewport.RunKeepsZoomInRange and Viewport.DragTracksPointer |
| Viewport.StepKeepsZoomInRange | src/main.js:270-306 | every event keeps a zoom in [0.1, 5] within [0.1, 5] |
| Viewport.RunKeepsZoomInRange | src/main.js:270-306 | any sequence of events from an in-range zoom, such as the initial 1, keeps the zoom within [0.1, 5] |
| Viewport.ResetIsIdentityTransform | src/main.js:390-395 | reset from any state gives zoom 1 and pan (0, 0) and leaves the drag state alone |
| Viewport.IgnoredPointerEvents | src/main.js:289-306 | a non-primary press changes nothing; a move or release while not dragging changes nothing |
| Viewport.DragMovesPanByPointerDelta | src/main.js:289-306 | after a primary press at (x, y), a move to (x', y') puts the pan at the pan at press time plus (x'-x, y'-y); the zoom is kept; a release ends the drag |
| Viewport.DragTracksPointer | src/main.js:289-306 | during a drag, whatever zooms, resets and moves come between, the final move puts the pan at the press-time pan plus the pointer's displacement |
| Viewport.DragAnchorKept | src/main.js:289-301 | events other than press and release keep the drag flag and the drag anchor |
| Viewport.SevenZoomIns | src/main.js:270-273 | seven zoom-in presses from 1 give exactly 1.25^7, still below the cap |
| Viewport.ZoomInSaturates | src/main.js:270-273 | eight or more zoom-in presses from 1 (fifty, say) leave the zoom at exactly 5 |
| Viewport.TenZoomOuts | src/main.js:274-277 | ten zoom-out presses from 1 give exactly 0.8^10, still above the floor |
| Viewport.ZoomOutSaturates | src/main.js:274-277 | eleven or more zoom-out presses from 1 (fifty, say) leave the zoom at exactly 0.1 |
| Viewport.ViewportController.constructor | src/main.js:112-117 | the initial state: zoom 1, pan (0, 0), not dragging |
| Viewport.ViewportController.ZoomInClick | src/main.js:270-273 | the zoom is multiplied by 1.25 and capped at 5; the range invariant is kept |
| Viewport.ViewportController.ZoomOutClick | src/main.js:274-277 | the zoom is divided by 1.25 and floored at 0.1; the range invariant is kept |
| Viewport.ViewportController.OnWheel | src/main.js:281-286 | the zoom is multiplied by 1.1 when scrolling up, divided by it otherwise, then clamped both ways |
| Viewport.ViewportController.ResetZoom | src/main.js:390-395 | zoom 1 and pan (0, 0); the drag state is unchanged |
| Viewport.ViewportController.OnMouseDown | src/main.js:289-295 | only the primary button starts a drag and records the pointer minus the pan |
| Viewport.ViewportController.OnMouseMove | src/main.js:296-301 | while dragging, the pan is the pointer minus the recorded anchor; otherwise nothing changes |
| Viewport.ViewportController.OnMouseUp | src/main.js:302-306 | a release ends a drag; otherwise nothing changes |
| SvgTree.Matches | src/main.js:444-497 | definition of the eight selectors over an element's tag and classes and those of its ancestors inside the SVG; see StylingProofs.NetRadius, NetStroke, NetFill and NetStyleByCategory |
| Styling.IntToString | src/main.js:438-447 | definition of `String(r)` for the integer radius, as plain decimal digits with a sign (JavaScript's form for magnitudes below 10^21) |
| Styling.SizeRoot | src/main.js:441-442 | definition: `max-width: 100%` and `height: auto` on the root's inline style |
| Styling.ColorRules | src/main.js:444-477 | definition: the seven colour and shape passes with their selectors and settings, in source order; see StylingProofs.AttrContributionsOfShapes and the lemmas after it |
| Styling.Restyle | src/main.js:444-497 | definition: one traversal of the root's descendants laying each element's matching settings over it; see StylingProofs.RunPassesIsRestyle |
| Styling.RunPasses | src/main.js:444-477 | definition: the passes one after another over the whole document; see StylingProofs.RunPassesIsRestyle |
| Styling.EnsureShadowFilter | src/main.js:480-492 | definition of the guarded `defs` and filter insertion; see StylingProofs.EnsureShadowFilterGuarded and EnsureShadowFilterSize |
| Styling.ThemeFor | src/main.js:437 | definition: the custom theme, or the `modern` defaults without one; see Theme.ModernDefaultsAreDefault |
| Styling.StyleSvg | src/main.js:433-498 | definition of the styling step in source order; see StylingProofs.StyleSvgNormalForm, StyleSvgIdempotent, StyleSvgKeepsStructure and the StylingOutcome lemmas |
| Styling.SetAll | src/main.js:445-477 | the `setAttribute` and `style` assignments made on one element, one after another, lay their net updates over its attributes and style; tag, classes and children stay |
| Styling.ApplyPasses | src/main.js:444-477 | the `forEach` passes run one after another over the whole document |
| Styling.StyleSvgSteps | src/main.js:433-498 | the styling step, statement by statement (root sizing, the seven colour passes, the guarded shadow insertion, the shadow pass), gives `StyleSvg`; a standalone statement-level rendering, since the editor shows its drawing through the function `StyleSvg` |
| StylingProofs.RunPassesIsRestyle | src/main.js:444-477 | running the passes one after another has the same effect as one traversal that lays every matching pass's settings over each element |
| StylingProofs.StyledKeepsShape | src/main.js:444-477 | the passes change no tag, class or parent/child link anywhere in the tree |
| StylingProofs.StyledIdempotent | src/main.js:444-477 | running the passes a second time changes nothing |
| StylingProofs.StyledCompose | src/main.js:444-497 | two lists of passes run one after the other act as their concatenation |
| StylingProofs.ColorRulesNeverSetId | src/main.js:444-497 | no pass writes the `id` attribute, so no pass changes what `#pretty-shadow` finds |
| StylingProofs.StyledKeepsShadow | src/main.js:486 | the passes do not change whether the first `defs` already holds the filter |
| StylingProofs.InertUnstyled | src/main.js:480-492 | no selector of the styling step selects the inserted `defs`, `filter` or `feDropShadow` |
| StylingProofs.EnsureShadowCommutesWithRestyle | src/main.js:444-492 | inserting the filter before or after the passes gives the same document |
| StylingProofs.EnsureShadowFilterGuarded | src/main.js:480-492 | after the insertion the first `defs` holds the filter; when it already did, nothing changes; without any `defs` a new one holding the filter becomes the first child |
| StylingProofs.EnsureShadowFilterSize | src/main.js:480-492 | the insertion adds 3 elements without a `defs`, 2 when the first `defs` lacks the filter, and none otherwise |
| StylingProofs.StyleSvgNormalForm | src/main.js:433-498 | the styling step equals the root sizing, then the guarded insertion, then one overlay of all eight passes in source order |
| StylingProofs.RestyleIdempotent | src/main.js:444-497 | applying the same passes twice is applying them once |
| StylingProofs.StyleSvgFixedPoint | src/main.js:433-498 | a sized document that holds the filter and has been styled is left unchanged by the styling step |
| StylingProofs.StyleSvgIdempotent | src/main.js:433-498 | styling an already styled document with the same theme changes nothing: no second `defs` or filter, no attribute value changed |
| StylingProofs.StyleSvgKeepsStructure | src/main.js:433-498 | with attributes and styles set aside, the styled document is the input after the guarded insertion; the element count grows by 3, 2 or 0 accordingly; with the filter already present, the structure is unchanged |
| StylingProofs.StyledAt | src/main.js:444-497 | at every path in the tree, the styled element is what the passes do to that element alone, given its ancestors |
| StylingProofs.AttrContributionsOfShapes | src/main.js:444-463 | the radius, stroke, default-fill and label passes write `rx`/`ry`, `stroke` and `fill` on the elements they select, and no attribute for label text |
| StylingProofs.AttrContributionsOfEdges | src/main.js:464-497 | the text, edge, marker and shadow passes write `fill`, `stroke`, `fill`+`stroke` and no attribute, respectively, on the elements they select |
| StylingProofs.StyleContributionsOfShapes | src/main.js:444-463 | among the first four passes, only the label pass writes an inline style (`color`) |
| StylingProofs.StyleContributionsOfEdges | src/main.js:464-497 | among the last four passes, only the shadow pass writes an inline style (`filter`) |
| StylingProofs.NetAttrsKeys | src/main.js:444-497 | the passes write no attribute other than `rx`, `ry`, `stroke` and `fill` |
| StylingProofs.NetRadius | src/main.js:445-448 | `rx` and `ry` are written exactly on rects under a `.node`, both with `String(borderRadius)` |
| StylingProofs.NetStroke | src/main.js:451-477 | `stroke` is written exactly on node shapes, edge paths and markers: the edge colour on edges and markers, since those passes come later, and the border colour on the other node shapes |
| StylingProofs.NetFill | src/main.js:456-477 | `fill` is written exactly on default-node shapes, `text` and markers: the edge colour on markers, else the text colour on `text`, else the secondary fill |
| StylingProofs.NetStyleByCategory | src/main.js:461-497 | the inline styles written are `color` (the text colour) exactly on label elements and `filter: url(#pretty-shadow)` exactly on `.node` elements |
| StylingProofs.ThemeAttributesByCategory | src/main.js:444-497 | an element's attributes and style after the passes are its own, overlaid with the net writes above; tag, classes and children stay; an element no selector selects is unchanged |
| StylingOutcome.StyledAtBack | src/main.js:444-497 | every path into a styled subtree is a path into the original, with the same labels along it |
| StylingOutcome.StyleSvgAt | src/main.js:433-498 | every element below the root of the styled document is the element at the same path after the guarded insertion, same label, with the passes' net writes for its label and ancestry laid over its attributes and style |
| StylingOutcome.StyleSvgGivesThemeAttributes | src/main.js:444-477 | on the returned document, node rects carry `rx`/`ry` = the radius; edge paths and markers carry the edge colour as stroke, other node shapes the border colour; markers carry the edge colour as fill, else `text` the text colour, else default-node shapes the secondary fill |
| StylingOutcome.StyleSvgGivesThemeStyles | src/main.js:461-497 | on the returned document, label elements carry the text colour and `.node` elements the shadow filter as inline styles |
| StylingOutcome.NetAttrKeySet | src/main.js:444-477 | the attribute keys written on an element are determined by which selectors select it: `rx`/`ry`, `stroke`, `fill` |
| StylingOutcome.NetStyleKeySet | src/main.js:461-497 | the inline-style keys written on an element are determined by which selectors select it: `color`, `filter` |
| StylingOutcome.OwnOverride | src/main.js:444-497 | on one element, one theme's passes followed by another's leave what the second theme's passes alone leave |
| StylingOutcome.StyledOverride | src/main.js:444-497 | the same on every element of a subtree |
| StylingOutcome.RestyleOverride | src/main.js:444-497 | the same for the whole document below the root |
| StylingOutcome.StyleSvgOverride | src/main.js:433-498 | styling a document already styled with one theme again with another gives the document styled with the second theme alone: no value of the first theme survives |
| Export.BackgroundColor | src/main.js:533 | the trimmed `--mermaid-bg` value, or `#ffffff` when that is empty; never empty, and never starting or ending with white space |
| Export.BackgroundRect | src/main.js:534-537 | a childless `rect` with width and height `100%` and the given fill, and no other attribute |
| Export.WithNamespaces | src/main.js:529-530 | both namespace attributes are set to the SVG and XLink namespaces, and every other attribute is kept |
| Export.PrepareExport | src/main.js:526-538 | the copy keeps tag, classes and style; it declares the namespaces; its first child is the background `rect`, and its other children are the original children in order |
| Export.ExportSize | src/main.js:526-538 | the copy has exactly one element more than the shown SVG |
| Export.ExportRoundTrip | src/main.js:526-538 | removing the namespace attributes and the first child of the copy gives the shown SVG back, less any namespace declarations of its own: the preparation loses nothing else |
| Export.ExportRoundTripUndeclared | src/main.js:526-538 | for a root that does not declare the namespaces itself, the same gives the shown SVG back exactly |
| Export.NamespacesAlreadyDeclared | src/main.js:529-530 | on a root that already declares both namespaces with these values, setting them changes no attribute |
| Editor.ErrorText | src/main.js:429 | the error banner's text is the error's message, or `Invalid Mermaid syntax` when that is empty; never empty |
| Editor.DefaultDiagramIsNotBlank | src/main.js:41-63 | the sample diagram is not blank after trimming, so a first visit renders it |
| Editor.Render | src/main.js:401-431 | blank code shows the placeholder, hides the error and takes no render id; a parse failure keeps the preview and the counter and shows the message; each successful parse takes the counter plus one; a render failure keeps the preview and shows its message; a drawing replaces the preview and hides the error |
| Editor.ShownSvg | src/main.js:420-424 | definition: the SVG the preview holds is the engine's drawing after the styling step with the theme in use; see Editor.RenderedDiagramIsStyled |
| Editor.RenderedDiagramIsStyled | src/main.js:420-424 | a diagram put up by a render shows the engine's drawing after the styling step, and styling it again changes nothing |
| Editor.RenderIdsIncrease | src/main.js:416-417 | over any sequence of renders, the render ids handed out strictly increase, all lie above the starting counter, and the counter ends at the number of ids handed out past its start |
| Editor.RenderIdsDistinct | src/main.js:416-417 | render ids are pairwise distinct |
| Editor.RenderStep | src/main.js:401-431 | the render statement by statement, giving the screen and render id of `Render` |
| Editor.EditorPage.constructor | src/main.js:161-180 | the preset falls back to `modern`, the custom theme to the preset's defaults and the code to the sample diagram; the engine is configured from them; the screen is that of one render |
| Editor.EditorPage.RenderDiagram | src/main.js:401-431 | the screen and the render id become those of `Render` on the current code, configuration and theme; code, preset, theme and configuration stay |
| Editor.EditorPage.SelectPreset | src/main.js:205-215 | the preset is set, the custom theme reset to its defaults, the engine reconfigured and the code rendered |
| Editor.EditorPage.EditTheme | src/main.js:225-256 | one panel edit is applied to the custom theme, the engine reconfigured under the same preset, and the code rendered |
| Editor.EditorPage.ResetCustomTheme | src/main.js:259-267 | the custom theme goes back to the current preset's defaults, the engine is reconfigured and the code rendered |
| Editor.EditorPage.EditCode | src/main.js:192-198 | the new code is stored and rendered under the same configuration and theme |
| Editor.EditorPage.GetSvgContent | src/main.js:518-541 | nothing when no diagram is shown; otherwise the export copy of the shown SVG, whose children after the first are the shown SVG's children; the page is not changed |

## Left out

- The Mermaid library: `parse`, `render` and `initialize` are foreign code. `parse` and `render` are a parameter of the model (`Editor.Mermaid`). `initialize` is represented by the page's `engineConfig` field, which both functions receive.
- Asynchrony: the two engine calls are awaited within one render, and renders are not interleaved. Since the code has no staleness check, the model does not discard late results either.
- The render id string `mermaid-diagram-N` is represented by the number N.
- The debounce timer on code edits, the theme panel's hide delay and the toast timeouts: timers are not modelled. `EditCode` is the render that fires once typing pauses.
- localStorage and JSON: `init`'s reads become constructor parameters, with `""` or `None` for a missing entry. The writes in `saveCode` and `saveCustomTheme` are left out. A stored theme that `JSON.parse` rejects or that lacks fields is not modelled.
- `setTheme`, `populatePanel`, `toggleThemePanel` and `showToast` only change presentation, so they are left out.
- Keyboard shortcuts: Ctrl/Cmd+S only shows a toast, and Escape only closes the theme panel, so both are left out. Ctrl/Cmd+Shift+C copies the export copy made by `getSvgContent`. That is modelled by `Editor.EditorPage.GetSvgContent`; the clipboard write itself is left out with the other export side effects below.
- The `data-theme` attribute and the preset select's own value: the preset the page uses is the `preset` field.
- `updateZoomTransform`: the CSS transform string and the percentage readout are display-only. The viewport state they are computed from is modelled.
- Styling.IntToString: a radius of magnitude 10^21 or more is rendered as plain digits, whereas JavaScript's `String` uses exponent form there.
- Floating point: zoom and pan are exact reals, so the IEEE rounding of `zoomLevel * 1.25` and similar products is not modelled.
- Theme.ApplyEdit: the sliders' values arrive already read by `parseInt`. A `NaN` from a non-numeric value is not modelled.
- Object keys that JavaScript inherits from the prototype (such as `constructor`) are treated as absent from the preset and engine-theme tables.
- Text nodes: the SVG tree holds elements only. The whitespace text that `innerHTML +=` adds around the filter is not modelled.
- Selectors see only ancestors inside the SVG root. Ancestors of the root in the page, and the root itself, are never selected by `svg.querySelectorAll`.
- One SVG root is assumed: the early return of `styleSvg` when no SVG is present is not modelled, since a render always yields one.
- `innerHTML +=` on the `defs` element re-parses its content. The model appends the filter element to the existing children.
- The DOM is mutated in place by the source. The model threads values: the styling passes and the export copy are functions on element trees, and aliasing between DOM nodes is not modelled.
- The preview's diagram is kept as the engine's drawing together with the theme it was styled with. `Editor.ShownSvg` gives the SVG the page shows through the function `StyleSvg`. `Styling.StyleSvgSteps` is proved equal to it but is not called by the page, so the in-place order of the styling statements inside a render is represented by that equality, not executed by `RenderStep`.
- `showError` prefixes the message with a warning sign. The model keeps the message without the prefix, and `hideError`'s clearing of the text is represented by the hidden banner.
- The sample diagram keeps, character for character, the double-encoded emoji that stand in the source text.
- The export side effects (`XMLSerializer`, `Blob`, object URLs, canvas drawing, PNG encoding, image callbacks, the clipboard and its fallback) and `getComputedStyle`: the background variable's value is a parameter of `GetSvgContent`.
