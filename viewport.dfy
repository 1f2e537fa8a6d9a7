/** The pan/zoom viewport over the rendered diagram: a zoom factor kept within
    [0.1, 5] and an unclamped pan offset, driven by the zoom buttons, the mouse wheel
    and click-drag panning. Numbers are exact reals. */
module Viewport {

  const MinZoom: real := 0.1
  const MaxZoom: real := 5.0
  /** Factor of one press of the zoom-in / zoom-out buttons. */
  const ButtonStep: real := 1.25
  /** Factor of one wheel notch. */
  const WheelStep: real := 1.1

  function Min(a: real, b: real): real { if a <= b then a else b }
  function Max(a: real, b: real): real { if a >= b then a else b }

  /** The input events that change the viewport. */
  datatype Event =
    | ZoomIn
    | ZoomOut
    | Wheel(deltaY: real)
    | Reset
    | MouseDown(button: int, clientX: real, clientY: real)
    | MouseMove(clientX: real, clientY: real)
    | MouseUp

  /** The viewport state: zoom, pan offset, whether a drag is in progress, and the
      pointer position minus the pan offset captured when the drag began. */
  datatype View = View(zoom: real, panX: real, panY: real, panning: bool, startX: real, startY: real)

  const Initial: View := View(1.0, 0.0, 0.0, false, 0.0, 0.0)

  predicate ZoomInRange(z: real)
  {
    MinZoom <= z <= MaxZoom
  }

  /** The zoom after one button press in: scaled up and capped at 5. */
  function ZoomedIn(z: real): real { Min(z * ButtonStep, MaxZoom) }

  /** The zoom after one button press out: scaled down and floored at 0.1. */
  function ZoomedOut(z: real): real { Max(z / ButtonStep, MinZoom) }

  /** The zoom after one wheel notch: up when scrolling up, down otherwise, clamped both ways. */
  function Wheeled(z: real, deltaY: real): real
  {
    var factor := if deltaY < 0.0 then WheelStep else 1.0 / WheelStep;
    Min(Max(z * factor, MinZoom), MaxZoom)
  }

  /** The effect of one event on the viewport. */
  function Step(v: View, e: Event): View
  {
    match e
    case ZoomIn => v.(zoom := ZoomedIn(v.zoom))
    case ZoomOut => v.(zoom := ZoomedOut(v.zoom))
    case Wheel(dy) => v.(zoom := Wheeled(v.zoom, dy))
    case Reset => v.(zoom := 1.0, panX := 0.0, panY := 0.0)
    case MouseDown(button, x, y) =>
      if button != 0 then v
      else v.(panning := true, startX := x - v.panX, startY := y - v.panY)
    case MouseMove(x, y) =>
      if !v.panning then v
      else v.(panX := x - v.startX, panY := y - v.startY)
    case MouseUp =>
      if !v.panning then v
      else v.(panning := false)
  }

  /** The viewport after a sequence of events, applied in order. */
  function Run(v: View, events: seq<Event>): View
    decreases |events|
  {
    if events == [] then v else Run(Step(v, events[0]), events[1..])
  }

  /** Every single event keeps the zoom within [0.1, 5]. The buttons clamp only one side
      each, so this relies on the zoom already being in range. */
  lemma StepKeepsZoomInRange(v: View, e: Event)
    requires ZoomInRange(v.zoom)
    ensures ZoomInRange(Step(v, e).zoom)
  {
  }

  /** From any in-range state, in particular the initial zoom 1, every sequence of events
      keeps the zoom within [0.1, 5]. */
  lemma {:induction false} RunKeepsZoomInRange(v: View, events: seq<Event>)
    requires ZoomInRange(v.zoom)
    ensures ZoomInRange(Run(v, events).zoom)
    decreases |events|
  {
    if events != [] {
      StepKeepsZoomInRange(v, events[0]);
      RunKeepsZoomInRange(Step(v, events[0]), events[1..]);
    }
  }

  /** Reset from any state gives zoom 1 and pan (0, 0) and leaves the drag state alone. */
  lemma ResetIsIdentityTransform(v: View)
    ensures Step(v, Reset).zoom == 1.0 && Step(v, Reset).panX == 0.0 && Step(v, Reset).panY == 0.0
    ensures Step(v, Reset).panning == v.panning
  {
  }

  /** A non-primary button press, and any move or release while not dragging, changes nothing. */
  lemma IgnoredPointerEvents(v: View, b: int, x: real, y: real)
    ensures b != 0 ==> Step(v, MouseDown(b, x, y)) == v
    ensures !v.panning ==> Step(v, MouseMove(x, y)) == v && Step(v, MouseUp) == v
  {
  }

  /** After a primary press at (x, y), a move to (x', y') puts the pan at the pan the
      view had when pressed plus the pointer's displacement; a release then ends the drag. */
  lemma DragMovesPanByPointerDelta(v: View, x: real, y: real, x': real, y': real)
    ensures var w := Step(Step(v, MouseDown(0, x, y)), MouseMove(x', y'));
      && w.panX == v.panX + (x' - x) && w.panY == v.panY + (y' - y)
      && w.zoom == v.zoom
      && !Step(w, MouseUp).panning
  {
  }

  /** Events other than a press or a release do not touch the drag anchor or the drag flag. */
  predicate KeepsDrag(e: Event)
  {
    !e.MouseDown? && !e.MouseUp?
  }

  /** During a drag, whatever zooming, resetting and moving happens in between, the pan after
      a final move to (x', y') is the pan at press time plus the displacement from the press
      point: a reset in the middle of a drag is undone by the next move. */
  lemma {:induction false} DragTracksPointer(v: View, x: real, y: real, between: seq<Event>, x': real, y': real)
    requires forall i :: 0 <= i < |between| ==> KeepsDrag(between[i])
    ensures var w := Run(Step(v, MouseDown(0, x, y)), between + [MouseMove(x', y')]);
      && w.panX == v.panX + (x' - x) && w.panY == v.panY + (y' - y)
      && w.panning
  {
    var pressed := Step(v, MouseDown(0, x, y));
    DragAnchorKept(pressed, between, [MouseMove(x', y')]);
  }

  lemma {:induction false} DragAnchorKept(v: View, between: seq<Event>, rest: seq<Event>)
    requires v.panning
    requires forall i :: 0 <= i < |between| ==> KeepsDrag(between[i])
    ensures Run(v, between + rest) == Run(Run(v, between), rest)
    ensures var w := Run(v, between); w.panning && w.startX == v.startX && w.startY == v.startY
    decreases |between|
  {
    if between != [] {
      assert (between + rest)[1..] == between[1..] + rest;
      DragAnchorKept(Step(v, between[0]), between[1..], rest);
    } else {
      assert between + rest == rest;
    }
  }

  /** `n` presses of the same event. */
  function Repeat(v: View, e: Event, n: nat): View
  {
    if n == 0 then v else Step(Repeat(v, e, n - 1), e)
  }

  /** Seven presses of zoom-in from 1 give 1.25^7, just under the cap. */
  lemma SevenZoomIns()
    ensures Repeat(Initial, ZoomIn, 7).zoom == 4.76837158203125
  {
    assert Repeat(Initial, ZoomIn, 1).zoom == 1.25;
    assert Repeat(Initial, ZoomIn, 2).zoom == 1.5625;
    assert Repeat(Initial, ZoomIn, 3).zoom == 1.953125;
    assert Repeat(Initial, ZoomIn, 4).zoom == 2.44140625;
    assert Repeat(Initial, ZoomIn, 5).zoom == 3.0517578125;
    assert Repeat(Initial, ZoomIn, 6).zoom == 3.814697265625;
  }

  /** From zoom 1, every number of zoom-in presses from eight on (fifty, say) leaves the
      zoom at exactly the cap 5. */
  lemma {:induction false} ZoomInSaturates(n: nat)
    requires n >= 8
    ensures Repeat(Initial, ZoomIn, n).zoom == MaxZoom
  {
    if n == 8 {
      SevenZoomIns();
    } else {
      ZoomInSaturates(n - 1);
    }
  }

  /** Ten presses of zoom-out from 1 give 0.8^10, just above the floor. */
  lemma TenZoomOuts()
    ensures Repeat(Initial, ZoomOut, 10).zoom == 0.1073741824
  {
    assert Repeat(Initial, ZoomOut, 1).zoom == 0.8;
    assert Repeat(Initial, ZoomOut, 2).zoom == 0.64;
    assert Repeat(Initial, ZoomOut, 3).zoom == 0.512;
    assert Repeat(Initial, ZoomOut, 4).zoom == 0.4096;
    assert Repeat(Initial, ZoomOut, 5).zoom == 0.32768;
    assert Repeat(Initial, ZoomOut, 6).zoom == 0.262144;
    assert Repeat(Initial, ZoomOut, 7).zoom == 0.2097152;
    assert Repeat(Initial, ZoomOut, 8).zoom == 0.16777216;
    assert Repeat(Initial, ZoomOut, 9).zoom == 0.134217728;
  }

  /** From zoom 1, every number of zoom-out presses from eleven on (fifty, say) leaves the
      zoom at exactly the floor 0.1. */
  lemma {:induction false} ZoomOutSaturates(n: nat)
    requires n >= 11
    ensures Repeat(Initial, ZoomOut, n).zoom == MinZoom
  {
    if n == 11 {
      TenZoomOuts();
    } else {
      ZoomOutSaturates(n - 1);
    }
  }

  /** The viewport as the editor page keeps it: six module-level variables, changed by the
      button, wheel and mouse handlers. */
  class ViewportController {
    var zoomLevel: real
    var panX: real
    var panY: real
    var isPanning: bool
    var panStartX: real
    var panStartY: real

    /** The abstract value of the controller. */
    function State(): View
      reads this
    {
      View(zoomLevel, panX, panY, isPanning, panStartX, panStartY)
    }

    ghost predicate Valid()
      reads this
    {
      ZoomInRange(zoomLevel)
    }

    constructor ()
      ensures State() == Initial && Valid()
    {
      zoomLevel, panX, panY := 1.0, 0.0, 0.0;
      isPanning := false;
      panStartX, panStartY := 0.0, 0.0;
    }

    /** The zoom-in button. */
    method ZoomInClick()
      requires Valid()
      modifies this
      ensures Valid() && State() == Step(old(State()), ZoomIn)
    {
      zoomLevel := Min(zoomLevel * ButtonStep, MaxZoom);
    }

    /** The zoom-out button. */
    method ZoomOutClick()
      requires Valid()
      modifies this
      ensures Valid() && State() == Step(old(State()), ZoomOut)
    {
      zoomLevel := Max(zoomLevel / ButtonStep, MinZoom);
    }

    /** The wheel over the preview (the page's own scrolling is suppressed). */
    method OnWheel(deltaY: real)
      requires Valid()
      modifies this
      ensures Valid() && State() == Step(old(State()), Wheel(deltaY))
    {
      var factor := if deltaY < 0.0 then WheelStep else 1.0 / WheelStep;
      zoomLevel := Min(Max(zoomLevel * factor, MinZoom), MaxZoom);
    }

    /** The reset button: zoom 1, pan (0, 0). */
    method ResetZoom()
      requires Valid()
      modifies this
      ensures Valid() && State() == Step(old(State()), Reset)
      ensures zoomLevel == 1.0 && panX == 0.0 && panY == 0.0
    {
      zoomLevel := 1.0;
      panX := 0.0;
      panY := 0.0;
    }

    /** A button press over the preview: only the primary button starts a drag. */
    method OnMouseDown(button: int, clientX: real, clientY: real)
      requires Valid()
      modifies this
      ensures Valid() && State() == Step(old(State()), MouseDown(button, clientX, clientY))
    {
      if button != 0 {
        return;
      }
      isPanning := true;
      panStartX := clientX - panX;
      panStartY := clientY - panY;
    }

    /** Pointer movement anywhere in the page: pans only while dragging. */
    method OnMouseMove(clientX: real, clientY: real)
      requires Valid()
      modifies this
      ensures Valid() && State() == Step(old(State()), MouseMove(clientX, clientY))
    {
      if !isPanning {
        return;
      }
      panX := clientX - panStartX;
      panY := clientY - panStartY;
    }

    /** A button release anywhere in the page ends a drag. */
    method OnMouseUp()
      requires Valid()
      modifies this
      ensures Valid() && State() == Step(old(State()), MouseUp)
    {
      if !isPanning {
        return;
      }
      isPanning := false;
    }
  }
}
