// Canvas layers and the registry they share.  Every canvas takes the next
// identifier on Init and owns one viewport slot and one background colour
// in the registry; the renderer reads those slots by identifier.  Colours
// and viewport geometry are stored, never computed on, so they are kept as
// opaque real numbers.
module Canvas {

  import opened Wrappers
  import opened VkTypes
  import App = Application

  datatype Color = Color(r: real, g: real, b: real, a: real)

  datatype Viewport = Viewport(x: real, y: real, width: real, height: real, minDepth: real, maxDepth: real)

  const DEFAULT_BACKGROUND: Color := Color(0.49, 0.76, 1.0, 1.0)

  /** The state shared by all canvases: one viewport slot and one background per identifier handed out. */
  class Registry {
    var counter: nat
    var viewports: seq<Option<Viewport>>
    var backgrounds: seq<Color>

    ghost predicate Valid()
      reads this
    {
      |viewports| == counter && |backgrounds| == counter
    }

    constructor ()
      ensures Valid() && counter == 0
    {
      counter := 0;
      viewports := [];
      backgrounds := [];
    }

    /** The viewport of canvas `id`, available once that canvas has rendered and until it shuts down. */
    function GetViewport(id: nat): (r: Result<Viewport, Error>)
      requires Valid()
      reads this
      ensures r.Ok? <==> id < counter && viewports[id].Some?
      ensures r.Ok? ==> Some(r.value) == viewports[id]
      ensures r.Fail? ==> r.error == CanvasViewportUnavailable
    {
      if id < counter && viewports[id].Some? then Ok(viewports[id].value)
      else Fail(CanvasViewportUnavailable)
    }

    /** Sets the opaque background of canvas `id`; an identifier never handed out is an error. */
    method SetClearColor(r: real, g: real, b: real, id: nat) returns (result: Result<(), Error>)
      requires Valid()
      modifies this`backgrounds
      ensures Valid()
      ensures result.Ok? <==> id < counter
      ensures result.Fail? ==> result.error == CanvasUnknown && backgrounds == old(backgrounds)
      ensures result.Ok? ==> backgrounds == old(backgrounds)[id := Color(r, g, b, 1.0)]
    {
      if id < counter {
        backgrounds := backgrounds[id := Color(r, g, b, 1.0)];
        return Ok(());
      }
      return Fail(CanvasUnknown);
    }
  }

  class Canvas {
    var open: bool
    var id: nat

    constructor ()
      ensures open && id == 0
    {
      open := true;
      id := 0;
    }

    /** Takes the next identifier and a fresh slot: no viewport yet, the default background. */
    method Init(registry: Registry)
      requires registry.Valid()
      modifies this`id, registry
      ensures registry.Valid()
      ensures id == old(registry.counter) && registry.counter == id + 1
      ensures registry.viewports == old(registry.viewports) + [None]
      ensures registry.backgrounds == old(registry.backgrounds) + [DEFAULT_BACKGROUND]
    {
      id := registry.counter;
      registry.counter := registry.counter + 1;
      registry.viewports := registry.viewports + [None];
      registry.backgrounds := registry.backgrounds + [DEFAULT_BACKGROUND];
    }

    /** Clears this canvas's viewport so that nothing is drawn to a closed canvas. */
    method Shutdown(registry: Registry)
      requires registry.Valid() && id < registry.counter
      modifies registry`viewports
      ensures registry.Valid()
      ensures registry.viewports == old(registry.viewports)[id := None]
      ensures registry.GetViewport(id).Fail?
    {
      registry.viewports := registry.viewports[id := None];
    }

    /** The part of rendering that changes state: the window's content region becomes this canvas's viewport. */
    method StoreViewport(registry: Registry, viewport: Viewport)
      requires registry.Valid() && id < registry.counter
      modifies registry`viewports
      ensures registry.Valid()
      ensures registry.viewports == old(registry.viewports)[id := Some(viewport)]
      ensures registry.GetViewport(id) == Ok(viewport)
    {
      registry.viewports := registry.viewports[id := Some(viewport)];
    }

    /** A canvas asks to leave the layer stack once its window has been closed. */
    function Update(): (detach: bool)
      reads this
      ensures detach <==> !open
    {
      !open
    }
  }

  /**
   * A canvas on the application's layer stack, whose Update answer is its
   * layer's detach decision: after the update phase of a frame a closed
   * canvas has been shut down and is gone from the stack, while an open one
   * stays on it and is not shut down.
   */
  lemma ClosedCanvasLeavesTheStack(canvas: Canvas, layer: App.LayerId, layers: seq<App.LayerId>,
                                   detach: App.LayerId -> bool)
    requires layer in layers && detach(layer) == canvas.Update()
    ensures layer in App.Survivors(layers, detach) <==> canvas.open
    ensures layer in App.ShutDownLayers(App.UpdatePhase(layers, detach)) <==> !canvas.open
  {
    App.SurvivorsAreTheStayingLayers(layers, detach);
    App.UpdatePhaseVisitsBackToFront(layers, detach);
    App.ReversedSameLayers(App.Leaving(layers, detach), layer);
  }

  /**
   * Canvases initialised one after another receive the identifiers
   * 0, 1, 2, ... and the registry keeps one slot per identifier.
   */
  method InitAll(registry: Registry, canvases: seq<Canvas>)
    requires registry.Valid()
    requires forall i, j :: 0 <= i < j < |canvases| ==> canvases[i] != canvases[j]
    modifies registry, canvases
    ensures registry.Valid()
    ensures registry.counter == old(registry.counter) + |canvases|
    ensures forall i :: 0 <= i < |canvases| ==> canvases[i].id == old(registry.counter) + i
    ensures registry.viewports[old(registry.counter)..] == seq(|canvases|, _ => None)
  {
    var k := 0;
    while k < |canvases|
      invariant k <= |canvases|
      invariant registry.Valid()
      invariant registry.counter == old(registry.counter) + k
      invariant forall i :: 0 <= i < k ==> canvases[i].id == old(registry.counter) + i
      invariant registry.viewports[..old(registry.counter)] == old(registry.viewports)
      invariant registry.viewports[old(registry.counter)..] == seq(k, _ => None)
    {
      canvases[k].Init(registry);
      k := k + 1;
    }
  }
}
