// The application's layer stack and the window's present loop.  Each frame
// every layer is updated (back to front) and those asking to leave are shut
// down and removed; queued layers are then initialised and appended; finally
// every layer renders, front to back.  Presenting advances the semaphore
// slot, or flags the swapchain for a rebuild that the main loop performs
// once the window has a non-empty framebuffer.
module Application {

  import opened Wrappers
  import opened VkTypes

  /** Layers are referred to by identity; what a layer does is outside the model. */
  type LayerId = nat

  datatype LayerEvent = Update(layer: LayerId) | Shutdown(layer: LayerId) | Init(layer: LayerId) | Render(layer: LayerId)

  /** The layers that stay, in their original order. */
  function Survivors(layers: seq<LayerId>, detach: LayerId -> bool): seq<LayerId>
  {
    if layers == [] then []
    else (if detach(layers[0]) then [] else [layers[0]]) + Survivors(layers[1..], detach)
  }

  /** A layer stays exactly when it was there and did not ask to leave; none is duplicated. */
  lemma {:induction false} SurvivorsAreTheStayingLayers(layers: seq<LayerId>, detach: LayerId -> bool)
    ensures |Survivors(layers, detach)| + |Leaving(layers, detach)| == |layers|
    ensures forall x :: x in Survivors(layers, detach) <==> x in layers && !detach(x)
    ensures forall x :: x in Leaving(layers, detach) <==> x in layers && detach(x)
  {
    if layers != [] {
      SurvivorsAreTheStayingLayers(layers[1..], detach);
      assert layers == [layers[0]] + layers[1..];
    }
  }

  /** One layer's turn in the update phase: its update, then its shutdown if it asked to leave. */
  function UpdateTurn(layer: LayerId, detach: LayerId -> bool): seq<LayerEvent>
  {
    [Update(layer)] + (if detach(layer) then [Shutdown(layer)] else [])
  }

  /** The update phase visits the layers from the back to the front. */
  function UpdatePhase(layers: seq<LayerId>, detach: LayerId -> bool): seq<LayerEvent>
  {
    if layers == [] then []
    else UpdatePhase(layers[1..], detach) + UpdateTurn(layers[0], detach)
  }

  function InitEvents(layers: seq<LayerId>): seq<LayerEvent>
  {
    if layers == [] then [] else InitEvents(layers[..|layers| - 1]) + [Init(layers[|layers| - 1])]
  }

  function RenderEvents(layers: seq<LayerId>): seq<LayerEvent>
  {
    if layers == [] then [] else RenderEvents(layers[..|layers| - 1]) + [Render(layers[|layers| - 1])]
  }

  function Reversed(s: seq<LayerId>): seq<LayerId>
  {
    if s == [] then [] else Reversed(s[1..]) + [s[0]]
  }

  /** Reversing keeps exactly the same layers. */
  lemma {:induction false} ReversedSameLayers(s: seq<LayerId>, layer: LayerId)
    ensures layer in Reversed(s) <==> layer in s
  {
    if s != [] {
      ReversedSameLayers(s[1..], layer);
      assert s == [s[0]] + s[1..];
    }
  }

  /** The layers updated by a run of events, in the order they were updated. */
  function UpdatedLayers(events: seq<LayerEvent>): seq<LayerId>
  {
    if events == [] then []
    else
      var last := events[|events| - 1];
      UpdatedLayers(events[..|events| - 1]) + (if last.Update? then [last.layer] else [])
  }

  /** The layers shut down by a run of events. */
  function ShutDownLayers(events: seq<LayerEvent>): seq<LayerId>
  {
    if events == [] then []
    else
      var last := events[|events| - 1];
      ShutDownLayers(events[..|events| - 1]) + (if last.Shutdown? then [last.layer] else [])
  }

  lemma {:induction false} UpdatedLayersAppend(a: seq<LayerEvent>, b: seq<LayerEvent>)
    ensures UpdatedLayers(a + b) == UpdatedLayers(a) + UpdatedLayers(b)
    ensures ShutDownLayers(a + b) == ShutDownLayers(a) + ShutDownLayers(b)
    decreases |b|
  {
    if b != [] {
      assert (a + b)[..|a + b| - 1] == a + b[..|b| - 1];
      assert (a + b)[|a + b| - 1] == b[|b| - 1];
      UpdatedLayersAppend(a, b[..|b| - 1]);
    } else {
      assert a + b == a;
    }
  }

  /**
   * The update phase updates every layer exactly once, last layer first,
   * and shuts down exactly the layers that asked to leave, in that same
   * back-to-front order.
   */
  lemma {:induction false} UpdatePhaseVisitsBackToFront(layers: seq<LayerId>, detach: LayerId -> bool)
    ensures UpdatedLayers(UpdatePhase(layers, detach)) == Reversed(layers)
    ensures ShutDownLayers(UpdatePhase(layers, detach)) == Reversed(Leaving(layers, detach))
  {
    if layers != [] {
      UpdatePhaseVisitsBackToFront(layers[1..], detach);
      UpdatedLayersAppend(UpdatePhase(layers[1..], detach), UpdateTurn(layers[0], detach));
      var turn := UpdateTurn(layers[0], detach);
      assert UpdatedLayers([Update(layers[0])]) == [layers[0]] by {
        assert [Update(layers[0])][..0] == [];
      }
      assert ShutDownLayers([Update(layers[0])]) == [] by {
        assert [Update(layers[0])][..0] == [];
      }
      if detach(layers[0]) {
        UpdatedLayersAppend([Update(layers[0])], [Shutdown(layers[0])]);
        assert UpdatedLayers([Shutdown(layers[0])]) == [] && ShutDownLayers([Shutdown(layers[0])]) == [layers[0]] by {
          assert [Shutdown(layers[0])][..0] == [];
        }
        assert Leaving(layers, detach) == [layers[0]] + Leaving(layers[1..], detach);
        assert Reversed(Leaving(layers, detach)) == Reversed(Leaving(layers[1..], detach)) + [layers[0]];
      } else {
        assert turn == [Update(layers[0])];
        assert Leaving(layers, detach) == Leaving(layers[1..], detach);
      }
    }
  }

  /** The layers that ask to leave, in their original order. */
  function Leaving(layers: seq<LayerId>, detach: LayerId -> bool): seq<LayerId>
  {
    if layers == [] then []
    else (if detach(layers[0]) then [layers[0]] else []) + Leaving(layers[1..], detach)
  }

  lemma InitEventsAppend(layers: seq<LayerId>, layer: LayerId)
    ensures InitEvents(layers + [layer]) == InitEvents(layers) + [Init(layer)]
  {
    assert (layers + [layer])[..|layers|] == layers;
  }

  lemma RenderEventsAppend(layers: seq<LayerId>, layer: LayerId)
    ensures RenderEvents(layers + [layer]) == RenderEvents(layers) + [Render(layer)]
  {
    assert (layers + [layer])[..|layers|] == layers;
  }

  /** Visiting layer `i` extends what was visited behind it. */
  lemma VisitStep(all: seq<LayerId>, i: nat, detach: LayerId -> bool)
    requires i < |all|
    ensures Survivors(all[i..], detach) == (if detach(all[i]) then [] else [all[i]]) + Survivors(all[i + 1..], detach)
    ensures UpdatePhase(all[i..], detach) == UpdatePhase(all[i + 1..], detach) + UpdateTurn(all[i], detach)
    ensures all[..i + 1] == all[..i] + [all[i]]
  {
    assert all[i..][1..] == all[i + 1..];
  }

  class Application {
    var layers: seq<LayerId>
    /** Layers pushed since the last frame, first pushed first. */
    var pushQueue: seq<LayerId>
    ghost var trace: seq<LayerEvent>

    constructor ()
      ensures layers == [] && pushQueue == [] && trace == []
    {
      layers := [];
      pushQueue := [];
      trace := [];
    }

    /**
     * One frame of the layer stack.  `detach(l)` is what layer `l`'s
     * Update returns this frame.
     */
    method RenderFrame(detach: LayerId -> bool)
      modifies this
      ensures layers == Survivors(old(layers), detach) + old(pushQueue)
      ensures pushQueue == []
      ensures trace == old(trace) + UpdatePhase(old(layers), detach) + InitEvents(old(pushQueue)) + RenderEvents(layers)
    {
      UpdateLayers(detach);
      AttachPushedLayers();
      RenderLayers();
    }

    /** Updates the layers back to front, so that erasing does not disturb the layers still to visit. */
    method UpdateLayers(detach: LayerId -> bool)
      modifies this`layers, this`trace
      ensures layers == Survivors(old(layers), detach)
      ensures trace == old(trace) + UpdatePhase(old(layers), detach)
    {
      var all := layers;
      var current := layers;
      ghost var events: seq<LayerEvent> := [];
      var i := |all|;
      while i > 0
        invariant 0 <= i <= |all|
        invariant current == all[..i] + Survivors(all[i..], detach)
        invariant events == UpdatePhase(all[i..], detach)
        invariant trace == old(trace)
      {
        i := i - 1;
        VisitStep(all, i, detach);
        assert current[i] == all[i];
        events := events + [Update(current[i])];
        if detach(current[i]) {
          events := events + [Shutdown(current[i])];
          current := current[..i] + current[i + 1..];
        }
      }
      assert all[0..] == all;
      layers := current;
      trace := trace + events;
    }

    /** Initialises the queued layers, first pushed first, and appends them. */
    method AttachPushedLayers()
      modifies this`layers, this`pushQueue, this`trace
      ensures layers == old(layers) + old(pushQueue)
      ensures pushQueue == []
      ensures trace == old(trace) + InitEvents(old(pushQueue))
    {
      ghost var pushed: seq<LayerId> := [];
      while pushQueue != []
        invariant old(pushQueue) == pushed + pushQueue
        invariant layers == old(layers) + pushed
        invariant trace == old(trace) + InitEvents(pushed)
        decreases |pushQueue|
      {
        var layer := pushQueue[0];
        pushQueue := pushQueue[1..];
        trace := trace + [Init(layer)];
        layers := layers + [layer];
        InitEventsAppend(pushed, layer);
        pushed := pushed + [layer];
      }
      assert pushed == old(pushQueue);
    }

    /** Renders the layers front to back. */
    method RenderLayers()
      modifies this`trace
      ensures trace == old(trace) + RenderEvents(layers)
    {
      var k := 0;
      while k < |layers|
        invariant k <= |layers|
        invariant trace == old(trace) + RenderEvents(layers[..k])
      {
        RenderEventsAppend(layers[..k], layers[k]);
        assert layers[..k + 1] == layers[..k] + [layers[k]];
        trace := trace + [Render(layers[k])];
        k := k + 1;
      }
      assert layers[..k] == layers;
    }
  }

  // ---------------------------------------------------------------------------
  // The window's present loop

  /** The least number of swapchain images asked of the GUI back end on every rebuild. */
  const MIN_IMAGE_COUNT: nat := 2

  /** What one present call hands to the queue: the semaphore slot waited on and the image shown. */
  datatype PresentRequest = PresentRequest(semaphoreIndex: nat, imageIndex: nat)

  class MainWindow {
    var imageCount: nat
    var semaphoreIndex: nat
    /** The image presented next. */
    var frameIndex: nat
    /** Set when presenting found the swapchain out of date or suboptimal. */
    var swapChainRebuild: bool

    ghost predicate Valid()
      reads this
    {
      imageCount > 0 && semaphoreIndex < imageCount
    }

    /** The window as the GUI back end first sets it up; no rebuild is pending. */
    constructor (imageCount: nat)
      requires imageCount > 0
      ensures Valid() && this.imageCount == imageCount
      ensures semaphoreIndex == 0 && frameIndex == 0 && !swapChainRebuild
    {
      this.imageCount := imageCount;
      semaphoreIndex := 0;
      frameIndex := 0;
      swapChainRebuild := false;
    }

    /**
     * Does nothing while a rebuild is pending.  Otherwise presents image
     * `frameIndex` after the current semaphore slot; `result` is what the
     * queue reports.  Out-of-date or suboptimal flags a rebuild without
     * advancing; any other result moves to the next semaphore slot.
     */
    method FramePresent(result: VkResult) returns (presented: Option<PresentRequest>)
      requires Valid()
      modifies this`semaphoreIndex, this`swapChainRebuild
      ensures Valid()
      ensures presented.None? <==> old(swapChainRebuild)
      ensures presented.Some? ==> presented.value == PresentRequest(old(semaphoreIndex), frameIndex)
      ensures old(swapChainRebuild) ==> semaphoreIndex == old(semaphoreIndex) && swapChainRebuild
      ensures !old(swapChainRebuild) && result in {OutOfDate, Suboptimal} ==>
        semaphoreIndex == old(semaphoreIndex) && swapChainRebuild
      ensures !old(swapChainRebuild) && result !in {OutOfDate, Suboptimal} ==>
        semaphoreIndex == (old(semaphoreIndex) + 1) % imageCount && !swapChainRebuild
    {
      if swapChainRebuild {
        return None;
      }
      presented := Some(PresentRequest(semaphoreIndex, frameIndex));
      if result == OutOfDate || result == Suboptimal {
        swapChainRebuild := true;
        return;
      }
      semaphoreIndex := (semaphoreIndex + 1) % imageCount;
    }

    /**
     * The rebuild step of the main loop: a pending rebuild is carried out
     * only for a non-empty framebuffer, asking the GUI back end for at
     * least MIN_IMAGE_COUNT images; the resized window (whose image count
     * and semaphore slot the back end chooses) restarts at image 0.
     */
    method HandleRebuild(width: int, height: int, resizedImageCount: nat, resizedSemaphoreIndex: nat)
      returns (requestedMinImageCount: Option<nat>)
      requires Valid()
      requires resizedSemaphoreIndex < resizedImageCount
      modifies this
      ensures Valid()
      ensures requestedMinImageCount.Some? <==> old(swapChainRebuild) && width > 0 && height > 0
      ensures requestedMinImageCount.Some? ==>
        && requestedMinImageCount.value == MIN_IMAGE_COUNT
        && !swapChainRebuild && frameIndex == 0
        && imageCount == resizedImageCount && semaphoreIndex == resizedSemaphoreIndex
      ensures requestedMinImageCount.None? ==>
        && swapChainRebuild == old(swapChainRebuild) && frameIndex == old(frameIndex)
        && imageCount == old(imageCount) && semaphoreIndex == old(semaphoreIndex)
    {
      requestedMinImageCount := None;
      if swapChainRebuild {
        if width > 0 && height > 0 {
          requestedMinImageCount := Some(MIN_IMAGE_COUNT);
          imageCount := resizedImageCount;
          semaphoreIndex := resizedSemaphoreIndex;
          frameIndex := 0;
          swapChainRebuild := false;
        }
      }
    }
  }

  /**
   * After an out-of-date or suboptimal present, nothing is presented until
   * a rebuild has been carried out for a non-empty framebuffer, and the
   * first present after it shows image 0.
   */
  method PresentAfterRebuild(window: MainWindow, first: VkResult, second: VkResult,
                             width: int, height: int, resizedImageCount: nat, resizedSemaphoreIndex: nat)
    returns (skipped: Option<PresentRequest>, resumed: Option<PresentRequest>)
    requires window.Valid() && !window.swapChainRebuild
    requires first in {OutOfDate, Suboptimal}
    requires resizedSemaphoreIndex < resizedImageCount
    modifies window
    ensures skipped.None?
    ensures resumed.Some? <==> width > 0 && height > 0
    ensures resumed.Some? ==> resumed.value == PresentRequest(resizedSemaphoreIndex, 0)
  {
    var firstPresented := window.FramePresent(first);
    skipped := window.FramePresent(second);
    var requested := window.HandleRebuild(width, height, resizedImageCount, resizedSemaphoreIndex);
    resumed := window.FramePresent(second);
  }
}
