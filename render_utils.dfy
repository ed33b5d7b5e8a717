// The engine-wide render queue: draw callbacks are appended and the whole
// queue is replayed, in insertion order, every time it is dispatched.  The
// queue never shrinks.  Callbacks are opaque, so each is known by an
// identifier and calling it is an event of the ghost trace.
module RenderUtils {

  type DrawCallId = nat

  class RenderQueue {
    var drawCalls: seq<DrawCallId>
    /** How many callbacks have been added. */
    ghost var added: nat
    /** Every callback invocation so far, in order. */
    ghost var invoked: seq<DrawCallId>

    ghost predicate Valid()
      reads this
    {
      |drawCalls| == added
    }

    constructor ()
      ensures Valid() && drawCalls == [] && invoked == []
    {
      drawCalls := [];
      added := 0;
      invoked := [];
    }

    method AddRenderPass(drawCall: DrawCallId)
      requires Valid()
      modifies this`drawCalls, this`added
      ensures Valid()
      ensures drawCalls == old(drawCalls) + [drawCall] && added == old(added) + 1
    {
      drawCalls := drawCalls + [drawCall];
      added := added + 1;
    }

    /** Calls every stored callback once, in insertion order, and keeps them all. */
    method DispatchRenderQueue()
      modifies this`invoked
      ensures invoked == old(invoked) + drawCalls
    {
      for i := 0 to |drawCalls|
        invariant invoked == old(invoked) + drawCalls[..i]
      {
        assert drawCalls[..i + 1] == drawCalls[..i] + [drawCalls[i]];
        invoked := invoked + [drawCalls[i]];
      }
      assert drawCalls[..|drawCalls|] == drawCalls;
    }
  }

  /** Dispatching twice replays the same sequence of callbacks twice. */
  method DispatchTwice(queue: RenderQueue)
    modifies queue`invoked
    ensures queue.drawCalls == old(queue.drawCalls)
    ensures queue.invoked == old(queue.invoked) + queue.drawCalls + queue.drawCalls
  {
    queue.DispatchRenderQueue();
    queue.DispatchRenderQueue();
  }
}
