/**
 * The engine's operation channel (kscope/core/engine.h): a Connection carries
 * results, progress and completion from an engine operation to its caller,
 * and carries a stop request from the caller to the engine's Controlled
 * object.
 */
module Engine {
  import opened Locations

  /**
   * The engine-side object that an operation registers on its connection.
   * `stopCalls` counts the stop() calls it has received.
   */
  class Controlled {
    var stopCalls: nat

    constructor ()
      ensures stopCalls == 0
    {
      stopCalls := 0;
    }

    method Stop()
      modifies this
      ensures stopCalls == old(stopCalls) + 1
    {
      stopCalls := stopCalls + 1;
    }
  }

  /**
   * The caller's end of one engine operation. The controller pointer is not
   * initialised by the source, so it starts out absent here.
   */
  class Connection {
    var ctrlObject: Controlled?

    constructor ()
      ensures ctrlObject == null
    {
      ctrlObject := null;
    }

    /** Stores the controller, replacing any earlier one. */
    method SetCtrlObject(c: Controlled)
      modifies this
      ensures ctrlObject == c
    {
      ctrlObject := c;
    }

    /**
     * Forwards exactly one stop() to the stored controller. The source has no
     * null check, so a controller must have been set.
     */
    method Stop()
      requires ctrlObject != null
      modifies ctrlObject
      ensures ctrlObject.stopCalls == old(ctrlObject.stopCalls) + 1
    {
      ctrlObject.Stop();
    }
  }

  /** The four callbacks an engine operation invokes on its connection. */
  datatype Callback =
    | DataReady(batch: seq<Location>)
    | Progress(text: string, cur: nat, total: nat)
    | Finished
    | Aborted

  /**
   * The outcome of asking an engine to start a query or a build: whether it
   * started, and the callbacks the connection then received.
   */
  datatype Operation = Operation(started: bool, callbacks: seq<Callback>)

  /**
   * The documented meaning of the boolean that query() and build() return:
   * true exactly when the operation was started, so an operation that was
   * not started never calls back.
   */
  predicate HonoursStartResult(op: Operation)
  {
    !op.started ==> op.callbacks == []
  }

  /** The locations delivered by a sequence of callbacks, in order. */
  function Delivered(cbs: seq<Callback>): (locs: seq<Location>)
    ensures cbs == [] ==> locs == []
  {
    if cbs == [] then []
    else (if cbs[0].DataReady? then cbs[0].batch else []) + Delivered(cbs[1..])
  }

  /** Delivery is compositional: the locations of a split trace are concatenated. */
  lemma {:induction false} DeliveredAppend(a: seq<Callback>, b: seq<Callback>)
    ensures Delivered(a + b) == Delivered(a) + Delivered(b)
  {
    if a == [] {
      assert a + b == b;
    } else {
      assert (a + b)[1..] == a[1..] + b;
      DeliveredAppend(a[1..], b);
    }
  }
}
