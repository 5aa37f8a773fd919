/**
 * A subscription to one hub event: the handlers added to it, run in the
 * order they were added each time the event arrives.
 */
module HubSubscription {
  import opened Common
  import opened Json

  /** One handler run with the event data it was handed. */
  datatype HandlerCall = HandlerCall(handler: Action, data: seq<Json>)

  class Subscription {
    /** The "Received" handlers, in the order they were added. */
    var received: seq<Action>

    constructor ()
      ensures received == []
    {
      received := [];
    }

    /** Adds a handler after every handler added before it. */
    method AddReceivedHandler(handler: Action)
      modifies this
      ensures received == old(received) + [handler]
    {
      received := received + [handler];
    }

    /**
     * Runs the handlers in order, each with the same `data`. The first
     * handler that throws ends the run and its exception reaches the
     * caller (`thrown`); the handlers after it are not run.
     */
    method OnReceived(data: seq<Json>) returns (calls: seq<HandlerCall>, thrown: Option<Action>)
      ensures |calls| <= |received|
      ensures forall i :: 0 <= i < |calls| ==> calls[i] == HandlerCall(received[i], data)
      ensures thrown.None? ==> |calls| == |received|
                               && forall i :: 0 <= i < |received| ==> !received[i].throws
      ensures thrown.Some? ==> && |calls| > 0
                               && thrown.value == received[|calls| - 1]
                               && thrown.value.throws
                               && forall i :: 0 <= i < |calls| - 1 ==> !received[i].throws
    {
      calls := [];
      for i := 0 to |received|
        invariant |calls| == i
        invariant forall j :: 0 <= j < i ==> calls[j] == HandlerCall(received[j], data)
        invariant forall j :: 0 <= j < i ==> !received[j].throws
      {
        var handler := received[i];
        calls := calls + [HandlerCall(handler, data)];
        if handler.throws {
          return calls, Some(handler);
        }
      }
      thrown := None;
    }
  }

  /**
   * Adding a handler that does not throw to a subscription whose handlers
   * all complete leaves the earlier calls as they were and appends one
   * call of the new handler with the same data.
   */
  method AddedHandlerRunsLast(subscription: Subscription, handler: Action, data: seq<Json>)
      returns (before: seq<HandlerCall>, after: seq<HandlerCall>)
    requires forall i :: 0 <= i < |subscription.received| ==> !subscription.received[i].throws
    requires !handler.throws
    modifies subscription
    ensures after == before + [HandlerCall(handler, data)]
  {
    var thrown;
    before, thrown := subscription.OnReceived(data);
    subscription.AddReceivedHandler(handler);
    after, thrown := subscription.OnReceived(data);
  }
}
