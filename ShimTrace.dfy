/**
 * What the hook shims call, in order: the hook server's dialog
 * notifications and the game functions they wrap. The game functions' effects
 * belong to the game, so each call is recorded in a trace; what they compute
 * is an oracle passed to the shim that calls them.
 */
module ShimTrace {
  import opened GZCom
  import opened HookDispatch

  datatype ShimCall =
    | SendBeforeQueryDialogNotifications(occupant: Pointer, notified: seq<Pointer>)
    | RealDoQueryDialog(occupant: Pointer)
    | SendAfterQueryDialogNotifications(occupant: Pointer, notified: seq<Pointer>)
    | RealGetBuildingOccupantTipInfo(occupant: Pointer)
    | RealGetNetworkOccupantTipInfo(occupant: Pointer)

  class Trace {
    var calls: seq<ShimCall>

    constructor ()
      ensures calls == []
    {
      calls := [];
    }

    method Record(call: ShimCall)
      modifies this
      ensures calls == old(calls) + [call]
    {
      calls := calls + [call];
    }
  }

  /** How many times `call` occurs in a trace. */
  function Occurrences(trace: seq<ShimCall>, call: ShimCall): (n: nat)
    ensures n <= |trace|
    ensures n == 0 <==> call !in trace
  {
    if trace == [] then 0
    else (if trace[0] == call then 1 else 0) + Occurrences(trace[1..], call)
  }

  /**
   * The custom tooltip step every tooltip shim takes first: the server's
   * first-responder dispatch when the server exists and has a custom tooltip
   * subscriber (`dispatched`); otherwise unhandled, with the tooltip as it was.
   */
  function CustomToolTipStep<S>(
    dispatched: bool, order: seq<Pointer>, occupant: Pointer, debugQuery: bool, tip: S,
    process: (Pointer, Pointer, bool, S) -> Reply<S>): (r: Reply<S>)
    ensures !dispatched ==> r == Reply(false, tip)
    ensures r.handled ==> dispatched && exists i :: 0 <= i < |order| && order[i] != NULL
  {
    if dispatched then
      var d := FirstResponder(order, occupant, debugQuery, tip, process);
      Reply(d.handled, d.state)
    else
      Reply(false, tip)
  }
}
