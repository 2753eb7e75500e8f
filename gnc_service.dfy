/**
 * The flight-control service's shared state: the set of connected WebSocket clients it
 * broadcasts telemetry to, and the kRPC connection to the active vessel that commands
 * from the mission sequencer are executed on.
 */
module GncService {
  import opened Wrappers
  import opened Missions
  import opened GncCommands

  /** A client connection. Whether a send to it succeeds is fixed by the connection's
      health; every send attempt is recorded. */
  class WebSocket {
    const remoteAddress: string
    const healthy: bool
    var attempts: seq<string>

    constructor (remoteAddress: string, healthy: bool)
      ensures this.remoteAddress == remoteAddress && this.healthy == healthy && attempts == []
    {
      this.remoteAddress := remoteAddress;
      this.healthy := healthy;
      attempts := [];
    }

    /** `await websocket.send(message)`; false stands for the exception it raises. */
    method Send(message: string) returns (ok: bool)
      modifies this
      ensures attempts == old(attempts) + [message] && ok == healthy
    {
      attempts := attempts + [message];
      ok := healthy;
    }
  }

  /** How `websocket.wait_closed()` finishes: it returns, raises one of the exceptions the
      handler names, raises another `Exception`, or the task is cancelled
      (`asyncio.CancelledError`, which `except Exception` does not catch). */
  datatype Closing =
    | Closed
    | ClosedOK
    | ClosedError
    | BadHandshake
    | BadMessage
    | OtherException
    | Cancelled

  /** The sends over the snapshot: one send task per connection, gathered with exceptions
      returned as results, so that a failed send does not stop the others. The model runs the
      tasks one after another, in list order. */
  method SendEach(order: seq<WebSocket>, message: string) returns (results: seq<bool>)
    requires forall i, j :: 0 <= i < j < |order| ==> order[i] != order[j]
    modifies set c | c in order
    ensures |results| == |order|
    ensures forall j :: 0 <= j < |order| ==> order[j].attempts == old(order[j].attempts) + [message]
    ensures forall j :: 0 <= j < |order| ==> results[j] == order[j].healthy
  {
    results := [];
    var k := 0;
    while k < |order|
      invariant 0 <= k <= |order| && |results| == k
      invariant forall j :: 0 <= j < k ==> order[j].attempts == old(order[j].attempts) + [message]
      invariant forall j :: k <= j < |order| ==> order[j].attempts == old(order[j].attempts)
      invariant forall j :: 0 <= j < k ==> results[j] == order[j].healthy
    {
      var ok := order[k].Send(message);
      results := results + [ok];
      k := k + 1;
    }
  }

  /** `list(s)`: every element of the set exactly once, in an order the model leaves open. */
  method ListOf<T>(s: set<T>) returns (r: seq<T>)
    ensures |r| == |s|
    ensures forall x :: x in s <==> x in r
    ensures forall i, j :: 0 <= i < j < |r| ==> r[i] != r[j]
  {
    r := [];
    var rest := s;
    while rest != {}
      invariant rest <= s
      invariant forall x :: x in s <==> x in r || x in rest
      invariant forall x :: x in r ==> x !in rest
      invariant |r| + |rest| == |s|
      invariant forall i, j :: 0 <= i < j < |r| ==> r[i] != r[j]
      decreases |rest|
    {
      var x :| x in rest;
      r := r + [x];
      rest := rest - {x};
    }
  }

  class FlightControl {
    /** The global `clients` set. */
    var clients: set<WebSocket>
    /** Whether `krpc_conn` is set. */
    var connected: bool
    /** The active vessel, when there is one. */
    var vessel: Vessel?

    constructor (connected: bool, vessel: Vessel?)
      ensures clients == {} && this.connected == connected && this.vessel == vessel
    {
      clients := {};
      this.connected := connected;
      this.vessel := vessel;
    }

    /** `register_client`: `clients.add(websocket)`. */
    method RegisterClient(ws: WebSocket)
      modifies this
      ensures clients == old(clients) + {ws}
      ensures connected == old(connected) && vessel == old(vessel)
    {
      clients := clients + {ws};
    }

    /** `unregister_client`: `clients.remove(websocket)`, which raises `KeyError` (false
        here) when the client is not in the set. */
    method UnregisterClient(ws: WebSocket) returns (removed: bool)
      modifies this
      ensures removed <==> ws in old(clients)
      ensures clients == old(clients) - {ws}
      ensures connected == old(connected) && vessel == old(vessel)
    {
      removed := ws in clients;
      if removed {
        clients := clients - {ws};
      }
    }

    /** `websocket_handler`: register, wait for the connection to close, and unregister in
        `finally`. Every `Exception` from the wait is logged and swallowed; a cancellation
        propagates (true) after the client is unregistered. */
    method WebsocketHandler(ws: WebSocket, closing: Closing) returns (propagated: bool)
      modifies this
      ensures clients == old(clients) - {ws}
      ensures ws !in old(clients) ==> clients == old(clients)
      ensures propagated <==> closing == Cancelled
      ensures connected == old(connected) && vessel == old(vessel)
    {
      RegisterClient(ws);
      propagated := closing == Cancelled;
      var removed := UnregisterClient(ws);
      assert removed;
    }

    /** `broadcast_telemetry` with the already serialised message: one send attempt per
        client in a snapshot of the set; a failed send is only logged, so it neither stops
        the other sends nor removes the client. `results[k]` is whether the send to
        `order[k]` succeeded. */
    method BroadcastTelemetry(message: string) returns (order: seq<WebSocket>, results: seq<bool>)
      modifies clients
      ensures clients == old(clients)
      ensures |order| == |clients| && |results| == |order|
      ensures forall c :: c in clients <==> c in order
      ensures forall c :: c in clients ==> c.attempts == old(c.attempts) + [message]
      ensures forall k :: 0 <= k < |order| ==> results[k] == order[k].healthy
    {
      order, results := [], [];
      if clients == {} {
        return;
      }
      order := ListOf(clients);
      results := SendEach(order, message);
      forall c | c in clients
        ensures c.attempts == old(c.attempts) + [message]
      {
        var j :| 0 <= j < |order| && order[j] == c;
      }
    }

    /** `execute_command`: nothing happens without a kRPC connection and a vessel; otherwise
        the command is applied to the vessel's controls as `Dispatch` describes, and any
        error is caught. */
    method ExecuteCommand(c: FlightCommand)
      modifies vessel
      ensures !connected || vessel == null ==> vessel == null || vessel.Controls() == old(vessel.Controls())
      ensures connected && vessel != null ==> vessel.Controls() == Dispatch(old(vessel.Controls()), c)
    {
      if !connected || vessel == null {
        return;
      }
      var v := vessel;
      if c.command == Some(SetThrottle) {
        var x := FloatParam(c.parameters, "value", 0.0);
        if x.Success? {
          v.SetThrottleTo(x.value);
        }
      } else if c.command == Some(ActivateNextStage) {
        v.StageNext();
      } else if c.command == Some(SetSas) {
        var on := BoolParam(c.parameters, "value", false);
        if on.Success? {
          v.SetSasTo(on.value);
        }
      } else if c.command == Some(SetRcs) {
        var on := BoolParam(c.parameters, "value", false);
        if on.Success? {
          v.SetRcsTo(on.value);
        }
      } else if c.command == Some(SetAutopilot) {
        v.Engage();
        var pitch := FloatParam(c.parameters, "pitch", 90.0);
        var heading := FloatParam(c.parameters, "heading", 90.0);
        if pitch.Success? && heading.Success? {
          v.TargetPitchAndHeading(pitch.value, heading.value);
        }
      }
    }
  }
}
