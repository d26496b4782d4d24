/**
 * `WebGuiConnector` (src/sim/gui.py): the bridge between the dashboard and
 * the simulator. On every tick it turns the dashboard's queued commands into
 * `simulation.command` events, and it forwards every published ground
 * position to the dashboard as telemetry. The HTTP requests themselves are
 * left out: what `fetch_commands` returned is an input, and the telemetry
 * request body is an output.
 */
module Gui {
  import opened Prelude
  import opened Messages
  import opened Json

  /** The satellite name every telemetry push carries. */
  const TelemetrySatellite: string := "Test"

  /** What `fetch_commands` returns: the dashboard's reply, or the error dict built when the request fails. */
  datatype FetchReply = Fetched(commands: seq<CommandDict>) | FetchFailed(details: string)

  /** `json.get('commands', [])`: the error dict has no `commands` key. */
  function FetchedCommands(reply: FetchReply): seq<CommandDict> {
    match reply
    case Fetched(cmds) => cmds
    case FetchFailed(_) => []
  }

  /** `start_simulation`: forwards the parameters unchanged. */
  function StartSimulation(parameters: Params): SimCommand {
    SimCommand("start", Some(parameters))
  }

  /** `pause_simulation`: forwards the parameters unchanged. */
  function PauseSimulation(parameters: Params): SimCommand {
    SimCommand("pause", Some(parameters))
  }

  /** `reset_simulation`: the event carries no `parameters` key at all. */
  function ResetSimulation(parameters: Params): SimCommand {
    SimCommand("reset", None)
  }

  /** `handle_commands`: the `simulation.command` one dashboard command turns into, if any. */
  function Route(command: string, parameters: Params): (r: Option<SimCommand>)
    ensures r.Some? <==> command == "start" || command == "pause" || command == "stop"
    ensures r.Some? ==> r.value.command == "start" || r.value.command == "pause" || r.value.command == "reset"
    ensures command == "stop" ==> r == Some(SimCommand("reset", None))
    ensures command == "start" || command == "pause" ==> r == Some(SimCommand(command, Some(parameters)))
  {
    if command == "start" then Some(StartSimulation(parameters))
    else if command == "pause" then Some(PauseSimulation(parameters))
    else if command == "stop" then Some(ResetSimulation(parameters))
    else None
  }

  /** The events a batch of dashboard commands turns into, in batch order. */
  function Routed(cmds: seq<CommandDict>): seq<SimCommand>
    decreases |cmds|
  {
    if cmds == [] then []
    else
      var last := cmds[|cmds| - 1];
      var r := Route(last.command, last.parameters);
      Routed(cmds[..|cmds| - 1]) + (if r.Some? then [r.value] else [])
  }

  /**
   * `on_sim_tick`: fetch the queued commands and hand each one, in order, to
   * `handle_commands`; `sent` is the `simulation.command` events dispatched.
   */
  method OnSimTick(reply: FetchReply) returns (sent: seq<SimCommand>)
    ensures sent == Routed(FetchedCommands(reply))
    ensures reply.FetchFailed? ==> sent == []
  {
    var commands := FetchedCommands(reply);
    sent := [];
    if |commands| > 0 {
      for i := 0 to |commands|
        invariant sent == Routed(commands[..i])
      {
        assert commands[..i + 1][..i] == commands[..i];
        var r := Route(commands[i].command, commands[i].parameters);
        if r.Some? {
          sent := sent + [r.value];
        }
      }
      assert commands[..|commands|] == commands;
    }
  }

  /** Routing a batch is routing its parts one after the other: the order of the batch is kept. */
  lemma {:induction false} RoutedAppend(a: seq<CommandDict>, b: seq<CommandDict>)
    ensures Routed(a + b) == Routed(a) + Routed(b)
    decreases |b|
  {
    if b == [] {
      assert a + b == a;
    } else {
      assert (a + b)[..|a + b| - 1] == a + b[..|b| - 1];
      RoutedAppend(a, b[..|b| - 1]);
    }
  }

  /** A control command (start, pause, stop) at position i of a batch of them is the i-th event sent. */
  lemma {:induction false} RoutedControls(cmds: seq<CommandDict>)
    requires forall c :: c in cmds ==> c.command == "start" || c.command == "pause" || c.command == "stop"
    ensures |Routed(cmds)| == |cmds|
    ensures forall i :: 0 <= i < |cmds| ==> Some(Routed(cmds)[i]) == Route(cmds[i].command, cmds[i].parameters)
    decreases |cmds|
  {
    if cmds != [] {
      var init := cmds[..|cmds| - 1];
      assert forall c :: c in init ==> c in cmds;
      RoutedControls(init);
    }
  }

  /** Commands other than start, pause and stop (the `set_*` kinds among them) send nothing. */
  lemma {:induction false} RoutedDropsOthers(cmds: seq<CommandDict>)
    requires forall c :: c in cmds ==> c.command != "start" && c.command != "pause" && c.command != "stop"
    ensures Routed(cmds) == []
    decreases |cmds|
  {
    if cmds != [] {
      var init := cmds[..|cmds| - 1];
      assert forall c :: c in init ==> c in cmds;
      RoutedDropsOthers(init);
    }
  }

  /**
   * `on_satellite_ground_position` followed by the body `send_telemetry`
   * posts: a missing coordinate reads as 0.0.
   */
  function TelemetryPayload(data: PositionData, time: string): (payload: map<string, Json>)
    ensures payload.Keys == {"satellite", "timestamp", "latitude", "longitude", "altitude"}
    ensures payload["satellite"] == JStr(TelemetrySatellite) && payload["timestamp"] == JStr(time)
    ensures payload["latitude"] == JNum(LonLatAlt(data).1)
    ensures payload["longitude"] == JNum(LonLatAlt(data).0)
    ensures payload["altitude"] == JNum(LonLatAlt(data).2)
  {
    var (lon, lat, alt) := LonLatAlt(data);
    map["satellite" := JStr(TelemetrySatellite),
        "timestamp" := JStr(time),
        "latitude" := JNum(lat),
        "longitude" := JNum(lon),
        "altitude" := JNum(alt)]
  }
}
