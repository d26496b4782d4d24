/**
 * The payloads that travel between the simulator process's components over the
 * in-process event bus, and between the simulator and the dashboard.
 */
module Messages {
  import opened Prelude

  /**
   * The `parameters` dictionary of a command. Each key is either present with a
   * value of its validated type or absent.
   */
  datatype Params = Params(startTime: Option<string>, stepSizeSeconds: Option<int>, replaySpeed: Option<real>)

  const NoParams := Params(None, None, None)

  /** One queued command as the dashboard hands it out: `{"command": ..., "parameters": {...}}`. */
  datatype CommandDict = CommandDict(command: string, parameters: Params)

  /**
   * The data of a `simulation.command` event: `{'command': ..., 'parameters': ...}`,
   * where the `parameters` key may be missing altogether.
   */
  datatype SimCommand = SimCommand(command: string, parameters: Option<Params>)

  /**
   * The data of a `satellite.ground_position` event, `{'lon', 'lat', 'alt'}`;
   * a subscriber cannot rely on every key being there.
   */
  datatype PositionData = PositionData(lon: Option<real>, lat: Option<real>, alt: Option<real>)

  /** `(data.get('lon', 0.0), data.get('lat', 0.0), data.get('alt', 0.0))`, as both subscribers read it. */
  function LonLatAlt(d: PositionData): (r: (real, real, real))
    ensures r.0 == (if d.lon.Some? then d.lon.value else 0.0)
    ensures r.1 == (if d.lat.Some? then d.lat.value else 0.0)
    ensures r.2 == (if d.alt.Some? then d.alt.value else 0.0)
  {
    (d.lon.GetOr(0.0), d.lat.GetOr(0.0), d.alt.GetOr(0.0))
  }

  /** What the simulator dispatches, one constructor per topic it publishes on. */
  datatype Event =
    | Tick(time: real, timeEpsec: int)                               // simulation.tick
    | StepForward(counter: int, time: real, timeEpsec: int)          // simulation.step_forward
    | GroundPosition(data: PositionData, isoTime: string, timeEpsec: int) // satellite.ground_position
}
