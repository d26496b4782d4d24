/**
 * The dashboard's tables (src/dashboard/simulation/models.py) as values:
 * a queued simulation command, a satellite, and the latest telemetry of a
 * satellite. The ORM is replaced by the collections in `DashboardViews`.
 */
module DashboardModels {
  import opened Prelude
  import opened Messages
  import opened Json

  /** `SimulationCommand.COMMAND_TYPES`, in declaration order. */
  const CommandTypes: seq<string> :=
    ["start", "pause", "stop", "set_start_time", "set_step_size", "set_replay_speed"]

  /** A queued command; `createdAt` is the wall-clock instant of its creation. */
  datatype CommandRow = CommandRow(id: nat, commandType: string, parameters: Params, createdAt: real, consumed: bool)

  /** A command as `SimulationCommand.objects.create` stores it: not yet consumed. */
  function NewCommand(id: nat, commandType: string, parameters: Params, now: real): CommandRow {
    CommandRow(id, commandType, parameters, now, false)
  }

  /** `SimulationCommand.to_dict`: the kind and the parameters, nothing else. */
  function ToDict(row: CommandRow): CommandDict {
    CommandDict(row.commandType, row.parameters)
  }

  /** A satellite row; `id` is its primary key. */
  datatype Satellite = Satellite(id: nat, name: string, noradId: string, active: bool)

  /** A satellite created by name only: blank NORAD id, active. */
  function NewSatellite(id: nat, name: string): Satellite {
    Satellite(id, name, "", true)
  }

  /**
   * The latest telemetry of one satellite; the store keys it by the
   * satellite's id, which is its primary key. `timestamp` is the parsed
   * timestamp's `isoformat()`, `updatedAt` the instant of the last push.
   */
  datatype TelemetryRecord = TelemetryRecord(
    timestamp: string, latitude: real, longitude: real,
    altitude: Option<real>, extra: Option<Json>, updatedAt: real)

  /** `parameters` as the JSON object a response carries: only the keys that were set. */
  function ParamsJson(p: Params): (j: Json)
    ensures j.JObj?
    ensures "start_time" in j.fields <==> p.startTime.Some?
    ensures "step_size_seconds" in j.fields <==> p.stepSizeSeconds.Some?
    ensures "replay_speed" in j.fields <==> p.replaySpeed.Some?
    ensures j.fields.Keys <= {"start_time", "step_size_seconds", "replay_speed"}
    ensures p.startTime.Some? ==> j.fields["start_time"] == JStr(p.startTime.value)
    ensures p.stepSizeSeconds.Some? ==> j.fields["step_size_seconds"] == JNum(p.stepSizeSeconds.value as real)
    ensures p.replaySpeed.Some? ==> j.fields["replay_speed"] == JNum(p.replaySpeed.value)
  {
    var m0: map<string, Json> := map[];
    var m1 := if p.startTime.Some? then m0["start_time" := JStr(p.startTime.value)] else m0;
    var m2 := if p.stepSizeSeconds.Some? then m1["step_size_seconds" := JNum(p.stepSizeSeconds.value as real)] else m1;
    var m3 := if p.replaySpeed.Some? then m2["replay_speed" := JNum(p.replaySpeed.value)] else m2;
    JObj(m3)
  }

  /** `to_dict()` as the JSON object the GET response lists. */
  function CommandJson(d: CommandDict): (j: Json)
    ensures j.JObj? && j.fields.Keys == {"command", "parameters"}
  {
    JObj(map["command" := JStr(d.command), "parameters" := ParamsJson(d.parameters)])
  }
}
