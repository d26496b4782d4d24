/**
 * How the parts fit together: the dashboard's answer to the simulator's
 * poll, decoded by the GUI connector, reaches the simulator clock as
 * `simulation.command` events; and the telemetry the connector pushes is what
 * the dashboard's ingest view accepts.
 */
module Pipeline {
  import opened Prelude
  import opened Messages
  import opened Json
  import opened DashboardModels
  import opened Replies
  import opened CommandViews
  import opened TelemetryViews
  import opened Gui
  import opened Simulation

  /**
   * The `parameters` object of a fetched command, as the simulator reads it.
   * A step size is taken only when it is a whole number; any other value
   * cannot be a `Params` and the decoding fails.
   */
  function ParamsOfJson(j: Json): Option<Params> {
    if !j.JObj? then None
    else
      var f := j.fields;
      var time := if "start_time" in f && f["start_time"].JStr? then Some(f["start_time"].s) else None;
      var speed := if "replay_speed" in f && f["replay_speed"].JNum? then Some(f["replay_speed"].n) else None;
      if "step_size_seconds" !in f then Some(Params(time, None, speed))
      else
        var v := f["step_size_seconds"];
        if v.JNum? && v.n == v.n.Floor as real then Some(Params(time, Some(v.n.Floor), speed))
        else None
  }

  /** `command['command']` and `command['parameters']` of one fetched command. */
  function CommandOfJson(j: Json): Option<CommandDict> {
    if !(j.JObj? && "command" in j.fields && "parameters" in j.fields && j.fields["command"].JStr?) then None
    else
      match ParamsOfJson(j.fields["parameters"])
      case None => None
      case Some(p) => Some(CommandDict(j.fields["command"].s, p))
  }

  function CommandsOfJson(items: seq<Json>): Option<seq<CommandDict>>
    decreases |items|
  {
    if items == [] then Some([])
    else
      match (CommandsOfJson(items[..|items| - 1]), CommandOfJson(items[|items| - 1]))
      case (Some(init), Some(last)) => Some(init + [last])
      case _ => None
  }

  /** `json.get('commands', [])` on the body of the poll's answer. */
  function DecodeBatch(body: Json): Option<seq<CommandDict>> {
    if !body.JObj? then None
    else if "commands" !in body.fields then Some([])
    else if !body.fields["commands"].JArr? then None
    else CommandsOfJson(body.fields["commands"].items)
  }

  /** The dictionaries `to_dict` makes of a run of commands. */
  function Dicts(rows: seq<CommandRow>): (r: seq<CommandDict>)
    ensures |r| == |rows|
    ensures forall i :: 0 <= i < |rows| ==> r[i] == ToDict(rows[i])
  {
    seq(|rows|, i requires 0 <= i < |rows| => ToDict(rows[i]))
  }

  /** The parameters survive the trip through JSON unchanged. */
  lemma ParamsRoundTrip(p: Params)
    ensures ParamsOfJson(ParamsJson(p)) == Some(p)
  {
    var j := ParamsJson(p);
    if p.stepSizeSeconds.Some? {
      assert j.fields["step_size_seconds"] == JNum(p.stepSizeSeconds.value as real);
    }
  }

  lemma {:induction false} ListingRoundTrip(rows: seq<CommandRow>)
    ensures CommandsOfJson(Listing(rows)) == Some(Dicts(rows))
    decreases |rows|
  {
    if rows != [] {
      var init := rows[..|rows| - 1];
      ListingRoundTrip(init);
      var last := rows[|rows| - 1];
      ParamsRoundTrip(last.parameters);
      assert CommandOfJson(CommandJson(ToDict(last))) == Some(ToDict(last));
      var listed := Listing(rows);
      assert listed == Listing(init) + [CommandJson(ToDict(last))];
      assert listed[..|listed| - 1] == Listing(init);
      assert Dicts(init) + [ToDict(last)] == Dicts(rows);
    }
  }

  /** What the connector decodes from a GET answer is exactly the pending commands, in creation order. */
  lemma PollRoundTrip(rows: seq<CommandRow>)
    ensures DecodeBatch(GetBody(rows)) == Some(Dicts(Pending(rows)))
  {
    ListingRoundTrip(Pending(rows));
  }

  /**
   * A stop queued on the dashboard, handed out alone by a poll, reaches the
   * simulator as a reset: the clock stops and a rewind is pending.
   */
  lemma StopBecomesRewind(rows: seq<CommandRow>, c: Clock, now: real)
    requires |Pending(rows)| == 1 && Pending(rows)[0].commandType == "stop"
    ensures DecodeBatch(GetBody(rows)).Some?
    ensures Routed(DecodeBatch(GetBody(rows)).value) == [SimCommand("reset", None)]
    ensures AfterCommands(c, Routed(DecodeBatch(GetBody(rows)).value), now) == c.(running := false, rewindPending := true)
  {
    PollRoundTrip(rows);
    var d := Dicts(Pending(rows));
    assert d[..|d| - 1] == [];
    assert d[0].command == "stop";
    assert Route(d[0].command, d[0].parameters) == Some(SimCommand("reset", None));
    assert Routed(d[..|d| - 1]) == [];
    assert Routed(d) == Routed(d[..|d| - 1]) + [SimCommand("reset", None)];
    var sent := Routed(d);
    assert sent[..|sent| - 1] == [];
  }

  /** Setting commands are accepted and queued by the dashboard but never change the simulator clock. */
  lemma SettingsNeverReachClock(rows: seq<CommandRow>, c: Clock, now: real)
    requires forall r :: r in Pending(rows) ==> r.commandType in {"set_start_time", "set_step_size", "set_replay_speed"}
    ensures DecodeBatch(GetBody(rows)).Some?
    ensures Routed(DecodeBatch(GetBody(rows)).value) == []
    ensures AfterCommands(c, Routed(DecodeBatch(GetBody(rows)).value), now) == c
  {
    PollRoundTrip(rows);
    var d := Dicts(Pending(rows));
    forall x | x in d
      ensures x.command != "start" && x.command != "pause" && x.command != "stop"
    {
      var i :| 0 <= i < |d| && d[i] == x;
      assert Pending(rows)[i] in Pending(rows);
    }
    RoutedDropsOthers(d);
  }

  /**
   * The connector's telemetry push is accepted by the ingest view exactly
   * when the time string is a nonempty ISO-8601 timestamp, and the stored
   * reading carries the published coordinates under the name "Test".
   */
  lemma TelemetryPushAccepted(data: PositionData, time: string, parsers: Parsers)
    ensures var v := ValidateTelemetry(Some(JObj(TelemetryPayload(data, time))), parsers);
      v.Accepted? <==> time != "" && parsers.parseDatetime(time).Some?
    ensures var v := ValidateTelemetry(Some(JObj(TelemetryPayload(data, time))), parsers);
      v.Accepted? ==>
        var (lon, lat, alt) := LonLatAlt(data);
        v.value == Reading(TelemetrySatellite, parsers.parseDatetime(time).value, lat, lon, Some(alt), None)
  {
  }
}
