/**
 * The `commands` view (src/dashboard/simulation/views.py): POST validates a
 * command and queues it; GET drains every unconsumed command in creation
 * order and marks them consumed. The `SimulationCommand` table is the field
 * `rows` of a `CommandQueue`, in insertion order.
 */
module CommandViews {
  import opened Prelude
  import opened Messages
  import opened Json
  import opened DashboardModels
  import opened Replies

  /** The kinds that may carry `step_size_seconds`. */
  const StepKinds: set<string> := {"set_step_size", "start", "pause", "stop"}
  /** The kinds that may carry `replay_speed`. */
  const SpeedKinds: set<string> := {"set_replay_speed", "start", "pause", "stop"}
  /** The kinds that take all three parameters at once. */
  const ControlKinds: set<string> := {"start", "pause", "stop"}

  const BadStartTime: string := "Invalid 'start_time', expected ISO-8601"
  const BadStepSize: string := "'step_size_seconds' must be a positive integer"
  const BadReplaySpeed: string := "'replay_speed' must be a positive number"

  /** `parse_datetime(v).isoformat()`; a value that is not a string makes `parse_datetime` raise. */
  function ParsedTime(v: Json, parsers: Parsers): Checked<string> {
    if !v.JStr? then Refused(Crash)
    else
      match parsers.parseDatetime(v.s)
      case None => Refused(Error(BadStartTime, 400))
      case Some(iso) => Accepted(iso)
  }

  /** The `step_size_seconds` branch: absent, or `int(...)` and positive. */
  function StepParam(fields: map<string, Json>, parsers: Parsers): Checked<Option<int>> {
    if "step_size_seconds" !in fields then Accepted(None)
    else
      match PyInt(fields["step_size_seconds"], parsers)
      case Some(v) => if v <= 0 then Refused(Error(BadStepSize, 400)) else Accepted(Some(v))
      case None => Refused(Error(BadStepSize, 400))
  }

  /** The `replay_speed` branch: absent, or `float(...)` and positive. */
  function SpeedParam(fields: map<string, Json>, parsers: Parsers): Checked<Option<real>> {
    if "replay_speed" !in fields then Accepted(None)
    else
      match PyFloat(fields["replay_speed"], parsers)
      case Some(v) => if v <= 0.0 then Refused(Error(BadReplaySpeed, 400)) else Accepted(Some(v))
      case None => Refused(Error(BadReplaySpeed, 400))
  }

  /** `str(command_type)` inside the error message. */
  function Shown(j: Json, parsers: Parsers): string {
    if j.JStr? then j.s else parsers.display(j)
  }

  /** The parameters a command of an allowed kind carries, checked in the order the view checks them. */
  function KindParams(kind: string, fields: map<string, Json>, parsers: Parsers): Checked<(string, Params)> {
    if kind == "set_start_time" then
      var v := Get(fields, "start_time");
      if !Truthy(v) then Accepted((kind, NoParams))
      else
        match ParsedTime(v, parsers)
        case Refused(r) => Refused(r)
        case Accepted(iso) => Accepted((kind, Params(Some(iso), None, None)))
    else if kind == "set_step_size" then
      match StepParam(fields, parsers)
      case Refused(r) => Refused(r)
      case Accepted(step) => Accepted((kind, Params(None, step, None)))
    else if kind == "set_replay_speed" then
      match SpeedParam(fields, parsers)
      case Refused(r) => Refused(r)
      case Accepted(speed) => Accepted((kind, Params(None, None, speed)))
    else
      var time: Checked<Option<string>> :=
        if "start_time" !in fields then Accepted(None)
        else match ParsedTime(fields["start_time"], parsers)
          case Refused(r) => Refused(r)
          case Accepted(iso) => Accepted(Some(iso));
      if time.Refused? then Refused(time.reply)
      else
        match StepParam(fields, parsers)
        case Refused(r) => Refused(r)
        case Accepted(step) =>
          match SpeedParam(fields, parsers)
          case Refused(r) => Refused(r)
          case Accepted(speed) => Accepted((kind, Params(time.value, step, speed)))
  }

  /** The POST branch up to `SimulationCommand.objects.create`: the kind and parameters to queue, or the refusal. */
  function ValidateCommand(body: Option<Json>, parsers: Parsers): (r: Checked<(string, Params)>)
    ensures r.Refused? ==> r.reply.status == 400 || r.reply == Crash
    ensures r.Accepted? ==> body.Some? && body.value.JObj? && r.value.0 in CommandTypes
  {
    match body
    case None => Refused(Error("Invalid JSON payload", 400))
    case Some(payload) =>
      if !payload.JObj? then Refused(Crash)
      else
        var command := Get(payload.fields, "command");
        if !Truthy(command) then Refused(Error("Missing 'command' field", 400))
        else if command.JArr? || command.JObj? then Refused(Crash)
        else if !(command.JStr? && command.s in CommandTypes) then
          Refused(Error("Invalid command '" + Shown(command, parsers) + "'", 400))
        else KindParams(command.s, payload.fields, parsers)
  }

  /**
   * What an accepted command carries: an allowed kind, and exactly the
   * parameters its kind takes that the payload supplied, each validated.
   */
  lemma AcceptedCommand(body: Option<Json>, parsers: Parsers)
    requires ValidateCommand(body, parsers).Accepted?
    ensures var (kind, p) := ValidateCommand(body, parsers).value;
      && body.Some? && body.value.JObj?
      && Get(body.value.fields, "command") == JStr(kind)
      && kind in CommandTypes
      && (p.stepSizeSeconds.Some? <==> kind in StepKinds && "step_size_seconds" in body.value.fields)
      && (p.stepSizeSeconds.Some? ==>
            p.stepSizeSeconds.value > 0 && PyInt(body.value.fields["step_size_seconds"], parsers) == p.stepSizeSeconds)
      && (p.replaySpeed.Some? <==> kind in SpeedKinds && "replay_speed" in body.value.fields)
      && (p.replaySpeed.Some? ==>
            p.replaySpeed.value > 0.0 && PyFloat(body.value.fields["replay_speed"], parsers) == p.replaySpeed)
      && (p.startTime.Some? <==>
            (kind == "set_start_time" && Truthy(Get(body.value.fields, "start_time")))
            || (kind in ControlKinds && "start_time" in body.value.fields))
      && (p.startTime.Some? ==>
            var v := body.value.fields["start_time"];
            v.JStr? && parsers.parseDatetime(v.s) == p.startTime)
  {
  }

  /** Every way a POST body is refused with 400. */
  lemma RefusedCommand(body: Option<Json>, parsers: Parsers)
    ensures body.None? ==> ValidateCommand(body, parsers) == Refused(Error("Invalid JSON payload", 400))
    ensures body.Some? && body.value.JObj? && !Truthy(Get(body.value.fields, "command")) ==>
      ValidateCommand(body, parsers) == Refused(Error("Missing 'command' field", 400))
    ensures body.Some? && body.value.JObj? && Get(body.value.fields, "command").JStr? ==>
      var kind := Get(body.value.fields, "command").s;
      kind != "" && kind !in CommandTypes ==>
        ValidateCommand(body, parsers) == Refused(Error("Invalid command '" + kind + "'", 400))
    ensures (body.Some? && body.value.JObj? && Get(body.value.fields, "command") == JStr("set_step_size")
             && "step_size_seconds" in body.value.fields) ==>
        var v := PyInt(body.value.fields["step_size_seconds"], parsers);
        (v.None? || v.value <= 0) ==> ValidateCommand(body, parsers) == Refused(Error(BadStepSize, 400))
    ensures (body.Some? && body.value.JObj? && Get(body.value.fields, "command") == JStr("set_replay_speed")
             && "replay_speed" in body.value.fields) ==>
        var v := PyFloat(body.value.fields["replay_speed"], parsers);
        (v.None? || v.value <= 0.0) ==> ValidateCommand(body, parsers) == Refused(Error(BadReplaySpeed, 400))
  {
  }

  /** A start, pause or stop whose start time passed is refused with 400 for a bad step size or, after that, a bad speed. */
  lemma RefusedControlParams(body: Option<Json>, parsers: Parsers)
    requires body.Some? && body.value.JObj?
    requires Get(body.value.fields, "command").JStr? && Get(body.value.fields, "command").s in ControlKinds
    requires "start_time" in body.value.fields ==> ParsedTime(body.value.fields["start_time"], parsers).Accepted?
    ensures StepParam(body.value.fields, parsers).Refused? ==>
      ValidateCommand(body, parsers) == Refused(Error(BadStepSize, 400))
    ensures StepParam(body.value.fields, parsers).Accepted? && SpeedParam(body.value.fields, parsers).Refused? ==>
      ValidateCommand(body, parsers) == Refused(Error(BadReplaySpeed, 400))
    ensures "step_size_seconds" in body.value.fields ==>
      var v := PyInt(body.value.fields["step_size_seconds"], parsers);
      (v.None? || v.value <= 0) ==> ValidateCommand(body, parsers).Refused?
  {
  }

  /**
   * A start time that `parse_datetime` rejects refuses the command with 400,
   * and one that is not a string makes the view raise: for start, pause and
   * stop whenever the key is present, for `set_start_time` whenever its value
   * is truthy.
   */
  lemma RefusedStartTime(body: Option<Json>, parsers: Parsers)
    requires body.Some? && body.value.JObj?
    requires Get(body.value.fields, "command").JStr?
    ensures var fields := body.value.fields;
      var kind := Get(fields, "command").s;
      var v := Get(fields, "start_time");
      (kind in ControlKinds && "start_time" in fields) || (kind == "set_start_time" && Truthy(v)) ==>
        && (v.JStr? && parsers.parseDatetime(v.s).None? ==>
              ValidateCommand(body, parsers) == Refused(Error(BadStartTime, 400)))
        && (!v.JStr? ==> ValidateCommand(body, parsers) == Refused(Crash))
  {
  }

  /** The queued commands not yet handed out, in table order. */
  function Unconsumed(rows: seq<CommandRow>): (r: seq<CommandRow>)
    ensures forall x :: x in r <==> x in rows && !x.consumed
    decreases |rows|
  {
    if rows == [] then []
    else
      var init := Unconsumed(rows[..|rows| - 1]);
      var last := rows[|rows| - 1];
      assert forall x :: x in rows <==> x in rows[..|rows| - 1] || x == last;
      if last.consumed then init else init + [last]
  }

  /** Filtering keeps table order: it distributes over concatenation, one row at a time. */
  lemma {:induction false} UnconsumedAppend(a: seq<CommandRow>, b: seq<CommandRow>)
    ensures Unconsumed(a + b) == Unconsumed(a) + Unconsumed(b)
    ensures |b| == 1 ==> Unconsumed(b) == (if b[0].consumed then [] else b)
    decreases |b|
  {
    if b == [] {
      assert a + b == a;
    } else {
      var init := b[..|b| - 1];
      var last := b[|b| - 1];
      var tail := if last.consumed then [] else [last];
      assert (a + b)[..|a + b| - 1] == a + init;
      assert (a + b)[|a + b| - 1] == last;
      assert Unconsumed(a + b) == Unconsumed(a + init) + tail;
      assert Unconsumed(b) == Unconsumed(init) + tail;
      UnconsumedAppend(a, init);
      if |b| == 1 {
        assert init == [];
      }
    }
  }

  /** Each unconsumed row is handed out as often as it occurs in the table, and no consumed row at all. */
  lemma {:induction false} UnconsumedCounts(rows: seq<CommandRow>, x: CommandRow)
    ensures multiset(Unconsumed(rows))[x] == if x.consumed then 0 else multiset(rows)[x]
    decreases |rows|
  {
    if rows != [] {
      var init := rows[..|rows| - 1];
      var last := rows[|rows| - 1];
      assert rows == init + [last];
      UnconsumedCounts(init, x);
    }
  }

  /** Ordered by `created_at`. */
  ghost predicate InCreatedOrder(s: seq<CommandRow>) {
    forall i, j :: 0 <= i < j < |s| ==> s[i].createdAt <= s[j].createdAt
  }

  /** Place `r` after every row created no later than it. */
  function Insert(r: CommandRow, s: seq<CommandRow>): seq<CommandRow>
    decreases |s|
  {
    if s == [] then [r]
    else if r.createdAt < s[0].createdAt then [r] + s
    else [s[0]] + Insert(r, s[1..])
  }

  /** `order_by("created_at")`, stable: rows created at the same instant keep table order. */
  function ByCreation(s: seq<CommandRow>): seq<CommandRow>
    decreases |s|
  {
    if s == [] then [] else Insert(s[|s| - 1], ByCreation(s[..|s| - 1]))
  }

  /** What a GET hands out. */
  function Pending(rows: seq<CommandRow>): seq<CommandRow> {
    ByCreation(Unconsumed(rows))
  }

  /** The table after `update(consumed=True)`. */
  function AllConsumed(rows: seq<CommandRow>): (r: seq<CommandRow>)
    ensures |r| == |rows|
    ensures forall i :: 0 <= i < |rows| ==> r[i] == rows[i].(consumed := true)
  {
    seq(|rows|, i requires 0 <= i < |rows| => rows[i].(consumed := true))
  }

  /** The `commands` list of the GET answer. */
  function Listing(rows: seq<CommandRow>): seq<Json>
    decreases |rows|
  {
    if rows == [] then [] else Listing(rows[..|rows| - 1]) + [CommandJson(ToDict(rows[|rows| - 1]))]
  }

  lemma {:induction false} InsertPermutes(r: CommandRow, s: seq<CommandRow>)
    ensures multiset(Insert(r, s)) == multiset(s) + multiset{r}
    decreases |s|
  {
    if s != [] && r.createdAt >= s[0].createdAt {
      InsertPermutes(r, s[1..]);
      assert s == [s[0]] + s[1..];
    }
  }

  lemma {:induction false} InsertOrdered(r: CommandRow, s: seq<CommandRow>)
    requires InCreatedOrder(s)
    ensures InCreatedOrder(Insert(r, s))
    decreases |s|
  {
    if s != [] && r.createdAt >= s[0].createdAt {
      var t := Insert(r, s[1..]);
      InsertOrdered(r, s[1..]);
      InsertPermutes(r, s[1..]);
      forall j | 0 <= j < |t|
        ensures s[0].createdAt <= t[j].createdAt
      {
        assert t[j] in multiset(t);
        if t[j] != r {
          assert t[j] in s[1..];
        }
      }
    }
  }

  /** `order_by("created_at")` returns the same rows, ordered by creation time. */
  lemma {:induction false} ByCreationSorts(s: seq<CommandRow>)
    ensures InCreatedOrder(ByCreation(s))
    ensures multiset(ByCreation(s)) == multiset(s)
    decreases |s|
  {
    if s != [] {
      ByCreationSorts(s[..|s| - 1]);
      InsertOrdered(s[|s| - 1], ByCreation(s[..|s| - 1]));
      InsertPermutes(s[|s| - 1], ByCreation(s[..|s| - 1]));
      assert s == s[..|s| - 1] + [s[|s| - 1]];
    }
  }

  /** Commands created one after the other come out first in, first out. */
  lemma {:induction false} ByCreationIsFifo(s: seq<CommandRow>)
    requires InCreatedOrder(s)
    ensures ByCreation(s) == s
    decreases |s|
  {
    if s != [] {
      var init := s[..|s| - 1];
      var last := s[|s| - 1];
      ByCreationIsFifo(init);
      InsertAtEnd(last, init);
      assert init + [last] == s;
    }
  }

  lemma {:induction false} InsertAtEnd(r: CommandRow, s: seq<CommandRow>)
    requires forall i :: 0 <= i < |s| ==> s[i].createdAt <= r.createdAt
    ensures Insert(r, s) == s + [r]
    decreases |s|
  {
    if s != [] {
      InsertAtEnd(r, s[1..]);
      assert s == [s[0]] + s[1..];
    }
  }

  /** A GET hands out every unconsumed command once, in creation order. */
  lemma PendingIsUnconsumed(rows: seq<CommandRow>)
    ensures InCreatedOrder(Pending(rows))
    ensures multiset(Pending(rows)) == multiset(Unconsumed(rows))
    ensures forall x :: x in Pending(rows) <==> x in rows && !x.consumed
  {
    ByCreationSorts(Unconsumed(rows));
    assert forall x :: x in Pending(rows) <==> x in multiset(Pending(rows));
  }

  /** After a GET nothing is pending: an immediate second GET hands out nothing. */
  lemma {:induction false} DrainedQueue(rows: seq<CommandRow>)
    ensures Unconsumed(AllConsumed(rows)) == []
    ensures Pending(AllConsumed(rows)) == []
    decreases |rows|
  {
    if rows != [] {
      DrainedQueue(rows[..|rows| - 1]);
      assert AllConsumed(rows)[..|rows| - 1] == AllConsumed(rows[..|rows| - 1]);
    }
  }

  lemma {:induction false} ListingLength(rows: seq<CommandRow>)
    ensures |Listing(rows)| == |rows|
    ensures forall i :: 0 <= i < |rows| ==> Listing(rows)[i] == CommandJson(ToDict(rows[i]))
    decreases |rows|
  {
    if rows != [] {
      ListingLength(rows[..|rows| - 1]);
    }
  }

  /** The GET answer's body. */
  function GetBody(rows: seq<CommandRow>): Json {
    JObj(map["commands" := JArr(Listing(Pending(rows)))])
  }

  /** The POST answer's body for a created command. */
  function CreatedBody(row: CommandRow, parsers: Parsers): Json {
    JObj(map["id" := JNum(row.id as real), "command" := JStr(row.commandType),
             "parameters" := ParamsJson(row.parameters), "created_at" := JStr(parsers.formatInstant(row.createdAt))])
  }

  /** The `SimulationCommand` table. */
  class CommandQueue {
    var rows: seq<CommandRow>

    /** Primary keys are handed out in order, starting at 1. */
    ghost predicate Valid()
      reads this
    {
      forall i :: 0 <= i < |rows| ==> rows[i].id == i + 1
    }

    constructor()
      ensures rows == [] && Valid()
    {
      rows := [];
    }

    /** The GET branch: answer every pending command, then mark the whole table consumed. */
    method Drain() returns (reply: Reply)
      requires Valid()
      modifies this
      ensures Valid()
      ensures reply == Reply(200, GetBody(old(rows)))
      ensures rows == AllConsumed(old(rows))
    {
      var pending := Pending(rows);
      var listed: seq<Json> := [];
      for i := 0 to |pending|
        invariant listed == Listing(pending[..i])
      {
        assert pending[..i + 1][..i] == pending[..i];
        listed := listed + [CommandJson(ToDict(pending[i]))];
      }
      assert pending[..|pending|] == pending;
      reply := Reply(200, JObj(map["commands" := JArr(listed)]));
      ghost var before := rows;
      for i := 0 to |rows|
        invariant |rows| == |before|
        invariant forall j :: 0 <= j < i ==> rows[j] == before[j].(consumed := true)
        invariant forall j :: i <= j < |rows| ==> rows[j] == before[j]
      {
        rows := rows[i := rows[i].(consumed := true)];
      }
      assert rows == AllConsumed(before);
    }

    /** The POST branch: queue the validated command, unconsumed, or refuse it and leave the table alone. */
    method Post(body: Option<Json>, parsers: Parsers, now: real) returns (reply: Reply)
      requires Valid()
      modifies this
      ensures Valid()
      ensures match ValidateCommand(body, parsers)
        case Accepted((kind, p)) =>
          var row := NewCommand(|old(rows)| + 1, kind, p, now);
          rows == old(rows) + [row] && reply == Reply(201, CreatedBody(row, parsers))
        case Refused(r) => rows == old(rows) && reply == r
    {
      var checked := ValidateCommand(body, parsers);
      if checked.Refused? {
        return checked.reply;
      }
      var (kind, p) := checked.value;
      var row := NewCommand(|rows| + 1, kind, p, now);
      rows := rows + [row];
      reply := Reply(201, CreatedBody(row, parsers));
    }

    /** `commands`: GET drains, POST queues, any other method is refused with 405. */
    method Handle(request: Request, parsers: Parsers, now: real) returns (reply: Reply)
      requires Valid()
      modifies this
      ensures Valid()
      ensures request.verb == "GET" ==> reply == Reply(200, GetBody(old(rows))) && rows == AllConsumed(old(rows))
      ensures request.verb != "GET" && request.verb != "POST" ==> reply == Error(NotAllowed, 405) && rows == old(rows)
      ensures request.verb == "POST" ==> match ValidateCommand(request.body, parsers)
        case Accepted((kind, p)) =>
          var row := NewCommand(|old(rows)| + 1, kind, p, now);
          rows == old(rows) + [row] && reply == Reply(201, CreatedBody(row, parsers))
        case Refused(r) => rows == old(rows) && reply == r
    {
      if request.verb == "GET" {
        reply := Drain();
      } else if request.verb != "POST" {
        reply := Error(NotAllowed, 405);
      } else {
        reply := Post(request.body, parsers, now);
      }
    }
  }
}
